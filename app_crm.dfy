/** The lenient in-memory CRM client of the bot service (`CRMClient` in `bot/app.py`).
    Unlike the strict store, it never fails: updating or scheduling against an
    unknown lead first inserts a placeholder lead under that id. */
module AppCrm {
  import opened Text

  /** One stored lead. `notes` is `None` while the record has no `notes` key. */
  datatype AppLead = AppLead(
    name: string, phone: string, city: Option<string>, source: Option<string>,
    status: string, notes: Option<string>)

  /** The placeholder inserted for an id the client has never seen. */
  const Placeholder := AppLead("Test Lead", "1234567890", Some("Test City"), Some("Test"), "NEW", None)

  /** What a call hands back to the bot. */
  datatype Receipt = LeadReceipt(leadId: string, status: string) | VisitReceipt(visitId: string, status: string)

  /** The client's state: the leads, and every identifier it has generated. */
  datatype CrmState = CrmState(leads: map<string, AppLead>, issued: set<string>)

  /** Identifiers a freshly generated one must avoid. */
  function Used(s: CrmState): set<string> {
    s.issued + s.leads.Keys
  }

  datatype Served = Served(state: CrmState, receipt: Receipt)

  /** `create_lead`: a lead under a new identifier, status NEW. */
  function Create(s: CrmState, name: string, phone: string, city: Option<string>, source: Option<string>): (r: Served)
    ensures r.receipt.LeadReceipt? && r.receipt.status == "NEW"
    ensures r.receipt.leadId !in Used(s)
    ensures r.state.leads.Keys == s.leads.Keys + {r.receipt.leadId}
    ensures r.state.leads[r.receipt.leadId] == AppLead(name, phone, city, source, "NEW", None)
    ensures forall id :: id in s.leads ==> r.state.leads[id] == s.leads[id]
    ensures Used(s) < Used(r.state)
  {
    var id := FreshKey(Used(s));
    Served(CrmState(s.leads[id := AppLead(name, phone, city, source, "NEW", None)], s.issued + {id}),
           LeadReceipt(id, "NEW"))
  }

  /** The lead an id refers to, inserting the placeholder when it is unknown. */
  function Known(s: CrmState, id: string): AppLead {
    if id in s.leads then s.leads[id] else Placeholder
  }

  /** `update_status`: always succeeds and answers UPDATED. */
  function Update(s: CrmState, id: string, status: string, notes: Option<string>): (r: Served)
    ensures r.receipt == LeadReceipt(id, "UPDATED")
    ensures r.state.leads.Keys == s.leads.Keys + {id}
    ensures r.state.leads[id].status == status
    ensures r.state.leads[id].notes == (if Truthy(notes) then notes else Known(s, id).notes)
    ensures id in s.leads ==> r.state.leads[id].name == s.leads[id].name && r.state.leads[id].phone == s.leads[id].phone
                              && r.state.leads[id].city == s.leads[id].city && r.state.leads[id].source == s.leads[id].source
    ensures id !in s.leads ==> r.state.leads[id] == Placeholder.(status := status, notes := if Truthy(notes) then notes else None)
    ensures forall other :: other in s.leads && other != id ==> r.state.leads[other] == s.leads[other]
    ensures r.state.issued == s.issued
  {
    var l := Known(s, id).(status := status);
    var l' := if Truthy(notes) then l.(notes := notes) else l;
    Served(s.(leads := s.leads[id := l']), LeadReceipt(id, "UPDATED"))
  }

  /** `schedule_visit`: always succeeds, stores nothing about the visit and answers
      SCHEDULED with a new visit identifier. */
  function Schedule(s: CrmState, id: string, visitTime: string, notes: Option<string>): (r: Served)
    ensures r.receipt.VisitReceipt? && r.receipt.status == "SCHEDULED"
    ensures r.receipt.visitId !in Used(s) && r.receipt.visitId in r.state.issued
    ensures r.state.leads == s.leads[id := Known(s, id)]
    ensures id in s.leads ==> r.state.leads == s.leads
  {
    var leads := s.leads[id := Known(s, id)];
    var v := FreshKey(s.issued + leads.Keys);
    Served(CrmState(leads, s.issued + {v}), VisitReceipt(v, "SCHEDULED"))
  }

  /** Identity fields a lead keeps for as long as it is stored. */
  predicate SameIdentity(a: AppLead, b: AppLead) {
    a.name == b.name && a.phone == b.phone && a.city == b.city && a.source == b.source
  }

  /** After `s`, the state `s'` still holds every lead of `s` with the same identity. */
  predicate Keeps(s: CrmState, s': CrmState) {
    s.leads.Keys <= s'.leads.Keys && s.issued <= s'.issued
    && forall id :: id in s.leads ==> SameIdentity(s.leads[id], s'.leads[id])
  }

  /** No call forgets a lead or changes who a lead is. */
  lemma CallsKeep(s: CrmState, name: string, phone: string, city: Option<string>, source: Option<string>,
                  id: string, status: string, visitTime: string, notes: Option<string>)
    ensures Keeps(s, Create(s, name, phone, city, source).state)
    ensures Keeps(s, Update(s, id, status, notes).state)
    ensures Keeps(s, Schedule(s, id, visitTime, notes).state)
  {
  }

  lemma KeepsTransitive(s1: CrmState, s2: CrmState, s3: CrmState)
    requires Keeps(s1, s2) && Keeps(s2, s3)
    ensures Keeps(s1, s3)
  {
  }

  class MockCrm {
    var leads: map<string, AppLead>
    var issued: set<string>

    function State(): CrmState
      reads this
    {
      CrmState(leads, issued)
    }

    constructor()
      ensures State() == CrmState(map[], {})
    {
      leads := map[];
      issued := {};
    }

    method CreateLead(name: string, phone: string, city: Option<string>, source: Option<string>) returns (r: Receipt)
      modifies this
      ensures Served(State(), r) == Create(old(State()), name, phone, city, source)
    {
      var id := FreshKey(issued + leads.Keys);
      leads := leads[id := AppLead(name, phone, city, source, "NEW", None)];
      issued := issued + {id};
      r := LeadReceipt(id, "NEW");
    }

    method UpdateStatus(id: string, status: string, notes: Option<string>) returns (r: Receipt)
      modifies this
      ensures Served(State(), r) == Update(old(State()), id, status, notes)
    {
      if id !in leads {
        leads := leads[id := Placeholder];
      }
      var l := leads[id].(status := status);
      if Truthy(notes) {
        l := l.(notes := notes);
      }
      leads := leads[id := l];
      r := LeadReceipt(id, "UPDATED");
    }

    method ScheduleVisit(id: string, visitTime: string, notes: Option<string>) returns (r: Receipt)
      modifies this
      ensures Served(State(), r) == Schedule(old(State()), id, visitTime, notes)
    {
      if id !in leads {
        leads := leads[id := Placeholder];
      }
      var v := FreshKey(issued + leads.Keys);
      issued := issued + {v};
      r := VisitReceipt(v, "SCHEDULED");
    }
  }
}
