/** The strict in-memory CRM client (`bot/crm_client.py`): it keeps leads in a
    dictionary and refuses to touch a lead it does not hold. */
module CrmClient {
  import opened Text

  /** `CRMError`: an HTTP-like status code and the body that came with it. */
  datatype CrmError = CrmError(statusCode: int, message: string)

  /** The error both lead operations raise for an unknown identifier. */
  const LeadNotFound := CrmError(404, "{\"detail\":\"Lead not found\"}")

  /** One stored lead. `visitTime` and `notes` are `None` while the record lacks the key. */
  datatype Lead = Lead(
    name: string, phone: string, city: string, source: Option<string>,
    status: string, visitTime: Option<string>, notes: Option<string>)

  /** What a successful call returns. */
  datatype Receipt = LeadReceipt(leadId: string, status: string) | VisitReceipt(visitId: string, status: string)

  /** A call either returns a receipt or raises a `CRMError`. */
  datatype Outcome = Ok(receipt: Receipt) | Raised(error: CrmError)

  /** The store: the leads, and every identifier the client has generated. */
  datatype Store = Store(leads: map<string, Lead>, issued: set<string>)

  /** Identifiers a freshly generated one must avoid. */
  function Used(s: Store): set<string> {
    s.issued + s.leads.Keys
  }

  datatype Step = Step(state: Store, outcome: Outcome)

  /** The notes after a call: replaced only by a non-empty new text. */
  function NotesAfter(prior: Option<string>, notes: Option<string>): (r: Option<string>)
    ensures Truthy(notes) ==> r == notes
    ensures !Truthy(notes) ==> r == prior
  {
    if Truthy(notes) then notes else prior
  }

  /** `create_lead`: a new lead under a new identifier, status NEW. */
  function Create(s: Store, name: string, phone: string, city: string, source: Option<string>): (r: Step)
    ensures r.outcome.Ok? && r.outcome.receipt.LeadReceipt? && r.outcome.receipt.status == "NEW"
    ensures var id := r.outcome.receipt.leadId;
            && id !in Used(s)
            && r.state.leads.Keys == s.leads.Keys + {id}
            && r.state.leads[id] == Lead(name, phone, city, source, "NEW", None, None)
            && (forall other :: other in s.leads ==> r.state.leads[other] == s.leads[other])
            && r.state.issued == s.issued + {id}
  {
    var id := FreshKey(Used(s));
    Step(Store(s.leads[id := Lead(name, phone, city, source, "NEW", None, None)], s.issued + {id}),
         Ok(LeadReceipt(id, "NEW")))
  }

  /** `schedule_visit`: records the visit time on a known lead and answers with a new
      visit identifier; an unknown lead raises 404 and changes nothing. */
  function Schedule(s: Store, id: string, visitTime: string, notes: Option<string>): (r: Step)
    ensures r.outcome.Raised? <==> id !in s.leads
    ensures r.outcome.Raised? ==> r.outcome.error == LeadNotFound && r.state == s
    ensures r.outcome.Ok? ==>
              && r.outcome.receipt.VisitReceipt? && r.outcome.receipt.status == "SCHEDULED"
              && r.outcome.receipt.visitId !in Used(s)
              && r.state.issued == s.issued + {r.outcome.receipt.visitId}
              && r.state.leads.Keys == s.leads.Keys
              && r.state.leads[id] == s.leads[id].(visitTime := Some(visitTime), notes := NotesAfter(s.leads[id].notes, notes))
              && (forall other :: other in s.leads && other != id ==> r.state.leads[other] == s.leads[other])
  {
    if id !in s.leads then Step(s, Raised(LeadNotFound))
    else
      var l := s.leads[id].(visitTime := Some(visitTime));
      var l' := if Truthy(notes) then l.(notes := notes) else l;
      var v := FreshKey(Used(s));
      Step(Store(s.leads[id := l'], s.issued + {v}), Ok(VisitReceipt(v, "SCHEDULED")))
  }

  /** `update_status`: sets the status of a known lead and echoes it; an unknown lead
      raises 404 and changes nothing. */
  function Update(s: Store, id: string, status: string, notes: Option<string>): (r: Step)
    ensures r.outcome.Raised? <==> id !in s.leads
    ensures r.outcome.Raised? ==> r.outcome.error == LeadNotFound && r.state == s
    ensures r.outcome.Ok? ==>
              && r.outcome.receipt == LeadReceipt(id, status)
              && r.state.issued == s.issued
              && r.state.leads.Keys == s.leads.Keys
              && r.state.leads[id] == s.leads[id].(status := status, notes := NotesAfter(s.leads[id].notes, notes))
              && (forall other :: other in s.leads && other != id ==> r.state.leads[other] == s.leads[other])
  {
    if id !in s.leads then Step(s, Raised(LeadNotFound))
    else
      var l := s.leads[id].(status := status);
      var l' := if Truthy(notes) then l.(notes := notes) else l;
      Step(s.(leads := s.leads[id := l']), Ok(LeadReceipt(id, status)))
  }

  // ---------------------------------------------------------------------------
  // Sequences of calls

  /** One call to the client. */
  datatype Call =
    | CreateCall(name: string, phone: string, city: string, source: Option<string>)
    | ScheduleCall(id: string, visitTime: string, notes: Option<string>)
    | UpdateCall(id: string, status: string, notes: Option<string>)

  function Apply(s: Store, c: Call): Step {
    match c
    case CreateCall(name, phone, city, source) => Create(s, name, phone, city, source)
    case ScheduleCall(id, visitTime, notes) => Schedule(s, id, visitTime, notes)
    case UpdateCall(id, status, notes) => Update(s, id, status, notes)
  }

  /** The store after a sequence of calls, each on the store the previous one left. */
  function Run(s: Store, calls: seq<Call>): Store
    decreases |calls|
  {
    if calls == [] then s else Run(Apply(s, calls[0]).state, calls[1..])
  }

  /** The lead identifiers the creations in `calls` hand out. */
  function Minted(s: Store, calls: seq<Call>): set<string>
    decreases |calls|
  {
    if calls == [] then {}
    else
      var st := Apply(s, calls[0]);
      (if calls[0].CreateCall? then {st.outcome.receipt.leadId} else {}) + Minted(st.state, calls[1..])
  }

  /** Who a lead is: what creation recorded and no later call alters. */
  predicate SameIdentity(a: Lead, b: Lead) {
    a.name == b.name && a.phone == b.phone && a.city == b.city && a.source == b.source
  }

  /** `t` still holds every lead of `s`, with the same identity, and every identifier
      `s` generated. */
  predicate Keeps(s: Store, t: Store) {
    && s.leads.Keys <= t.leads.Keys
    && s.issued <= t.issued
    && forall id :: id in s.leads ==> SameIdentity(s.leads[id], t.leads[id])
  }

  /** No single call forgets a lead or changes who a lead is. */
  lemma ApplyKeeps(s: Store, c: Call)
    ensures Keeps(s, Apply(s, c).state)
  {
    match c {
      case CreateCall(name, phone, city, source) =>
      case ScheduleCall(id, visitTime, notes) =>
      case UpdateCall(id, status, notes) =>
    }
  }

  lemma KeepsTransitive(s1: Store, s2: Store, s3: Store)
    requires Keeps(s1, s2) && Keeps(s2, s3)
    ensures Keeps(s1, s3)
  {
  }

  /** Nor does any sequence of calls. */
  lemma {:induction false} RunKeeps(s: Store, calls: seq<Call>)
    ensures Keeps(s, Run(s, calls))
    decreases |calls|
  {
    if calls != [] {
      var st := Apply(s, calls[0]).state;
      ApplyKeeps(s, calls[0]);
      RunKeeps(st, calls[1..]);
      KeepsTransitive(s, st, Run(st, calls[1..]));
    }
  }

  /** The leads after a run are those before it and exactly those its creations minted. */
  lemma {:induction false} RunKeys(s: Store, calls: seq<Call>)
    ensures Run(s, calls).leads.Keys == s.leads.Keys + Minted(s, calls)
    decreases |calls|
  {
    if calls != [] {
      var st := Apply(s, calls[0]);
      RunKeys(st.state, calls[1..]);
    }
  }

  /** Starting empty, an update or a visit is accepted exactly for an identifier an
      earlier creation handed out. */
  lemma AcceptedIffMinted(calls: seq<Call>, id: string, status: string, visitTime: string, notes: Option<string>)
    ensures var s := Run(Store(map[], {}), calls);
            && (Update(s, id, status, notes).outcome.Ok? <==> id in Minted(Store(map[], {}), calls))
            && (Schedule(s, id, visitTime, notes).outcome.Ok? <==> id in Minted(Store(map[], {}), calls))
  {
    RunKeys(Store(map[], {}), calls);
  }

  /** A lead once created is accepted by every later update and visit. */
  lemma CreatedStaysKnown(s: Store, name: string, phone: string, city: string, source: Option<string>,
                          calls: seq<Call>, status: string, visitTime: string, notes: Option<string>)
    ensures var c := Create(s, name, phone, city, source);
            var t := Run(c.state, calls);
            var id := c.outcome.receipt.leadId;
            && Update(t, id, status, notes).outcome == Ok(LeadReceipt(id, status))
            && Schedule(t, id, visitTime, notes).outcome.Ok?
            && t.leads[id].name == name && t.leads[id].phone == phone
            && t.leads[id].city == city && t.leads[id].source == source
  {
    var c := Create(s, name, phone, city, source);
    RunKeeps(c.state, calls);
  }

  // ---------------------------------------------------------------------------
  // The client object

  class CrmStore {
    var leads: map<string, Lead>
    var issued: set<string>

    function State(): Store
      reads this
    {
      Store(leads, issued)
    }

    constructor()
      ensures State() == Store(map[], {})
    {
      leads := map[];
      issued := {};
    }

    method CreateLead(name: string, phone: string, city: string, source: Option<string>) returns (r: Receipt)
      modifies this
      ensures Step(State(), Ok(r)) == Create(old(State()), name, phone, city, source)
    {
      var id := FreshKey(issued + leads.Keys);
      leads := leads[id := Lead(name, phone, city, source, "NEW", None, None)];
      issued := issued + {id};
      r := LeadReceipt(id, "NEW");
    }

    method ScheduleVisit(id: string, visitTime: string, notes: Option<string>) returns (r: Outcome)
      modifies this
      ensures Step(State(), r) == Schedule(old(State()), id, visitTime, notes)
    {
      if id !in leads {
        return Raised(LeadNotFound);
      }
      var l := leads[id].(visitTime := Some(visitTime));
      if Truthy(notes) {
        l := l.(notes := notes);
      }
      var v := FreshKey(issued + leads.Keys);
      leads := leads[id := l];
      issued := issued + {v};
      r := Ok(VisitReceipt(v, "SCHEDULED"));
    }

    method UpdateStatus(id: string, status: string, notes: Option<string>) returns (r: Outcome)
      modifies this
      ensures Step(State(), r) == Update(old(State()), id, status, notes)
    {
      if id !in leads {
        return Raised(LeadNotFound);
      }
      var l := leads[id].(status := status);
      if Truthy(notes) {
        l := l.(notes := notes);
      }
      leads := leads[id := l];
      r := Ok(LeadReceipt(id, status));
    }
  }
}
