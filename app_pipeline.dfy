/** The bot service's request pipeline (`process_single_transcript` and
    `handle_bot` in `bot/app.py`): classify, extract, gate on confidence,
    check the required entities, then make exactly one CRM call. */
module AppPipeline {
  import opened Text
  import opened Domain
  import opened AppNlu
  import opened AppCrm

  /** The entity slots an intent requires. */
  datatype Field = NameField | PhoneField | LeadIdField | StatusField | VisitTimeField

  function FieldName(f: Field): string {
    match f
    case NameField => "name"
    case PhoneField => "phone"
    case LeadIdField => "lead_id"
    case StatusField => "status"
    case VisitTimeField => "visit_time"
  }

  function FieldNames(fs: seq<Field>): (ns: seq<string>)
    ensures |ns| == |fs| && forall i :: 0 <= i < |fs| ==> ns[i] == FieldName(fs[i])
  {
    if fs == [] then [] else [FieldName(fs[0])] + FieldNames(fs[1..])
  }

  function Slot(e: Entities, f: Field): Option<string> {
    match f
    case NameField => e.name
    case PhoneField => e.phone
    case LeadIdField => e.leadId
    case StatusField => e.status
    case VisitTimeField => e.visitTime
  }

  /** The required entities of an intent, in the order they are checked. */
  function Required(intent: Intent): seq<Field> {
    match intent
    case LeadCreate => [NameField, PhoneField]
    case LeadUpdate => [LeadIdField, StatusField]
    case VisitSchedule => [LeadIdField, VisitTimeField]
    case Unknown => []
  }

  /** The fields of `fs` whose slot is empty or absent, keeping their order. */
  function MissingFrom(fs: seq<Field>, e: Entities): (m: seq<Field>)
    ensures forall f :: f in m <==> f in fs && !Truthy(Slot(e, f))
    ensures |m| <= |fs| && (|m| == |fs| ==> m == fs)
  {
    if fs == [] then []
    else (if Truthy(Slot(e, fs[0])) then [] else [fs[0]]) + MissingFrom(fs[1..], e)
  }

  function Missing(intent: Intent, e: Entities): seq<Field> {
    MissingFrom(Required(intent), e)
  }

  /** One call on the CRM client, with the arguments the bot passes. */
  datatype CrmRequest =
    | CreateLead(name: string, phone: string, city: Option<string>, source: Option<string>)
    | UpdateStatus(leadId: string, status: string, notes: Option<string>)
    | ScheduleVisit(leadId: string, visitTime: string, notes: Option<string>)

  /** The `crm_call` descriptor of a response. */
  datatype CrmCall = CrmCall(endpoint: string, verb: string, statusCode: int)

  datatype CrmResult = Failed(message: string) | Done(receipt: Receipt)

  /** A response body: a normal reply, or an error with its HTTP status. An empty
      `crm_call` is `None`, and so is a missing `fallback`. */
  datatype Response =
    | Reply(intent: string, entities: Entities, result: CrmResult, fallback: Option<string>, crmCall: Option<CrmCall>)
    | ErrorReply(statusCode: int, errorType: string, details: string)

  /** How a CRM call ended: it returned, or raised `CRMError(code, message)`. */
  datatype CallOutcome = Returned(receipt: Receipt) | Raised(code: int, message: string)

  /** What the pipeline does once it has the intent and the entities. */
  datatype Plan = Answer(response: Response) | Call(request: CrmRequest)

  const Rephrase := "Could you please rephrase your request?"

  /** The reply below the confidence threshold or for an unknown intent. */
  function Gated(e: Entities): Response {
    Reply("UNKNOWN", e, Failed("Could not determine intent"), Some(Rephrase), None)
  }

  predicate Unsure(c: Classification) {
    c.confidence < 0.7 || c.intent == Unknown
  }

  function IntentOf(req: CrmRequest): Intent {
    match req
    case CreateLead(_, _, _, _) => LeadCreate
    case UpdateStatus(_, _, _) => LeadUpdate
    case ScheduleVisit(_, _, _) => VisitSchedule
  }

  function CallFor(req: CrmRequest): CrmCall {
    match req
    case CreateLead(_, _, _, _) => CrmCall("/crm/leads", "POST", 200)
    case UpdateStatus(id, _, _) => CrmCall("/crm/leads/" + id + "/status", "POST", 200)
    case ScheduleVisit(_, _, _) => CrmCall("/crm/visits", "POST", 200)
  }

  /** The call a validated intent makes, its required slots filled. */
  function RequestFor(intent: Intent, e: Entities): (req: CrmRequest)
    requires intent != Unknown && Missing(intent, e) == []
    ensures IntentOf(req) == intent
    ensures req.CreateLead? ==>
              e.name == Some(req.name) && e.phone == Some(req.phone) && req.city == e.city && req.source == e.source
    ensures req.UpdateStatus? ==> e.leadId == Some(req.leadId) && e.status == Some(req.status) && req.notes == e.notes
    ensures req.ScheduleVisit? ==> e.leadId == Some(req.leadId) && e.visitTime == Some(req.visitTime) && req.notes == e.notes
  {
    assert Required(intent)[0] in Required(intent) && Required(intent)[1] in Required(intent);
    match intent
    case LeadCreate => CreateLead(e.name.value, e.phone.value, e.city, e.source)
    case LeadUpdate => UpdateStatus(e.leadId.value, e.status.value, e.notes)
    case VisitSchedule => ScheduleVisit(e.leadId.value, e.visitTime.value, e.notes)
  }

  /** Steps 3 to 5 up to the CRM call: gate, validate, then choose the call. */
  function Decide(c: Classification, e: Entities): (p: Plan)
    ensures Unsure(c) ==> p == Answer(Gated(e))
    ensures !Unsure(c) && Missing(c.intent, e) != [] ==>
              p == Answer(ErrorReply(400, "VALIDATION_ERROR",
                                     "Missing required entities: " + Join(", ", FieldNames(Missing(c.intent, e)))))
    ensures p.Call? <==> !Unsure(c) && Missing(c.intent, e) == []
    ensures p.Call? ==> IntentOf(p.request) == c.intent
  {
    if Unsure(c) then Answer(Gated(e))
    else if Missing(c.intent, e) != [] then
      Answer(ErrorReply(400, "VALIDATION_ERROR", "Missing required entities: " + Join(", ", FieldNames(Missing(c.intent, e)))))
    else Call(RequestFor(c.intent, e))
  }

  /** The response once the call has ended; a `CRMError` becomes a 502 carrying its message. */
  function Settle(e: Entities, req: CrmRequest, o: CallOutcome): (r: Response)
    ensures o.Raised? ==> r == ErrorReply(502, "CRM_ERROR", o.message)
    ensures o.Returned? ==>
              r.Reply? && r.intent == IntentName(IntentOf(req)) && r.entities == e && r.result == Done(o.receipt)
              && r.fallback.None? && r.crmCall == Some(CallFor(req))
  {
    match o
    case Raised(_, message) => ErrorReply(502, "CRM_ERROR", message)
    case Returned(receipt) => Reply(IntentName(IntentOf(req)), e, Done(receipt), None, Some(CallFor(req)))
  }

  /** The lenient client serving one call. */
  function Serve(s: CrmState, req: CrmRequest): Served {
    match req
    case CreateLead(name, phone, city, source) => Create(s, name, phone, city, source)
    case UpdateStatus(id, status, notes) => Update(s, id, status, notes)
    case ScheduleVisit(id, visitTime, notes) => Schedule(s, id, visitTime, notes)
  }

  datatype Handled = Handled(response: Response, state: CrmState)

  /** The pipeline after classification and extraction, against the lenient client. */
  function Respond(c: Classification, e: Entities, s: CrmState): (h: Handled)
    ensures Decide(c, e).Answer? ==> h == Handled(Decide(c, e).response, s)
    ensures Decide(c, e).Call? ==>
              var sv := Serve(s, Decide(c, e).request);
              h == Handled(Settle(e, Decide(c, e).request, Returned(sv.receipt)), sv.state)
  {
    match Decide(c, e)
    case Answer(r) => Handled(r, s)
    case Call(req) =>
      var sv := Serve(s, req);
      Handled(Settle(e, req, Returned(sv.receipt)), sv.state)
  }

  /** `process_single_transcript` with the classifier's answer given. */
  function ProcessAs(c: Classification, t: string, dp: string -> Option<string>, s: CrmState): Handled {
    Respond(c, EntitiesOf(t, c.intent, dp), s)
  }

  /** `process_single_transcript`. An UNKNOWN classification answers the fallback and
      leaves the client alone; the client changes only when the reply reports a CRM call. */
  function Process(t: string, dp: string -> Option<string>, s: CrmState): (h: Handled)
    ensures Classify(t).intent == Unknown ==> h == Handled(Gated(EntitiesOf(t, Unknown, dp)), s)
    ensures h.state != s ==> h.response.Reply? && h.response.crmCall.Some?
    ensures h.response.ErrorReply? ==> h.state == s
  {
    ProcessAs(Classify(t), t, dp, s)
  }

  /** Below the threshold, or for an unknown intent, the reply is UNKNOWN and FAILED with
      a rephrase fallback and no CRM call, whatever intent was proposed. */
  lemma UnsureFallsBack(c: Classification, t: string, dp: string -> Option<string>, s: CrmState)
    requires Unsure(c)
    ensures var h := ProcessAs(c, t, dp, s);
            h.state == s && h.response.Reply? && h.response.intent == "UNKNOWN"
            && h.response.result == Failed("Could not determine intent")
            && h.response.fallback == Some(Rephrase) && h.response.crmCall.None?
  {
  }

  /** With the real classifier the gate closes exactly on UNKNOWN. */
  lemma GateOnUnknown(t: string)
    ensures Unsure(Classify(t)) <==> Classify(t).intent == Unknown
  {
  }

  /** Every required entity missing is reported, in the required order, and nothing is called. */
  lemma ValidationReports(c: Classification, e: Entities, s: CrmState)
    requires !Unsure(c) && Missing(c.intent, e) != []
    ensures Respond(c, e, s).state == s
    ensures Respond(c, e, s).response.ErrorReply? && Respond(c, e, s).response.statusCode == 400
    ensures forall f :: f in Missing(c.intent, e) <==> f in Required(c.intent) && !Truthy(Slot(e, f))
    ensures |Missing(c.intent, e)| == 2 ==> Missing(c.intent, e) == Required(c.intent)
  {
  }

  /** A validated intent makes its one call on its endpoint, and the client keeps every lead. */
  lemma DispatchEndpoint(c: Classification, e: Entities, s: CrmState)
    requires !Unsure(c) && Missing(c.intent, e) == []
    ensures var h := Respond(c, e, s);
            h.response.Reply? && h.response.intent == IntentName(c.intent) && h.response.fallback.None?
            && h.response.crmCall.Some? && h.response.crmCall.value.verb == "POST"
            && h.response.crmCall.value.statusCode == 200
            && h.response.crmCall.value.endpoint ==
               (match c.intent
                case LeadCreate => "/crm/leads"
                case LeadUpdate => "/crm/leads/" + e.leadId.value + "/status"
                case _ => "/crm/visits")
            && Keeps(s, h.state)
  {
    var req := Decide(c, e).request;
    CallKeeps(s, req);
  }

  /** The result a dispatched call reports: NEW with a new lead, UPDATED, or SCHEDULED. */
  lemma DispatchResult(c: Classification, e: Entities, s: CrmState)
    requires !Unsure(c) && Missing(c.intent, e) == []
    ensures var r := Respond(c, e, s).response.result;
            r.Done?
            && (c.intent == LeadCreate ==> r.receipt.LeadReceipt? && r.receipt.status == "NEW" && r.receipt.leadId !in s.leads)
            && (c.intent == LeadUpdate ==> r.receipt == LeadReceipt(e.leadId.value, "UPDATED"))
            && (c.intent == VisitSchedule ==> r.receipt.VisitReceipt? && r.receipt.status == "SCHEDULED")
  {
  }

  /** The call carries the extracted entities: a new lead holds the extracted name, phone,
      city and source; an update sets the extracted status (and non-empty notes) on the
      extracted lead id; a visit leaves that lead on file. The reply echoes the entities. */
  lemma DispatchStores(c: Classification, e: Entities, s: CrmState)
    requires !Unsure(c) && Missing(c.intent, e) == []
    ensures var h := Respond(c, e, s);
            && h.response.Reply? && h.response.entities == e && h.response.result.Done?
            && (c.intent == LeadCreate ==>
                  var id := h.response.result.receipt.leadId;
                  && id in h.state.leads
                  && e.name == Some(h.state.leads[id].name) && e.phone == Some(h.state.leads[id].phone)
                  && h.state.leads[id].city == e.city && h.state.leads[id].source == e.source
                  && h.state.leads[id].status == "NEW")
            && (c.intent == LeadUpdate ==>
                  var id := h.response.result.receipt.leadId;
                  && e.leadId == Some(id) && id in h.state.leads
                  && e.status == Some(h.state.leads[id].status)
                  && (Truthy(e.notes) ==> h.state.leads[id].notes == e.notes))
            && (c.intent == VisitSchedule ==>
                  e.leadId.Some? && e.leadId.value in h.state.leads && e.visitTime.Some?)
  {
    var req := Decide(c, e).request;
    assert req == RequestFor(c.intent, e);
  }

  lemma CallKeeps(s: CrmState, req: CrmRequest)
    ensures Keeps(s, Serve(s, req).state)
  {
    match req
    case CreateLead(name, phone, city, source) => CallsKeep(s, name, phone, city, source, "", "", "", None);
    case UpdateStatus(id, status, notes) => CallsKeep(s, "", "", None, None, id, status, "", notes);
    case ScheduleVisit(id, visitTime, notes) => CallsKeep(s, "", "", None, None, id, "", visitTime, notes);
  }

  /** Handling one transcript never forgets a lead or changes who a lead is. */
  lemma ProcessKeeps(t: string, dp: string -> Option<string>, s: CrmState)
    ensures Keeps(s, Process(t, dp, s).state)
  {
    var c := Classify(t);
    var e := EntitiesOf(t, c.intent, dp);
    if Decide(c, e).Call? {
      CallKeeps(s, Decide(c, e).request);
    }
  }

  datatype BatchRun = BatchRun(responses: seq<Response>, state: CrmState)

  /** Transcripts handled in turn by `step`, each against the state the previous ones left. */
  function Run(ts: seq<string>, step: (string, CrmState) -> Handled, s: CrmState): (b: BatchRun)
    ensures |b.responses| == |ts|
    decreases |ts|
  {
    if ts == [] then BatchRun([], s)
    else
      var prev := Run(ts[..|ts| - 1], step, s);
      var h := step(ts[|ts| - 1], prev.state);
      BatchRun(prev.responses + [h.response], h.state)
  }

  /** Response `i` of a run is transcript `i`'s, handled after those before it. */
  lemma {:induction false} RunInOrder(ts: seq<string>, step: (string, CrmState) -> Handled, s: CrmState, i: nat)
    requires i < |ts|
    ensures Run(ts, step, s).responses[i] == step(ts[i], Run(ts[..i], step, s).state).response
    decreases |ts|
  {
    var n := |ts| - 1;
    var front := ts[..n];
    if i < n {
      RunInOrder(front, step, s, i);
      assert front[..i] == ts[..i] && front[i] == ts[i];
    } else {
      assert ts[..i] == front;
    }
  }

  /** A step that keeps every lead makes a run that keeps every lead. */
  lemma {:induction false} RunKeeps(ts: seq<string>, step: (string, CrmState) -> Handled, s: CrmState)
    requires forall t, st :: Keeps(st, step(t, st).state)
    ensures Keeps(s, Run(ts, step, s).state)
    decreases |ts|
  {
    if ts != [] {
      var prev := Run(ts[..|ts| - 1], step, s);
      RunKeeps(ts[..|ts| - 1], step, s);
      KeepsTransitive(s, prev.state, step(ts[|ts| - 1], prev.state).state);
    }
  }

  function Step(dp: string -> Option<string>): (string, CrmState) -> Handled {
    (t, st) => Process(t, dp, st)
  }

  /** The `transcripts` loop of `handle_bot`: one response per transcript. */
  function Batch(ts: seq<string>, dp: string -> Option<string>, s: CrmState): (b: BatchRun)
    ensures |b.responses| == |ts|
    ensures ts == [] ==> b == BatchRun([], s)
  {
    Run(ts, Step(dp), s)
  }

  /** A batch answers in input order: response `i` is transcript `i`'s, handled after
      those before it, and the client keeps every lead throughout. */
  lemma BatchInOrder(ts: seq<string>, dp: string -> Option<string>, s: CrmState)
    ensures forall i :: 0 <= i < |ts| ==>
              Batch(ts, dp, s).responses[i] == Process(ts[i], dp, Batch(ts[..i], dp, s).state).response
    ensures Keeps(s, Batch(ts, dp, s).state)
  {
    forall i | 0 <= i < |ts|
      ensures Batch(ts, dp, s).responses[i] == Process(ts[i], dp, Batch(ts[..i], dp, s).state).response
    {
      RunInOrder(ts, Step(dp), s, i);
    }
    forall t, st ensures Keeps(st, Step(dp)(t, st).state) {
      ProcessKeeps(t, dp, st);
    }
    RunKeeps(ts, Step(dp), s);
  }

  /** A request body: unparseable, a `transcripts` list, or a single optional `transcript`. */
  datatype BotRequest = Malformed | Many(transcripts: seq<string>) | One(transcript: Option<string>)

  datatype BotReply = Responses(responses: seq<Response>) | Single(response: Response)

  datatype BotRun = BotRun(reply: BotReply, state: CrmState)

  /** `handle_bot`: a missing `transcript` is handled as the empty transcript. */
  function Handle(req: BotRequest, dp: string -> Option<string>, s: CrmState): (r: BotRun)
    ensures req.Many? ==> r.reply.Responses? && |r.reply.responses| == |req.transcripts|
    ensures req.Malformed? ==> r == BotRun(Single(ErrorReply(400, "VALIDATION_ERROR", "Invalid JSON")), s)
  {
    match req
    case Malformed => BotRun(Single(ErrorReply(400, "VALIDATION_ERROR", "Invalid JSON")), s)
    case Many(ts) =>
      var b := Batch(ts, dp, s);
      BotRun(Responses(b.responses), b.state)
    case One(t) =>
      var h := Process(if t.Some? then t.value else "", dp, s);
      BotRun(Single(h.response), h.state)
  }

  /** An absent transcript is handled like an empty one, which nothing classifies. */
  lemma AbsentTranscript(dp: string -> Option<string>, s: CrmState)
    ensures Handle(One(None), dp, s).reply == Single(Gated(NoEntities))
    ensures Handle(One(None), dp, s).state == s
  {
    assert !Occurs("schedule a visit", "");
    assert !AnyOccurs(VisitPhrases, Lower(""));
    assert !AnyOccurs(UpdatePhrases, Lower(""));
    assert !AnyOccurs(CreatePhrases, Lower(""));
  }

  /** `process_single_transcript` on the shared client. */
  method ProcessSingle(crm: MockCrm, t: string, dp: string -> Option<string>) returns (r: Response)
    modifies crm
    ensures Handled(r, crm.State()) == Process(t, dp, old(crm.State()))
  {
    var c := Classify(t);
    var e := ExtractEntities(t, c.intent, dp);
    r := Act(crm, c, e);
  }

  /** Steps 3 to 5 of `process_single_transcript`: gate, collect the missing fields,
      then make the one CRM call. */
  method Act(crm: MockCrm, c: Classification, e: Entities) returns (r: Response)
    modifies crm
    ensures Handled(r, crm.State()) == Respond(c, e, old(crm.State()))
  {
    if c.confidence < 0.7 || c.intent == Unknown {
      return Gated(e);
    }
    var missing: seq<Field> := [];
    var required := Required(c.intent);
    if !Truthy(Slot(e, required[0])) {
      missing := missing + [required[0]];
    }
    if !Truthy(Slot(e, required[1])) {
      missing := missing + [required[1]];
    }
    assert missing == Missing(c.intent, e) by {
      assert required[1..] == [required[1]] && required[1..][1..] == [];
    }
    if missing != [] {
      return ErrorReply(400, "VALIDATION_ERROR", "Missing required entities: " + Join(", ", FieldNames(missing)));
    }
    var req := RequestFor(c.intent, e);
    var receipt: Receipt;
    match req {
      case CreateLead(name, phone, city, source) =>
        receipt := crm.CreateLead(name, phone, city, source);
      case UpdateStatus(id, status, notes) =>
        receipt := crm.UpdateStatus(id, status, notes);
      case ScheduleVisit(id, visitTime, notes) =>
        receipt := crm.ScheduleVisit(id, visitTime, notes);
    }
    r := Settle(e, req, Returned(receipt));
  }

  /** `handle_bot` on the shared client; a batch is answered in input order. */
  method HandleBot(crm: MockCrm, req: BotRequest, dp: string -> Option<string>) returns (reply: BotReply)
    modifies crm
    ensures BotRun(reply, crm.State()) == Handle(req, dp, old(crm.State()))
  {
    match req
    case Malformed =>
      reply := Single(ErrorReply(400, "VALIDATION_ERROR", "Invalid JSON"));
    case One(t) =>
      var r := ProcessSingle(crm, if t.Some? then t.value else "", dp);
      reply := Single(r);
    case Many(ts) =>
      ghost var s0 := crm.State();
      var responses: seq<Response> := [];
      var i := 0;
      while i < |ts|
        invariant 0 <= i <= |ts|
        invariant Batch(ts[..i], dp, s0) == BatchRun(responses, crm.State())
      {
        var r := ProcessSingle(crm, ts[i], dp);
        assert ts[..i + 1][..i] == ts[..i];
        responses := responses + [r];
        i := i + 1;
      }
      assert ts[..i] == ts;
      reply := Responses(responses);
  }
}
