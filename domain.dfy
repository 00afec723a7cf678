/** The vocabulary both NLU front ends and the bot share: intents, lead statuses
    and the eight-slot entity record. */
module Domain {
  import opened Text

  datatype Intent = LeadCreate | LeadUpdate | VisitSchedule | Unknown

  /** The wire name of an intent. */
  function IntentName(i: Intent): string {
    match i
    case LeadCreate => "LEAD_CREATE"
    case LeadUpdate => "LEAD_UPDATE"
    case VisitSchedule => "VISIT_SCHEDULE"
    case Unknown => "UNKNOWN"
  }

  /** The lead statuses (`VALID_STATUSES`). */
  datatype Status = New | InProgress | FollowUp | Won | Lost

  function StatusName(s: Status): string {
    match s
    case New => "NEW"
    case InProgress => "IN_PROGRESS"
    case FollowUp => "FOLLOW_UP"
    case Won => "WON"
    case Lost => "LOST"
  }

  predicate IsStatusName(w: string) {
    w in {"NEW", "IN_PROGRESS", "FOLLOW_UP", "WON", "LOST"}
  }

  /** The entity record: always the same eight slots, each `None` until an extractor fills it. */
  datatype Entities = Entities(
    name: Option<string>, phone: Option<string>, city: Option<string>, source: Option<string>,
    leadId: Option<string>, visitTime: Option<string>, notes: Option<string>, status: Option<string>)

  const NoEntities := Entities(None, None, None, None, None, None, None, None)
}
