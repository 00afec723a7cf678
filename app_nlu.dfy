/** The single-intent front end of the bot service: `classify_intent` picks one
    intent by a fixed priority of keyword phrases, and `extract_entities` fills
    the eight entity slots with first-match-wins pattern cascades chosen by that
    intent. */
module AppNlu {
  import opened Text
  import opened Scan
  import opened Domain

  // ---------------------------------------------------------------------------
  // Classification

  const CreatePhrases: seq<string> := ["add a new lead", "add lead", "create lead", "new lead"]
  const VisitPhrases: seq<string> := ["schedule a visit", "schedule visit", "fix a site visit", "fix a visit"]
  const UpdatePhrases: seq<string> := ["update lead", "mark lead", "set lead", "change lead"]

  datatype Classification = Classification(intent: Intent, confidence: real)

  /** Visit phrases beat update phrases, which beat create phrases; all matching is on
      the lower-cased transcript. */
  function Classify(t: string): (c: Classification)
    ensures c.intent == VisitSchedule <==> AnyOccurs(VisitPhrases, Lower(t))
    ensures c.intent == LeadUpdate <==>
              !AnyOccurs(VisitPhrases, Lower(t)) && AnyOccurs(UpdatePhrases, Lower(t))
    ensures c.intent == LeadCreate <==>
              !AnyOccurs(VisitPhrases, Lower(t)) && !AnyOccurs(UpdatePhrases, Lower(t))
              && AnyOccurs(CreatePhrases, Lower(t))
    ensures c.confidence == (if c.intent == Unknown then 0.5 else 0.95)
  {
    var s := Lower(t);
    if AnyOccurs(VisitPhrases, s) then Classification(VisitSchedule, 0.95)
    else if AnyOccurs(UpdatePhrases, s) then Classification(LeadUpdate, 0.95)
    else if AnyOccurs(CreatePhrases, s) then Classification(LeadCreate, 0.95)
    else Classification(Unknown, 0.5)
  }

  /** Upper and lower case are classified alike. */
  lemma ClassifyIgnoresCase(t: string)
    ensures Classify(Lower(t)) == Classify(t)
  {
    LowerIdempotent(t);
  }


  // ---------------------------------------------------------------------------
  // The patterns (all searched with `re.IGNORECASE`)

  predicate ColonOrSpace(c: char) { c == ':' || IsSpace(c) }
  predicate PhoneChar(c: char) { IsDigit(c) || IsSpace(c) || c == '-' || c == '+' }
  /** What `re.sub(r'[\s\-+]', '', ...)` keeps. */
  predicate NotPhoneJunk(c: char) { !(IsSpace(c) || c == '-' || c == '+') }
  predicate HexOrDash(c: char) { IsHexDigit(c) || c == '-' }

  /** `(?:\s+from|\s+phone|\s+,|\s+contact|$)` after a name. */
  predicate NameEnd(t: string, p: nat) {
    SpacesThen(t, p, "from") || SpacesThen(t, p, "phone") || SpacesThen(t, p, ",")
    || SpacesThen(t, p, "contact") || EndAnchor(t, p)
  }

  /** `(?:\s+notes|$)` after a visit time. */
  predicate TimeEnd(t: string, p: nat) {
    SpacesThen(t, p, "notes") || EndAnchor(t, p)
  }

  /** `(?:lead[:\s]+)([A-Za-z\s]+?)` then a name end. */
  const LeadName := Phrase(Shape(["lead"], ColonOrSpace, 1, LetterOrSpace, 1, None, true, NameEnd))
  /** `(?:name\s+)([A-Za-z\s]+?)` then a name end. */
  const NameWord := Phrase(Shape(["name"], IsSpace, 1, LetterOrSpace, 1, None, true, NameEnd))
  const NamePatterns: seq<Pattern> := [LeadName, NameWord]

  /** `(?:phone|contact)[:\s]*([0-9\s\-+]+)`. */
  const LabelledPhone := Phrase(Shape(["phone", "contact"], ColonOrSpace, 0, PhoneChar, 1, None, false, Anything))
  /** `(\d{2}\s*\d{3}\s*\d{2}\s*\d{3})`. */
  const GroupedPhone := SpacedDigits([2, 3, 2, 3])
  /** `(\d{5}\-\d{5})`. */
  const HyphenPhone := Template(Repeat('#', 5) + "-" + Repeat('#', 5), "")
  /** `(\d{10})`. */
  const BarePhone := Template(Repeat('#', 10), "")
  const PhonePatterns: seq<Pattern> := [LabelledPhone, GroupedPhone, HyphenPhone, BarePhone]

  /** `from\s+([A-Za-z]+)`, then `city\s+([A-Za-z]+)`. */
  const FromCity := Phrase(Shape(["from"], IsSpace, 1, IsLetter, 1, None, false, Anything))
  const CityWord := Phrase(Shape(["city"], IsSpace, 1, IsLetter, 1, None, false, Anything))
  const CityPatterns: seq<Pattern> := [FromCity, CityWord]

  /** `source\s+([A-Za-z]+)`. */
  const SourceWord := Phrase(Shape(["source"], IsSpace, 1, IsLetter, 1, None, false, Anything))

  /** `lead\s+([a-f0-9\-]{8,})`, then `lead\s+([a-f0-9]{8})`. */
  const LongLeadId := Phrase(Shape(["lead"], IsSpace, 1, HexOrDash, 8, None, false, Anything))
  const ShortLeadId := Phrase(Shape(["lead"], IsSpace, 1, IsHexDigit, 8, Some(8), false, Anything))
  const LeadIdPatterns: seq<Pattern> := [LongLeadId, ShortLeadId]

  /** `notes[:\s]+(.+)`. */
  const NotesText := Phrase(Shape(["notes"], ColonOrSpace, 1, NotNewline, 1, None, false, Anything))

  /** `at\s+(.+?)(?:\s+notes|$)`. */
  const AtTime := Phrase(Shape(["at"], IsSpace, 1, NotNewline, 1, None, true, TimeEnd))

  // ---------------------------------------------------------------------------
  // Extraction, as a specification

  /** `re.sub(r'[\s\-+]', '', g)`. */
  function CleanPhone(g: string): string {
    Keep(g, NotPhoneJunk)
  }

  function NameOf(t: string): Option<string> {
    match Captured(NamePatterns, t)
    case Some(g) => Some(Strip(g))
    case None => None
  }

  function PhoneOf(t: string): Option<string> {
    match Captured(PhonePatterns, t)
    case Some(g) => Some(CleanPhone(g))
    case None => None
  }

  /** The status words, checked on the lower-cased transcript in a fixed order. */
  function StatusOf(t: string): (r: Option<string>)
    ensures r.Some? ==> IsStatusName(r.value)
    ensures r == Some("IN_PROGRESS") <==> Occurs("in progress", Lower(t)) || Occurs("in_progress", Lower(t))
    ensures r == Some("WON") <==>
              && !Occurs("in progress", Lower(t)) && !Occurs("in_progress", Lower(t))
              && Occurs("won", Lower(t))
    ensures r == Some("LOST") <==>
              && !Occurs("in progress", Lower(t)) && !Occurs("in_progress", Lower(t))
              && !Occurs("won", Lower(t)) && Occurs("lost", Lower(t))
    ensures r == Some("FOLLOW_UP") <==>
              && !Occurs("in progress", Lower(t)) && !Occurs("in_progress", Lower(t))
              && !Occurs("won", Lower(t)) && !Occurs("lost", Lower(t))
              && (Occurs("follow_up", Lower(t)) || Occurs("follow up", Lower(t)))
    ensures r == Some("NEW") <==>
              && !Occurs("in progress", Lower(t)) && !Occurs("in_progress", Lower(t))
              && !Occurs("won", Lower(t)) && !Occurs("lost", Lower(t))
              && !Occurs("follow_up", Lower(t)) && !Occurs("follow up", Lower(t))
              && Occurs("new", Lower(t))
    ensures r.None? <==>
              && !Occurs("in progress", Lower(t)) && !Occurs("in_progress", Lower(t))
              && !Occurs("won", Lower(t)) && !Occurs("lost", Lower(t))
              && !Occurs("follow_up", Lower(t)) && !Occurs("follow up", Lower(t))
              && !Occurs("new", Lower(t))
  {
    var s := Lower(t);
    if Occurs("in progress", s) || Occurs("in_progress", s) then Some(StatusName(InProgress))
    else if Occurs("won", s) then Some(StatusName(Won))
    else if Occurs("lost", s) then Some(StatusName(Lost))
    else if Occurs("follow_up", s) || Occurs("follow up", s) then Some(StatusName(FollowUp))
    else if Occurs("new", s) then Some(StatusName(New))
    else None
  }

  function NotesOf(t: string): Option<string> {
    match Searched(NotesText, t)
    case Some(g) => Some(Strip(g))
    case None => None
  }

  /** The stripped time phrase after "at", as `dp` renders it, or as written when `dp`
      cannot parse it (`dp` stands for `dateparser.parse(...).isoformat()`). */
  function VisitTimeOf(t: string, dp: string -> Option<string>): Option<string> {
    match Searched(AtTime, t)
    case Some(g) =>
      var s := Strip(g);
      (match dp(s) case Some(iso) => Some(iso) case None => Some(s))
    case None => None
  }

  /** The entities `extract_entities(t, intent)` returns: each intent fills only its own slots. */
  function EntitiesOf(t: string, intent: Intent, dp: string -> Option<string>): (e: Entities)
    ensures intent == Unknown ==> e == NoEntities
    ensures intent == LeadCreate ==>
              e.leadId.None? && e.visitTime.None? && e.notes.None? && e.status.None?
    ensures intent == LeadUpdate ==>
              e.name.None? && e.phone.None? && e.city.None? && e.source.None? && e.visitTime.None?
    ensures intent == VisitSchedule ==>
              e.name.None? && e.phone.None? && e.city.None? && e.source.None?
              && e.notes.None? && e.status.None?
  {
    match intent
    case LeadCreate =>
      NoEntities.(name := NameOf(t), phone := PhoneOf(t), city := Captured(CityPatterns, t),
                  source := Searched(SourceWord, t))
    case LeadUpdate =>
      NoEntities.(leadId := Captured(LeadIdPatterns, t), status := StatusOf(t), notes := NotesOf(t))
    case VisitSchedule =>
      NoEntities.(leadId := Captured(LeadIdPatterns, t), visitTime := VisitTimeOf(t, dp))
    case Unknown => NoEntities
  }

  // ---------------------------------------------------------------------------
  // What the extracted slots look like

  /** A stored phone holds digits only; unless it came from the labelled pattern, exactly ten. */
  lemma PhoneDigits(t: string)
    requires PhoneOf(t).Some?
    ensures AllDigits(PhoneOf(t).value)
    ensures Search(LabelledPhone, t).None? ==> |PhoneOf(t).value| == 10
  {
    var f := Cascade(PhonePatterns, t).value;
    if f.index == 0 {
      LabelledDigits(t, f.hit);
    } else if f.index == 1 {
      GroupedDigits(t, f.hit);
    } else if f.index == 2 {
      HyphenDigits(t, f.hit);
    } else {
      BareDigits(t, f.hit);
    }
  }

  lemma LabelledDigits(t: string, h: Hit)
    requires Search(LabelledPhone, t) == Some(h)
    ensures h.group.start <= h.group.end <= |t| && AllDigits(CleanPhone(Group(t, h)))
  {
    PhraseGroup(LabelledPhone.shape, t, h);
    var g := Group(t, h);
    KeepFrom(g, NotPhoneJunk);
  }

  lemma GroupedDigits(t: string, h: Hit)
    requires Search(GroupedPhone, t) == Some(h)
    ensures h.group.start <= h.group.end <= |t|
    ensures AllDigits(CleanPhone(Group(t, h))) && |CleanPhone(Group(t, h))| == 10
  {
    SpacedHit([2, 3, 2, 3], t, h);
    SpacedClean(t, h.at, h.group.end);
  }

  /** Spaced digit blocks lose only their spaces. */
  lemma SpacedClean(t: string, i: nat, e: nat)
    requires i <= e <= |t| && AllIn(t, i, e, DigitOrSpace)
    ensures CleanPhone(t[i..e]) == Keep(t[i..e], IsDigit) && AllDigits(CleanPhone(t[i..e]))
  {
    var g := t[i..e];
    assert forall k :: 0 <= k < |g| ==> g[k] == t[i + k];
    KeepAgree(g, NotPhoneJunk, IsDigit);
    KeepFrom(g, IsDigit);
  }

  /** The hyphenated form loses only its hyphen. */
  lemma HyphenDigits(t: string, h: Hit)
    requires Search(HyphenPhone, t) == Some(h)
    ensures h.group.start <= h.group.end <= |t|
    ensures AllDigits(CleanPhone(Group(t, h))) && |CleanPhone(Group(t, h))| == 10
  {
    TemplateHit(HyphenPhone.fixed, "", t, h);
    HyphenSlice(t, h.at);
  }

  lemma HyphenSlice(t: string, i: nat)
    requires FitsAt(t, i, HyphenPhone.fixed)
    ensures AllDigits(CleanPhone(t[i..i + 11])) && |CleanPhone(t[i..i + 11])| == 10
  {
    var tpl := HyphenPhone.fixed;
    TemplateDigits(t, i, tpl, 0, 5);
    TemplateDigits(t, i, tpl, 6, 11);
    assert TemplateChar(tpl[5], t[i + 5]);
    HyphenClean(t[i..i + 5], t[i + 5], t[i + 6..i + 11]);
    assert t[i..i + 11] == t[i..i + 5] + [t[i + 5]] + t[i + 6..i + 11];
  }

  lemma HyphenClean(a: string, c: char, b: string)
    requires AllDigits(a) && AllDigits(b) && c == '-'
    ensures CleanPhone(a + [c] + b) == a + b
  {
    var ac := a + [c];
    assert Keep(ac, NotPhoneJunk) == a by {
      KeepAppend(a, [c], NotPhoneJunk);
      DigitsClean(a);
      KeepNone([c], NotPhoneJunk);
    }
    KeepAppend(ac, b, NotPhoneJunk);
    DigitsClean(b);
  }

  /** Digits survive phone cleaning untouched. */
  lemma DigitsClean(s: string)
    requires AllDigits(s)
    ensures CleanPhone(s) == s
  {
    assert forall k :: 0 <= k < |s| ==> NotPhoneJunk(s[k]);
    KeepAll(s, NotPhoneJunk);
  }

  lemma BareDigits(t: string, h: Hit)
    requires Search(BarePhone, t) == Some(h)
    ensures h.group == Span(h.at, h.at + 10) && h.at + 10 <= |t| && AllIn(t, h.at, h.at + 10, IsDigit)
    ensures AllDigits(CleanPhone(Group(t, h))) && |CleanPhone(Group(t, h))| == 10
  {
    var i := h.at;
    TemplateHit(Repeat('#', 10), "", t, h);
    TemplateDigits(t, i, Repeat('#', 10), 0, 10);
    var g := t[i..i + 10];
    assert forall k :: 0 <= k < |g| ==> g[k] == t[i + k] && NotPhoneJunk(g[k]);
    KeepAll(g, NotPhoneJunk);
  }

  /** Ten digits in a row also read as `\d{2}\s*\d{3}\s*\d{2}\s*\d{3}`. */
  lemma TenDigitsGrouped(t: string, i: nat)
    requires i + 10 <= |t| && AllIn(t, i, i + 10, IsDigit)
    ensures BlocksEnd(t, i, [2, 3, 2, 3]) == Some(i + 10)
  {
    var bs: seq<nat> := [2, 3, 2, 3];
    assert Sum(bs) == 10 by {
      assert bs[1..] == [3, 2, 3] && bs[1..][1..] == [2, 3] && bs[1..][1..][1..] == [3];
    }
    UnbrokenBlocks(t, i, bs);
  }

  /** The bare ten-digit pattern is never the one that fires: wherever it matches, the
      grouped pattern before it matches too. */
  lemma BarePhoneUnreachable(t: string)
    ensures Cascade(PhonePatterns, t).Some? ==> Cascade(PhonePatterns, t).value.index < 3
  {
    var c := Cascade(PhonePatterns, t);
    if c.Some? && c.value.index == 3 {
      var h := c.value.hit;
      BareDigits(t, h);
      TenDigitsGrouped(t, h.at);
      SearchFinds(GroupedPhone, t, h.at);
      CascadeReaches(PhonePatterns, t, 1);
      assert false;
    }
  }

  /** The eight-hex-digit lead id pattern is never the one that fires: the longer pattern
      before it matches wherever it does. */
  lemma ShortLeadIdUnreachable(t: string)
    ensures Cascade(LeadIdPatterns, t).Some? ==> Cascade(LeadIdPatterns, t).value.index == 0
  {
    var c := Cascade(LeadIdPatterns, t);
    if c.Some? && c.value.index == 1 {
      var h := c.value.hit;
      ShortHit(t, h);
      LongMatches(t, h.at, h.group.start);
      SearchFinds(LongLeadId, t, h.at);
      assert false;
    }
  }

  lemma ShortHit(t: string, h: Hit)
    requires Search(ShortLeadId, t) == Some(h)
    ensures KeywordAt(t, h.at, "lead") && h.at + 5 <= h.group.start && h.group.start + 8 <= |t|
    ensures AllIn(t, h.at + 4, h.group.start, IsSpace) && AllIn(t, h.group.start, h.group.start + 8, IsHexDigit)
  {
    SearchFits(ShortLeadId, t);
  }

  lemma LongMatches(t: string, i: nat, g: nat)
    requires KeywordAt(t, i, "lead") && i + 5 <= g && g + 8 <= |t|
    requires AllIn(t, i + 4, g, IsSpace) && AllIn(t, g, g + 8, IsHexDigit)
    ensures MatchAt(LongLeadId, t, i).Some?
  {
    var j := i + 4;
    RunStops(t, j, g, IsSpace);
    var m := g - j;
    RunAtLeast(t, g, 8, HexOrDash);
    var sh := LongLeadId.shape;
    assert GroupEnd(sh, t, g).Some?;
    assert SepFrom(sh, t, j, m).Some?;
    assert Alternatives(sh, t, i)[0].Some?;
  }

  /** A run that starts with `n` characters of a class is at least `n` long. */
  lemma {:induction false} RunAtLeast(t: string, j: nat, n: nat, cls: char -> bool)
    requires j + n <= |t| && forall k :: j <= k < j + n ==> cls(t[k])
    ensures RunLength(t, j, cls) >= n
    decreases n
  {
    if n > 0 {
      RunAtLeast(t, j + 1, n - 1, cls);
    }
  }

  /** An extracted name is letters and inner spaces, with no whitespace at either end. */
  lemma NameShape(t: string)
    requires NameOf(t).Some?
    ensures forall k :: 0 <= k < |NameOf(t).value| ==> LetterOrSpace(NameOf(t).value[k])
    ensures NameOf(t).value == [] || (!IsSpace(NameOf(t).value[0]) && !IsSpace(NameOf(t).value[|NameOf(t).value| - 1]))
  {
    NamePhrases();
    CapturedIn(NamePatterns, t, LetterOrSpace, 1);
    StripWithin(Captured(NamePatterns, t).value, LetterOrSpace);
  }

  /** An extracted lead id is at least eight hex digits and hyphens. */
  lemma LeadIdShape(t: string)
    requires Captured(LeadIdPatterns, t).Some?
    ensures |Captured(LeadIdPatterns, t).value| >= 8
    ensures forall k :: 0 <= k < |Captured(LeadIdPatterns, t).value| ==>
              HexOrDash(Captured(LeadIdPatterns, t).value[k])
  {
    ShortLeadIdUnreachable(t);
    PhraseGroup(LongLeadId.shape, t, Cascade(LeadIdPatterns, t).value.hit);
  }

  /** An extracted city is a non-empty run of letters. */
  lemma CityShape(t: string)
    requires Captured(CityPatterns, t).Some?
    ensures |Captured(CityPatterns, t).value| >= 1
    ensures forall k :: 0 <= k < |Captured(CityPatterns, t).value| ==> IsLetter(Captured(CityPatterns, t).value[k])
  {
    CityPhrases();
    CapturedIn(CityPatterns, t, IsLetter, 1);
  }

  lemma NamePhrases()
    ensures PhrasesOf(NamePatterns, LetterOrSpace, 1)
  {
  }

  lemma CityPhrases()
    ensures PhrasesOf(CityPatterns, IsLetter, 1)
  {
  }

  // ---------------------------------------------------------------------------
  // Extraction, as the source performs it

  /** `extract_entities`: the slots are filled one cascade at a time. */
  method ExtractEntities(t: string, intent: Intent, dp: string -> Option<string>) returns (e: Entities)
    ensures e == EntitiesOf(t, intent, dp)
  {
    match intent
    case LeadCreate => e := ExtractLead(t);
    case LeadUpdate => e := ExtractUpdate(t);
    case VisitSchedule => e := ExtractVisit(t, dp);
    case Unknown => e := NoEntities;
  }

  method ExtractLead(t: string) returns (e: Entities)
    ensures e == NoEntities.(name := NameOf(t), phone := PhoneOf(t), city := Captured(CityPatterns, t),
                             source := Searched(SourceWord, t))
  {
    e := NoEntities;
    var name := FirstMatch(NamePatterns, t);
    if name.Some? {
      e := e.(name := Some(Strip(Group(t, name.value.hit))));
    }
    var phone := FirstMatch(PhonePatterns, t);
    if phone.Some? {
      e := e.(phone := Some(CleanPhone(Group(t, phone.value.hit))));
    }
    var city := FirstMatch(CityPatterns, t);
    if city.Some? {
      e := e.(city := Some(Group(t, city.value.hit)));
    }
    var source := Search(SourceWord, t);
    if source.Some? {
      e := e.(source := Some(Group(t, source.value)));
    }
  }

  method ExtractUpdate(t: string) returns (e: Entities)
    ensures e == NoEntities.(leadId := Captured(LeadIdPatterns, t), status := StatusOf(t), notes := NotesOf(t))
  {
    e := NoEntities;
    var id := FirstMatch(LeadIdPatterns, t);
    if id.Some? {
      e := e.(leadId := Some(Group(t, id.value.hit)));
    }
    e := e.(status := StatusOf(t));
    var notes := Search(NotesText, t);
    if notes.Some? {
      e := e.(notes := Some(Strip(Group(t, notes.value))));
    }
  }

  method ExtractVisit(t: string, dp: string -> Option<string>) returns (e: Entities)
    ensures e == NoEntities.(leadId := Captured(LeadIdPatterns, t), visitTime := VisitTimeOf(t, dp))
  {
    e := NoEntities;
    var id := FirstMatch(LeadIdPatterns, t);
    if id.Some? {
      e := e.(leadId := Some(Group(t, id.value.hit)));
    }
    var at := Search(AtTime, t);
    if at.Some? {
      var s := Strip(Group(t, at.value));
      var parsed := dp(s);
      if parsed.Some? {
        e := e.(visitTime := parsed);
      } else {
        e := e.(visitTime := Some(s));
      }
    }
  }
}
