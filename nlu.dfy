/** The multi-intent NLU front end (`bot/nlu.py`): phone normalisation, date
    parsing, extraction of every entity slot from a stripped transcript, and a
    classifier that reports every intent it recognises, in a fixed order. */
module Nlu {
  import opened Text
  import opened Scan
  import opened Domain

  // ---------------------------------------------------------------------------
  // Phones and dates

  /** `normalize_phone`: the last ten of the digits of `raw`, when it has ten or more. */
  function NormalizePhone(raw: string): (r: Option<string>)
    ensures r.None? <==> |Keep(raw, IsDigit)| < 10
    ensures r.Some? ==> |r.value| == 10 && AllDigits(r.value)
    ensures r.Some? ==> Keep(raw, IsDigit) == Keep(raw, IsDigit)[..|Keep(raw, IsDigit)| - 10] + r.value
  {
    if raw == [] then None
    else
      var digits := Keep(raw, IsDigit);
      KeepFrom(raw, IsDigit);
      if |digits| >= 10 then Some(digits[|digits| - 10..]) else None
  }

  /** A normalised phone normalises to itself. */
  lemma NormalizeIdempotent(raw: string)
    requires NormalizePhone(raw).Some?
    ensures NormalizePhone(NormalizePhone(raw).value) == NormalizePhone(raw)
  {
    var p := NormalizePhone(raw).value;
    KeepAll(p, IsDigit);
    assert p[|p| - 10..] == p;
  }

  /** `\d{4}-\d{2}-\d{2}T\d{2}:\d{2}:\d{2}` and the optional `[+-]\d{2}:\d{2}`. */
  const IsoTemplate := Repeat('#', 4) + "-" + Repeat('#', 2) + "-" + Repeat('#', 2) + "T"
                       + Repeat('#', 2) + ":" + Repeat('#', 2) + ":" + Repeat('#', 2)
  const IsoOffset := "~" + Repeat('#', 2) + ":" + Repeat('#', 2)
  const IsoStamp := Template(IsoTemplate, IsoOffset)

  /** `parse_datetime`: what `dp` makes of the text (it stands for
      `dateparser.parse(...).isoformat()`), else the first ISO timestamp written in it. */
  function ParseDatetime(text: string, dp: string -> Option<string>): (r: Option<string>)
    ensures dp(text).Some? ==> r == dp(text)
    ensures r.None? <==> dp(text).None? && forall k :: 0 <= k <= |text| ==> !FitsAt(text, k, IsoTemplate)
  {
    match dp(text)
    case Some(iso) => Some(iso)
    case None =>
      assert forall k :: 0 <= k <= |text| ==>
               (MatchAt(IsoStamp, text, k).None? <==> !FitsAt(text, k, IsoTemplate));
      Searched(IsoStamp, text)
  }

  /** Without a parse, the result is an ISO timestamp copied from the text, with
      its offset exactly when one is written right after it, at the leftmost position
      where a timestamp is written. */
  lemma IsoFallback(text: string, dp: string -> Option<string>)
    requires dp(text).None? && ParseDatetime(text, dp).Some?
    ensures var v := ParseDatetime(text, dp).value;
            (|v| == 19 || |v| == 25) && AllDigits(v[..4]) && v[4] == '-' && v[10] == 'T' && v[13] == ':'
    ensures var v := ParseDatetime(text, dp).value;
            exists p: nat :: LiteralAt(text, p, v) && FitsAt(text, p, IsoTemplate)
                             && (|v| == 25 <==> FitsAt(text, p + 19, IsoOffset))
                             && forall k :: 0 <= k < p ==> !FitsAt(text, k, IsoTemplate)
  {
    var h := Search(IsoStamp, text).value;
    TemplateHit(IsoTemplate, IsoOffset, text, h);
    IsoSlice(text, h.at, h.group.end);
    assert LiteralAt(text, h.at, ParseDatetime(text, dp).value);
    forall k | 0 <= k < h.at
      ensures !FitsAt(text, k, IsoTemplate)
    {
      assert MatchAt(IsoStamp, text, k).None?;
    }
  }

  lemma IsoSlice(t: string, i: nat, e: nat)
    requires FitsAt(t, i, IsoTemplate) && (e == i + 19 || e == i + 25) && e <= |t|
    ensures var v := t[i..e];
            AllDigits(v[..4]) && v[4] == '-' && v[10] == 'T' && v[13] == ':'
  {
    TemplateDigits(t, i, IsoTemplate, 0, 4);
    assert TemplateChar(IsoTemplate[4], t[i + 4]) && TemplateChar(IsoTemplate[10], t[i + 10])
           && TemplateChar(IsoTemplate[13], t[i + 13]);
    var v := t[i..e];
    assert forall k :: 0 <= k < 4 ==> v[..4][k] == t[i + k];
  }

  // ---------------------------------------------------------------------------
  // The patterns

  /** `[0-9a-fA-F]{8}-[0-9a-fA-F]{4}-[0-9a-fA-F]{4}-[0-9a-fA-F]{4}-[0-9a-fA-F]{12}`. */
  const UuidTemplate := Repeat('%', 8) + "-" + Repeat('%', 4) + "-" + Repeat('%', 4) + "-"
                        + Repeat('%', 4) + "-" + Repeat('%', 12)
  const Uuid := Template(UuidTemplate, "")

  predicate AlnumOrSpace(c: char) { IsLetter(c) || IsDigit(c) || IsSpace(c) }

  /** `(?:,| phone| contact|$|\.)`, ignoring case. */
  predicate CityTail(t: string, p: nat) {
    (p < |t| && (t[p] == ',' || t[p] == '.')) || KeywordAt(t, p, " phone") || KeywordAt(t, p, " contact")
    || EndAnchor(t, p)
  }

  /** `(?:from|,| phone| contact|$|\.)`, ignoring case. */
  predicate NameTail(t: string, p: nat) {
    KeywordAt(t, p, "from") || CityTail(t, p)
  }

  /** `source\s+([A-Za-z0-9\s]+)`. */
  const SourcePhrase := Phrase(Shape(["source"], IsSpace, 1, AlnumOrSpace, 1, None, false, Anything))

  /** `(?:from|in)\s+([A-Za-z\s]+?)` then a city tail. */
  const CityPhrase := Phrase(Shape(["from", "in"], IsSpace, 1, LetterOrSpace, 1, None, true, CityTail))

  /** `(?:lead[:]?|name[:]?|add a new lead[:]?|create lead[:]?)[\s\-]*([A-Za-z\s]{2,60}?)`
      then a name tail; each `[:]?` is tried with the colon first. */
  const NamePhrase := Phrase(Shape(
    ["lead:", "lead", "name:", "name", "add a new lead:", "add a new lead", "create lead:", "create lead"],
    SpaceOrDash, 0, LetterOrSpace, 2, Some(60), true, NameTail))

  // ---------------------------------------------------------------------------
  // Slots, as a specification (`t` is the stripped transcript)

  function PhoneIn(t: string): Option<string> {
    match Searched(Mobile, t)
    case Some(g) => NormalizePhone(g)
    case None => None
  }

  function LeadIdIn(t: string): Option<string> {
    Searched(Uuid, t)
  }

  /** The source, stripped of whitespace and then of `.` and `,`. */
  function SourceIn(t: string): Option<string> {
    match Searched(SourcePhrase, t)
    case Some(g) => Some(StripChars(Strip(g), {'.', ','}))
    case None => None
  }

  function CityIn(t: string): Option<string> {
    match Searched(CityPhrase, t)
    case Some(g) => Some(Strip(g))
    case None => None
  }

  /** `re.sub(r"^(a new|new)\s+", "", s, flags=re.IGNORECASE)`. */
  function DropNew(s: string): (r: string)
    ensures |r| <= |s| && r == s[|s| - |r|..]
    ensures r != s <==>
              (KeywordAt(s, 0, "a new") && 5 < |s| && IsSpace(s[5]))
              || (KeywordAt(s, 0, "new") && 3 < |s| && IsSpace(s[3]))
    ensures r != s ==> r == [] || !IsSpace(r[0])
    ensures r != s ==>
              var n := if KeywordAt(s, 0, "a new") then 5 else 3;
              n < |s| - |r| && forall k :: n <= k < |s| - |r| ==> IsSpace(s[k])
  {
    if KeywordAt(s, 0, "a new") && RunLength(s, 5, IsSpace) > 0 then s[5 + RunLength(s, 5, IsSpace)..]
    else if KeywordAt(s, 0, "new") && RunLength(s, 3, IsSpace) > 0 then s[3 + RunLength(s, 3, IsSpace)..]
    else s
  }

  /** The candidate of the first name pattern. */
  function LeadNameIn(t: string): Option<string> {
    match Searched(NamePhrase, t)
    case Some(g) => Some(DropNew(Strip(g)))
    case None => None
  }

  /** The name: the first pattern's candidate, unless that is missing or empty; then
      `name` followed by one or two capitalised words, if there is one. */
  function NameIn(t: string): Option<string> {
    var first := LeadNameIn(t);
    if Truthy(first) then first
    else match Searched(CapitalisedName, t)
      case Some(g) => Some(Strip(g))
      case None => first
  }

  function NotesIn(t: string): Option<string> {
    match Searched(NoteMarker, t)
    case Some(g) => Some(Strip(g))
    case None => None
  }

  function VisitTimeIn(t: string, dp: string -> Option<string>): Option<string> {
    var vt := ParseDatetime(t, dp);
    if Truthy(vt) then vt else None
  }

  // ---------------------------------------------------------------------------
  // Statuses

  /** The spelling with a space (`s.replace("_", " ")`), in lower case. */
  function Spaced(s: Status): string {
    match s
    case New => "new"
    case InProgress => "in progress"
    case FollowUp => "follow up"
    case Won => "won"
    case Lost => "lost"
  }

  /** The spelling as written in `VALID_STATUSES`, in lower case. */
  function Underscored(s: Status): string {
    match s
    case New => "new"
    case InProgress => "in_progress"
    case FollowUp => "follow_up"
    case Won => "won"
    case Lost => "lost"
  }

  /** `\bw\b` at `i`, ignoring case, for a word `w` that begins and ends with a letter. */
  predicate WordAt(t: string, i: nat, w: string) {
    KeywordAt(t, i, w)
    && (i == 0 || !IsWordChar(t[i - 1]))
    && (i + |w| == |t| || !IsWordChar(t[i + |w|]))
  }

  /** `re.search(r"\bw\b", t, re.IGNORECASE)`, scanning from position `i`. */
  predicate WordFrom(t: string, w: string, i: nat)
    decreases |t| - i
  {
    i <= |t| && (WordAt(t, i, w) || (i < |t| && WordFrom(t, w, i + 1)))
  }

  /** The scan finds the word exactly when it occurs at some position. */
  lemma {:induction false} WordSomewhere(t: string, w: string, i: nat)
    requires i <= |t|
    ensures WordFrom(t, w, i) <==> exists p :: i <= p <= |t| && WordAt(t, p, w)
    decreases |t| - i
  {
    if !WordAt(t, i, w) && i < |t| {
      WordSomewhere(t, w, i + 1);
    }
  }

  /** The status, spaced or with its underscores, as a whole word. */
  predicate Mentions(t: string, s: Status) {
    WordFrom(t, Spaced(s), 0) || WordFrom(t, Underscored(s), 0)
  }

  /** The order in which the set `VALID_STATUSES` happens to be iterated. */
  predicate Enumerates(order: seq<Status>) {
    |order| == 5 && forall s: Status :: s in order
  }

  /** The per-status test of `extract_entities`, for the text `t`. */
  function Mentioned(t: string): Status -> bool {
    s => Mentions(t, s)
  }

  /** Where in `order` the first status that passes `test` is. */
  function FirstPassing(order: seq<Status>, test: Status -> bool): (r: Option<nat>)
    ensures r.Some? ==> r.value < |order| && test(order[r.value])
    ensures r.Some? ==> forall j :: 0 <= j < r.value ==> !test(order[j])
    ensures r.None? <==> forall k :: 0 <= k < |order| ==> !test(order[k])
  {
    if order == [] then None
    else if test(order[0]) then Some(0)
    else match FirstPassing(order[1..], test)
      case Some(k) => Some(k + 1)
      case None => None
  }

  /** The first status, in iteration order, that the text mentions. */
  function StatusIn(t: string, order: seq<Status>): (r: Option<string>)
    ensures r.Some? ==> IsStatusName(r.value)
  {
    match FirstPassing(order, Mentioned(t))
    case Some(k) => Some(StatusName(order[k]))
    case None => None
  }

  /** A status is set exactly when some status is mentioned, and then it is a mentioned one. */
  lemma StatusMentioned(t: string, order: seq<Status>)
    requires Enumerates(order)
    ensures StatusIn(t, order).None? <==> forall s: Status :: !Mentions(t, s)
    ensures StatusIn(t, order).Some? ==>
              exists k :: 0 <= k < |order| && Mentions(t, order[k]) && StatusIn(t, order).value == StatusName(order[k])
                          && forall j :: 0 <= j < k ==> !Mentions(t, order[j])
  {
    if StatusIn(t, order).None? {
      forall s: Status ensures !Mentions(t, s) {
        assert s in order;
        var k :| 0 <= k < |order| && order[k] == s;
      }
    } else {
      var k := FirstPassing(order, Mentioned(t)).value;
      assert Mentions(t, order[k]) && StatusIn(t, order).value == StatusName(order[k]);
    }
  }

  // ---------------------------------------------------------------------------
  // The entity record

  /** `extract_entities`: every slot filled from the stripped transcript. A phone is ten
      digits, a lead id a UUID written in the transcript, a name or city letters and
      spaces, a source letters, digits and spaces. */
  function EntitiesIn(transcript: string, order: seq<Status>, dp: string -> Option<string>): (e: Entities)
    ensures e.phone.Some? ==> |e.phone.value| == 10 && AllDigits(e.phone.value)
    ensures e.leadId.Some? ==> UuidShaped(e.leadId.value) && Occurs(e.leadId.value, Strip(transcript))
    ensures e.name.Some? ==> forall k :: 0 <= k < |e.name.value| ==> LetterOrSpace(e.name.value[k])
    ensures e.city.Some? ==> forall k :: 0 <= k < |e.city.value| ==> LetterOrSpace(e.city.value[k])
    ensures e.source.Some? ==> forall k :: 0 <= k < |e.source.value| ==> AlnumOrSpace(e.source.value[k])
  {
    var t := Strip(transcript);
    assert PhoneIn(t).Some? ==> |PhoneIn(t).value| == 10 && AllDigits(PhoneIn(t).value) by {
      if PhoneIn(t).Some? { PhoneShaped(t); }
    }
    assert LeadIdIn(t).Some? ==> UuidShaped(LeadIdIn(t).value) && Occurs(LeadIdIn(t).value, t) by {
      if LeadIdIn(t).Some? { LeadIdShaped(t); }
    }
    assert NameIn(t).Some? ==> forall k :: 0 <= k < |NameIn(t).value| ==> LetterOrSpace(NameIn(t).value[k]) by {
      NameFallback(t);
      if LeadNameIn(t).Some? { LeadNameShape(t); }
      if Searched(CapitalisedName, t).Some? { CapitalisedShape(t); }
    }
    assert CityIn(t).Some? ==> forall k :: 0 <= k < |CityIn(t).value| ==> LetterOrSpace(CityIn(t).value[k]) by {
      if CityIn(t).Some? { CityShape(t); }
    }
    assert SourceIn(t).Some? ==> forall k :: 0 <= k < |SourceIn(t).value| ==> AlnumOrSpace(SourceIn(t).value[k]) by {
      if SourceIn(t).Some? { SourceShape(t); }
    }
    Entities(NameIn(t), PhoneIn(t), CityIn(t), SourceIn(t), LeadIdIn(t), VisitTimeIn(t, dp), NotesIn(t),
             StatusIn(t, order))
  }

  /** Eight-four-four-four-twelve hex digits joined by hyphens. */
  predicate UuidShaped(s: string) {
    && |s| == 36
    && (forall k :: 0 <= k < 8 ==> IsHexDigit(s[k])) && s[8] == '-'
    && (forall k :: 9 <= k < 13 ==> IsHexDigit(s[k])) && s[13] == '-'
    && (forall k :: 14 <= k < 18 ==> IsHexDigit(s[k])) && s[18] == '-'
    && (forall k :: 19 <= k < 23 ==> IsHexDigit(s[k])) && s[23] == '-'
    && (forall k :: 24 <= k < 36 ==> IsHexDigit(s[k]))
  }

  /** A lead id is a UUID-shaped stretch of the stripped transcript. */
  lemma LeadIdShaped(t: string)
    requires LeadIdIn(t).Some?
    ensures UuidShaped(LeadIdIn(t).value)
    ensures Occurs(LeadIdIn(t).value, t)
  {
    var h := Search(Uuid, t).value;
    TemplateHit(UuidTemplate, "", t, h);
    UuidSlice(t, h.at);
    assert LiteralAt(t, h.at, LeadIdIn(t).value);
  }

  lemma UuidSlice(t: string, i: nat)
    requires FitsAt(t, i, UuidTemplate)
    ensures UuidShaped(t[i..i + 36])
  {
    var u := UuidTemplate;
    TemplateHex(t, i, u, 0, 8);
    TemplateHex(t, i, u, 9, 13);
    TemplateHex(t, i, u, 14, 18);
    TemplateHex(t, i, u, 19, 23);
    TemplateHex(t, i, u, 24, 36);
    assert TemplateChar(u[8], t[i + 8]) && TemplateChar(u[13], t[i + 13])
           && TemplateChar(u[18], t[i + 18]) && TemplateChar(u[23], t[i + 23]);
    var s := t[i..i + 36];
    assert forall k :: 0 <= k < 36 ==> s[k] == t[i + k];
  }

  /** A phone is exactly ten digits. */
  lemma PhoneShaped(t: string)
    requires PhoneIn(t).Some?
    ensures |PhoneIn(t).value| == 10 && AllDigits(PhoneIn(t).value)
  {
  }

  /** The fallback name pattern is used only when the first one yields nothing usable,
      and what it finds starts with a capital letter. */
  lemma NameFallback(t: string)
    ensures Truthy(LeadNameIn(t)) ==> NameIn(t) == LeadNameIn(t)
    ensures !Truthy(LeadNameIn(t)) && Searched(CapitalisedName, t).None? ==> NameIn(t) == LeadNameIn(t)
    ensures !Truthy(LeadNameIn(t)) && Searched(CapitalisedName, t).Some? ==>
              NameIn(t) == Some(Strip(Searched(CapitalisedName, t).value))
  {
  }

  /** A capitalised name starts with a capital letter and holds only letters and spaces. */
  lemma CapitalisedShape(t: string)
    requires Searched(CapitalisedName, t).Some?
    ensures var n := Strip(Searched(CapitalisedName, t).value);
            |n| >= 1 && IsUpper(n[0]) && forall k :: 0 <= k < |n| ==> LetterOrSpace(n[k])
  {
    var h := Search(CapitalisedName, t).value;
    SearchFits(CapitalisedName, t);
    CapitalisedStrip(t, h.group.start, h.group.end);
  }

  /** A capitalised name has nothing to strip at its start. */
  lemma CapitalisedStrip(t: string, a: nat, b: nat)
    requires a < b <= |t| && IsUpper(t[a]) && AllIn(t, a, b, LetterOrSpace)
    ensures var n := Strip(t[a..b]);
            |n| >= 1 && IsUpper(n[0]) && forall k :: 0 <= k < |n| ==> LetterOrSpace(n[k])
  {
    var g := t[a..b];
    assert g[0] == t[a];
    assert forall k :: 0 <= k < |g| ==> g[k] == t[a + k];
    StripFront(g, 1);
    StripWithin(g, LetterOrSpace);
    assert Strip(g)[0] == Strip(g)[..1][0];
  }

  /** A lead name is letters and spaces, with no whitespace at either end. */
  lemma LeadNameShape(t: string)
    requires LeadNameIn(t).Some?
    ensures forall k :: 0 <= k < |LeadNameIn(t).value| ==> LetterOrSpace(LeadNameIn(t).value[k])
  {
    var h := Search(NamePhrase, t).value;
    PhraseGroup(NamePhrase.shape, t, h);
    DropNewWithin(Group(t, h));
  }

  lemma DropNewWithin(g: string)
    requires forall k :: 0 <= k < |g| ==> LetterOrSpace(g[k])
    ensures forall k :: 0 <= k < |DropNew(Strip(g))| ==> LetterOrSpace(DropNew(Strip(g))[k])
  {
    StripWithin(g, LetterOrSpace);
    var s := Strip(g);
    var r := DropNew(s);
    assert forall k :: 0 <= k < |r| ==> r[k] == s[|s| - |r| + k];
  }

  /** A source is letters, digits and spaces. */
  lemma SourceShape(t: string)
    requires SourceIn(t).Some?
    ensures forall k :: 0 <= k < |SourceIn(t).value| ==> AlnumOrSpace(SourceIn(t).value[k])
  {
    var h := Search(SourcePhrase, t).value;
    PhraseGroup(SourcePhrase.shape, t, h);
    SourceWithin(Group(t, h));
  }

  lemma SourceWithin(g: string)
    requires forall k :: 0 <= k < |g| ==> AlnumOrSpace(g[k])
    ensures forall k :: 0 <= k < |StripChars(Strip(g), {'.', ','})| ==> AlnumOrSpace(StripChars(Strip(g), {'.', ','})[k])
  {
    StripWithin(g, AlnumOrSpace);
    StripCharsWithin(Strip(g), {'.', ','}, AlnumOrSpace);
  }

  /** A city is letters and spaces. */
  lemma CityShape(t: string)
    requires CityIn(t).Some?
    ensures forall k :: 0 <= k < |CityIn(t).value| ==> LetterOrSpace(CityIn(t).value[k])
  {
    var h := Search(CityPhrase, t).value;
    PhraseGroup(CityPhrase.shape, t, h);
    StripWithin(Group(t, h), LetterOrSpace);
  }

  // ---------------------------------------------------------------------------
  // Extraction, step by step

  /** `for s in VALID_STATUSES: if <mentioned>: ...; break`. */
  method FindStatus(t: string, order: seq<Status>) returns (r: Option<nat>)
    ensures r == FirstPassing(order, Mentioned(t))
  {
    r := FindFirst(order, Mentioned(t));
  }

  /** The loop that stops at the first status passing `test`. */
  method FindFirst(order: seq<Status>, test: Status -> bool) returns (r: Option<nat>)
    ensures r == FirstPassing(order, test)
  {
    var k := 0;
    while k < |order|
      invariant 0 <= k <= |order|
      invariant forall j :: 0 <= j < k ==> !test(order[j])
    {
      if test(order[k]) {
        FirstIsFirst(order, test, k);
        return Some(k);
      }
      k := k + 1;
    }
    return None;
  }

  lemma FirstIsFirst(order: seq<Status>, test: Status -> bool, k: nat)
    requires k < |order| && test(order[k]) && forall j :: 0 <= j < k ==> !test(order[j])
    ensures FirstPassing(order, test) == Some(k)
  {
  }

  /** `extract_entities`. */
  method ExtractAll(transcript: string, order: seq<Status>, dp: string -> Option<string>) returns (e: Entities)
    ensures e == EntitiesIn(transcript, order, dp)
  {
    var t := Strip(transcript);
    e := ExtractContact(t);
    e := ExtractName(t, e);
    e := ExtractRest(t, order, dp, e);
  }

  /** The phone, lead id, source and city steps. */
  method ExtractContact(t: string) returns (e: Entities)
    ensures e == NoEntities.(phone := PhoneIn(t), leadId := LeadIdIn(t), source := SourceIn(t), city := CityIn(t))
  {
    e := NoEntities;
    var phone := Search(Mobile, t);
    if phone.Some? {
      e := e.(phone := NormalizePhone(Group(t, phone.value)));
    }
    var uid := Search(Uuid, t);
    if uid.Some? {
      e := e.(leadId := Some(Group(t, uid.value)));
    }
    var m := Search(SourcePhrase, t);
    if m.Some? {
      e := e.(source := Some(StripChars(Strip(Group(t, m.value)), {'.', ','})));
    }
    m := Search(CityPhrase, t);
    if m.Some? {
      e := e.(city := Some(Strip(Group(t, m.value))));
    }
  }

  /** The status, visit time and notes steps. */
  method ExtractRest(t: string, order: seq<Status>, dp: string -> Option<string>, e0: Entities) returns (e: Entities)
    requires e0.status.None? && e0.visitTime.None? && e0.notes.None?
    ensures e == e0.(status := StatusIn(t, order), visitTime := VisitTimeIn(t, dp), notes := NotesIn(t))
  {
    e := e0;
    var s := FindStatus(t, order);
    if s.Some? {
      e := e.(status := Some(StatusName(order[s.value])));
    }
    var vt := ParseDatetime(t, dp);
    if Truthy(vt) {
      e := e.(visitTime := vt);
    }
    var m := Search(NoteMarker, t);
    if m.Some? {
      e := e.(notes := Some(Strip(Group(t, m.value))));
    }
  }

  /** The two name patterns, the second only when the first yields nothing usable. */
  method ExtractName(t: string, e0: Entities) returns (e: Entities)
    requires e0.name.None?
    ensures e == e0.(name := NameIn(t))
  {
    var first := ExtractLeadName(t);
    e := e0.(name := first);
    if !Truthy(first) {
      var c := Search(CapitalisedName, t);
      if c.Some? {
        e := e.(name := Some(Strip(Group(t, c.value))));
      }
    }
  }

  /** The first name pattern, with a leading "a new" or "new" dropped. */
  method ExtractLeadName(t: string) returns (first: Option<string>)
    ensures first == LeadNameIn(t)
  {
    first := None;
    var m := Search(NamePhrase, t);
    if m.Some? {
      first := Some(DropNew(Strip(Group(t, m.value))));
    }
  }

  // ---------------------------------------------------------------------------
  // Classification

  datatype Scored = Scored(intent: Intent, confidence: real)

  const LeadWords: seq<string> := ["create lead", "add a new lead", "add lead", "new lead"]
  const VisitWords: seq<string> := ["schedule", "site visit", "schedule a visit", "fix a site visit"]
  const UpdateWords: seq<string> := ["update lead", "mark lead", "set lead", "change lead", "mark as won"]

  predicate HasIntent(xs: seq<Scored>, i: Intent) {
    exists k :: 0 <= k < |xs| && xs[k].intent == i
  }

  /** The position of an entry in the classifier's fixed order. */
  function Rank(x: Scored): nat {
    match x.intent
    case LeadCreate => if x.confidence == 1.0 then 0 else 3
    case VisitSchedule => 1
    case LeadUpdate => 2
    case Unknown => 4
  }

  /** The entries a classifier list may hold. */
  predicate Listed(x: Scored) {
    x in {Scored(LeadCreate, 1.0), Scored(VisitSchedule, 1.0), Scored(LeadUpdate, 1.0),
          Scored(LeadCreate, 0.7), Scored(Unknown, 0.0)}
  }

  /** The intent list, given which keyword lists occur and whether a phone and a city
      were both found. */
  function Ranked(create: bool, visit: bool, update: bool, fallback: bool): (r: seq<Scored>)
    ensures |r| >= 1
  {
    var kw := (if create then [Scored(LeadCreate, 1.0)] else [])
              + (if visit then [Scored(VisitSchedule, 1.0)] else [])
              + (if update then [Scored(LeadUpdate, 1.0)] else []);
    var all := if fallback && !HasIntent(kw, LeadCreate) then kw + [Scored(LeadCreate, 0.7)] else kw;
    if all == [] then [Scored(Unknown, 0.0)] else all
  }

  /** Each entry is one of the five the classifier knows, each present exactly when its
      trigger holds, in the fixed order. */
  lemma RankedEntries(create: bool, visit: bool, update: bool, fallback: bool)
    ensures var r := Ranked(create, visit, update, fallback);
            && (forall k :: 0 <= k < |r| ==> Listed(r[k]))
            && (forall i, j :: 0 <= i < j < |r| ==> Rank(r[i]) < Rank(r[j]))
            && (Scored(LeadCreate, 1.0) in r <==> create)
            && (Scored(VisitSchedule, 1.0) in r <==> visit)
            && (Scored(LeadUpdate, 1.0) in r <==> update)
            && (Scored(LeadCreate, 0.7) in r <==> fallback && !create)
  {
    var kw := (if create then [Scored(LeadCreate, 1.0)] else [])
              + (if visit then [Scored(VisitSchedule, 1.0)] else [])
              + (if update then [Scored(LeadUpdate, 1.0)] else []);
    assert HasIntent(kw, LeadCreate) <==> create by {
      if create {
        assert kw[0].intent == LeadCreate;
      }
    }
  }

  /** UNKNOWN is reported only alone, when nothing else is. */
  lemma RankedUnknown(create: bool, visit: bool, update: bool, fallback: bool)
    ensures var r := Ranked(create, visit, update, fallback);
            && (HasIntent(r, Unknown) <==> r == [Scored(Unknown, 0.0)])
            && (r == [Scored(Unknown, 0.0)] <==> !create && !visit && !update && !fallback)
  {
    var r := Ranked(create, visit, update, fallback);
    RankedEntries(create, visit, update, fallback);
    if HasIntent(r, Unknown) {
      var k :| 0 <= k < |r| && r[k].intent == Unknown;
      assert Rank(r[k]) == 4;
    }
  }

  /** The list holds at most one LEAD_CREATE. */
  lemma OneCreate(create: bool, visit: bool, update: bool, fallback: bool)
    ensures var r := Ranked(create, visit, update, fallback);
            forall i, j :: 0 <= i < j < |r| && r[i].intent == LeadCreate ==> r[j].intent != LeadCreate
  {
    var r := Ranked(create, visit, update, fallback);
    RankedEntries(create, visit, update, fallback);
    forall i, j | 0 <= i < j < |r| && r[i].intent == LeadCreate
      ensures r[j].intent != LeadCreate
    {
      assert Listed(r[i]) && Listed(r[j]) && Rank(r[i]) < Rank(r[j]);
      assert r[i] in r && r[j] in r;
    }
  }

  /** `classify_intent`, with the phone-and-city fallback read from `extract_entities`. */
  function Intents(transcript: string): (r: seq<Scored>)
    ensures |r| >= 1 && forall k :: 0 <= k < |r| ==> Listed(r[k])
    ensures Scored(LeadCreate, 1.0) in r <==> AnyOccurs(LeadWords, Lower(transcript))
    ensures Scored(VisitSchedule, 1.0) in r <==> AnyOccurs(VisitWords, Lower(transcript))
    ensures Scored(LeadUpdate, 1.0) in r <==> AnyOccurs(UpdateWords, Lower(transcript))
    ensures Scored(LeadCreate, 0.7) in r <==>
              !AnyOccurs(LeadWords, Lower(transcript))
              && Truthy(PhoneIn(Strip(transcript))) && Truthy(CityIn(Strip(transcript)))
  {
    var s := Lower(transcript);
    var t := Strip(transcript);
    RankedEntries(AnyOccurs(LeadWords, s), AnyOccurs(VisitWords, s), AnyOccurs(UpdateWords, s),
                  Truthy(PhoneIn(t)) && Truthy(CityIn(t)));
    Ranked(AnyOccurs(LeadWords, s), AnyOccurs(VisitWords, s), AnyOccurs(UpdateWords, s),
           Truthy(PhoneIn(t)) && Truthy(CityIn(t)))
  }

  /** `classify_intent`. */
  method Classify(transcript: string) returns (intents: seq<Scored>)
    ensures intents == Intents(transcript)
  {
    var s := Lower(transcript);
    var create, visit, update := AnyOccurs(LeadWords, s), AnyOccurs(VisitWords, s), AnyOccurs(UpdateWords, s);
    var ent := ExtractContact(Strip(transcript));
    intents := RankIntents(create, visit, update, Truthy(ent.phone) && Truthy(ent.city));
  }

  /** The list `classify_intent` builds, one append at a time. */
  method RankIntents(create: bool, visit: bool, update: bool, found: bool) returns (intents: seq<Scored>)
    ensures intents == Ranked(create, visit, update, found)
  {
    intents := [];
    if create {
      intents := intents + [Scored(LeadCreate, 1.0)];
    }
    if visit {
      intents := intents + [Scored(VisitSchedule, 1.0)];
    }
    if update {
      intents := intents + [Scored(LeadUpdate, 1.0)];
    }
    assert intents == (if create then [Scored(LeadCreate, 1.0)] else [])
                      + (if visit then [Scored(VisitSchedule, 1.0)] else [])
                      + (if update then [Scored(LeadUpdate, 1.0)] else []);
    assert HasIntent(intents, LeadCreate) <==> create by {
      if create {
        assert intents[0].intent == LeadCreate;
      }
    }
    if found && !HasIntent(intents, LeadCreate) {
      intents := intents + [Scored(LeadCreate, 0.7)];
    }
    if intents == [] {
      intents := [Scored(Unknown, 0.0)];
    }
  }

  /** What `extract` returns: every intent, the first as the primary one, and the entities. */
  datatype Understood = Understood(intents: seq<Scored>, intent: Intent, entities: Entities)

  function Understand(transcript: string, order: seq<Status>, dp: string -> Option<string>): (u: Understood)
    ensures u.intents != [] && u.intent == u.intents[0].intent
  {
    var intents := Intents(transcript);
    Understood(intents, intents[0].intent, EntitiesIn(transcript, order, dp))
  }

  /** The primary intent follows the classifier's order. */
  lemma PrimaryIntent(transcript: string, order: seq<Status>, dp: string -> Option<string>)
    ensures var p := Understand(transcript, order, dp).intent;
            var s := Lower(transcript);
            && (AnyOccurs(LeadWords, s) ==> p == LeadCreate)
            && (!AnyOccurs(LeadWords, s) && AnyOccurs(VisitWords, s) ==> p == VisitSchedule)
            && (!AnyOccurs(LeadWords, s) && !AnyOccurs(VisitWords, s) && AnyOccurs(UpdateWords, s) ==> p == LeadUpdate)
  {
    var s := Lower(transcript);
    var t := Strip(transcript);
    PrimaryRank(AnyOccurs(LeadWords, s), AnyOccurs(VisitWords, s), AnyOccurs(UpdateWords, s),
                Truthy(PhoneIn(t)) && Truthy(CityIn(t)));
  }

  lemma PrimaryRank(create: bool, visit: bool, update: bool, fallback: bool)
    ensures var r := Ranked(create, visit, update, fallback);
            && (create ==> r[0].intent == LeadCreate)
            && (!create && visit ==> r[0].intent == VisitSchedule)
            && (!create && !visit && update ==> r[0].intent == LeadUpdate)
  {
  }

  /** `extract`, without its analytics log. */
  method Extract(transcript: string, order: seq<Status>, dp: string -> Option<string>) returns (u: Understood)
    ensures u == Understand(transcript, order, dp)
  {
    var entities := ExtractAll(transcript, order, dp);
    var intents := Classify(transcript);
    u := Understood(intents, intents[0].intent, entities);
  }
}
