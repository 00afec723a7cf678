/** Recognisers for the handful of regular-expression shapes the two NLU
    front ends use, with Python `re.search` semantics: the leftmost start
    position wins, keyword alternatives are tried in order, a separator run is
    tried longest first, and a capture group is tried shortest first (lazy) or
    longest first (greedy) until what must follow it is found. Keywords are
    matched ignoring ASCII case, as under `re.IGNORECASE`. */
module Scan {
  import opened Text

  /** A capture group `t[start..end]`. */
  datatype Span = Span(start: nat, end: nat)

  /** A successful search: the whole match starts at `at`; `group` is capture group 1
      (or the whole match for patterns without a group). */
  datatype Hit = Hit(at: nat, group: Span)

  /** `(?:kw1|kw2|...)[sep]{sepMin,}([group]{groupMin,groupMax})` followed by `tail`;
      the group is lazy (`+?`) or greedy (`+`). */
  datatype Shape = Shape(
    keywords: seq<string>,
    sep: char -> bool, sepMin: nat,
    group: char -> bool, groupMin: nat, groupMax: Option<nat>, lazy: bool,
    tail: (string, nat) -> bool)

  datatype Pattern =
    | Phrase(shape: Shape)
      /** A fixed-width template ('#' a digit, '%' a hex digit, '~' a sign, anything
          else itself) with an optional greedy suffix template. */
    | Template(fixed: string, optional: string)
      /** `\d{b1}\s*\d{b2}\s*...`: digit blocks with optional whitespace between. */
    | SpacedDigits(blocks: seq<nat>)
      /** `(?:\+91|0)?[\s-]*[6-9]\d[\d\s-]{8,}` (the whole match). */
    | Mobile
      /** `notes?\s*[:\-]\s*(.+)$`, ignoring case. */
    | NoteMarker
      /** `name\s+([A-Z][a-z]+(?:\s+[A-Z][a-z]+)?)`, case-sensitive. */
    | CapitalisedName

  // ---------------------------------------------------------------------------
  // Runs and tails

  predicate AllIn(t: string, a: nat, b: nat, cls: char -> bool)
    requires a <= b <= |t|
  {
    forall k :: a <= k < b ==> cls(t[k])
  }

  /** A run that ends where `cls` first fails. */
  lemma {:induction false} RunStops(t: string, j: nat, g: nat, cls: char -> bool)
    requires j <= g < |t| && AllIn(t, j, g, cls) && !cls(t[g])
    ensures RunLength(t, j, cls) == g - j
    decreases g - j
  {
    if j < g {
      RunStops(t, j + 1, g, cls);
    }
  }

  /** Length of the longest run of `cls` characters starting at `j`. */
  function RunLength(t: string, j: nat, cls: char -> bool): (n: nat)
    requires j <= |t|
    ensures j + n <= |t|
    ensures AllIn(t, j, j + n, cls)
    ensures j + n < |t| ==> !cls(t[j + n])
    decreases |t| - j
  {
    if j < |t| && cls(t[j]) then 1 + RunLength(t, j + 1, cls) else 0
  }

  /** Python's `$` without MULTILINE: the end, or just before a final newline. */
  predicate EndAnchor(t: string, p: nat) {
    p == |t| || (p + 1 == |t| && t[p] == '\n')
  }

  /** `\s+kw`, ignoring case, at `p`. */
  predicate SpacesThen(t: string, p: nat, kw: string) {
    p < |t| && IsSpace(t[p]) && KeywordAt(t, p + RunLength(t, p, IsSpace), kw)
  }

  /** No constraint after the group. */
  predicate Anything(t: string, p: nat) { true }

  predicate NotNewline(c: char) { c != '\n' }

  // ---------------------------------------------------------------------------
  // Keyword, separator, group, tail

  /** The first `Some` of `xs` at index `k` or later, with its index. */
  function FirstSome<T>(xs: seq<Option<T>>, k: nat): (r: Option<(nat, T)>)
    ensures r.Some? ==> k <= r.value.0 < |xs| && xs[r.value.0] == Some(r.value.1)
    ensures r.Some? ==> forall n :: k <= n < r.value.0 ==> xs[n].None?
    ensures r.None? ==> forall n :: k <= n < |xs| ==> xs[n].None?
    decreases |xs| - k
  {
    if k >= |xs| then None
    else match xs[k]
      case Some(x) => Some((k, x))
      case None => FirstSome(xs, k + 1)
  }

  /** Shortest group end in `[g + n, g + hi]` that `tail` accepts. */
  function LazyEnd(t: string, g: nat, n: nat, hi: nat, tail: (string, nat) -> bool): (e: Option<nat>)
    ensures e.Some? ==> g + n <= e.value <= g + hi && tail(t, e.value)
    ensures e.Some? ==> forall k :: g + n <= k < e.value ==> !tail(t, k)
    ensures e.None? ==> forall k :: g + n <= k <= g + hi ==> !tail(t, k)
    decreases hi - n
  {
    if n > hi then None
    else if tail(t, g + n) then Some(g + n)
    else LazyEnd(t, g, n + 1, hi, tail)
  }

  /** Longest group end in `[g + lo, g + n]` that `tail` accepts. */
  function GreedyEnd(t: string, g: nat, lo: nat, n: nat, tail: (string, nat) -> bool): (e: Option<nat>)
    ensures e.Some? ==> g + lo <= e.value <= g + n && tail(t, e.value)
    ensures e.Some? ==> forall k :: e.value < k <= g + n ==> !tail(t, k)
    ensures e.None? ==> forall k :: g + lo <= k <= g + n ==> !tail(t, k)
    decreases n
  {
    if n < lo then None
    else if tail(t, g + n) then Some(g + n)
    else if n == 0 then None
    else GreedyEnd(t, g, lo, n - 1, tail)
  }

  function Cap(n: nat, max: Option<nat>): (r: nat)
    ensures r <= n && (max.Some? ==> r <= max.value)
  {
    match max
    case Some(m) => if m < n then m else n
    case None => n
  }

  /** Where the group that starts at `g` ends, if it can. */
  function GroupEnd(sh: Shape, t: string, g: nat): (e: Option<nat>)
    requires g <= |t|
    ensures e.Some? ==> g + sh.groupMin <= e.value <= |t| && AllIn(t, g, e.value, sh.group)
    ensures e.Some? ==> sh.tail(t, e.value)
    ensures e.Some? && sh.groupMax.Some? ==> e.value - g <= sh.groupMax.value
  {
    var hi := Cap(RunLength(t, g, sh.group), sh.groupMax);
    if sh.lazy then LazyEnd(t, g, sh.groupMin, hi, sh.tail)
    else GreedyEnd(t, g, sh.groupMin, hi, sh.tail)
  }

  /** Tries separator lengths `len`, `len - 1`, ..., `sh.sepMin`. */
  function SepFrom(sh: Shape, t: string, j: nat, len: nat): (r: Option<Span>)
    requires j + len <= |t| && sh.sepMin <= len
    requires AllIn(t, j, j + len, sh.sep)
    ensures r.Some? ==> j + sh.sepMin <= r.value.start <= j + len && AllIn(t, j, r.value.start, sh.sep)
    ensures r.Some? ==> GroupEnd(sh, t, r.value.start) == Some(r.value.end)
    decreases len
  {
    match GroupEnd(sh, t, j + len)
    case Some(e) => Some(Span(j + len, e))
    case None => if len > sh.sepMin then SepFrom(sh, t, j, len - 1) else None
  }

  /** The separator and group of `sh`, starting right after a keyword at `j`. */
  function BodyAt(sh: Shape, t: string, j: nat): (r: Option<Span>)
    requires j <= |t|
    ensures r.Some? ==> j + sh.sepMin <= r.value.start <= |t| && AllIn(t, j, r.value.start, sh.sep)
    ensures r.Some? ==> GroupEnd(sh, t, r.value.start) == Some(r.value.end)
  {
    var m := RunLength(t, j, sh.sep);
    if m < sh.sepMin then None else SepFrom(sh, t, j, m)
  }

  /** For each keyword alternative, the body that follows it at `i` when the keyword is there. */
  function Alternatives(sh: Shape, t: string, i: nat): (bs: seq<Option<Span>>)
    requires i <= |t|
    ensures |bs| == |sh.keywords|
    ensures forall n :: 0 <= n < |bs| && bs[n].Some? ==>
              KeywordAt(t, i, sh.keywords[n]) && bs[n] == BodyAt(sh, t, i + |sh.keywords[n]|)
  {
    seq(|sh.keywords|, n requires 0 <= n < |sh.keywords| =>
      if KeywordAt(t, i, sh.keywords[n]) then BodyAt(sh, t, i + |sh.keywords[n]|) else None)
  }

  /** The alternatives are tried in order; the first whose body matches wins. */
  function PhraseAt(sh: Shape, t: string, i: nat): (r: Option<Span>)
    requires i <= |t|
  {
    match FirstSome(Alternatives(sh, t, i), 0)
    case Some((_, sp)) => Some(sp)
    case None => None
  }

  // ---------------------------------------------------------------------------
  // Fixed-shape recognisers

  predicate TemplateChar(p: char, c: char) {
    if p == '#' then IsDigit(c)
    else if p == '%' then IsHexDigit(c)
    else if p == '~' then c == '+' || c == '-'
    else c == p
  }

  predicate FitsAt(t: string, i: nat, tpl: string) {
    i + |tpl| <= |t| && forall k :: 0 <= k < |tpl| ==> TemplateChar(tpl[k], t[i + k])
  }

  /** A run of `#` in a template matches a run of digits. */
  lemma TemplateDigits(t: string, i: nat, tpl: string, a: nat, b: nat)
    requires FitsAt(t, i, tpl) && a <= b <= |tpl|
    requires forall k :: a <= k < b ==> tpl[k] == '#'
    ensures AllIn(t, i + a, i + b, IsDigit)
  {
    forall k | i + a <= k < i + b
      ensures IsDigit(t[k])
    {
      assert tpl[k - i] == '#' && TemplateChar(tpl[k - i], t[i + (k - i)]);
    }
  }

  /** A run of `%` in a template matches a run of hex digits. */
  lemma TemplateHex(t: string, i: nat, tpl: string, a: nat, b: nat)
    requires FitsAt(t, i, tpl) && a <= b <= |tpl|
    requires forall k :: a <= k < b ==> tpl[k] == '%'
    ensures AllIn(t, i + a, i + b, IsHexDigit)
  {
    forall k | i + a <= k < i + b
      ensures IsHexDigit(t[k])
    {
      assert tpl[k - i] == '%' && TemplateChar(tpl[k - i], t[i + (k - i)]);
    }
  }

  function TemplateAt(t: string, i: nat, fixed: string, optional: string): (e: Option<nat>)
    ensures e.Some? <==> FitsAt(t, i, fixed)
    ensures e.Some? ==> e.value == if FitsAt(t, i + |fixed|, optional) then i + |fixed| + |optional| else i + |fixed|
  {
    if !FitsAt(t, i, fixed) then None
    else if FitsAt(t, i + |fixed|, optional) then Some(i + |fixed| + |optional|)
    else Some(i + |fixed|)
  }

  function Sum(bs: seq<nat>): nat {
    if bs == [] then 0 else bs[0] + Sum(bs[1..])
  }

  predicate DigitOrSpace(c: char) { IsDigit(c) || IsSpace(c) }

  /** End of `\d{b1}\s*\d{b2}...` starting at `i`. */
  function BlocksEnd(t: string, i: nat, bs: seq<nat>): (e: Option<nat>)
    requires i <= |t|
    ensures e.Some? ==> i <= e.value <= |t| && AllIn(t, i, e.value, DigitOrSpace)
    decreases |bs|
  {
    if bs == [] then Some(i)
    else if !(i + bs[0] <= |t| && AllIn(t, i, i + bs[0], IsDigit)) then None
    else if |bs| == 1 then Some(i + bs[0])
    else
      var d := i + bs[0];
      BlocksEnd(t, d + RunLength(t, d, IsSpace), bs[1..])
  }

  /** An unbroken run of digits as long as all the blocks together matches the blocks
      with no gaps, provided no block is empty. */
  lemma {:induction false} UnbrokenBlocks(t: string, i: nat, bs: seq<nat>)
    requires i + Sum(bs) <= |t| && AllIn(t, i, i + Sum(bs), IsDigit)
    requires forall k :: 0 <= k < |bs| ==> bs[k] > 0
    ensures BlocksEnd(t, i, bs) == Some(i + Sum(bs))
    decreases |bs|
  {
    if |bs| >= 2 {
      var d := i + bs[0];
      var rest := bs[1..];
      assert d + Sum(rest) == i + Sum(bs);
      assert Sum(rest) >= rest[0] > 0;
      assert IsDigit(t[d]) && !IsSpace(t[d]);
      assert RunLength(t, d, IsSpace) == 0;
      assert forall k :: 0 <= k < |rest| ==> rest[k] == bs[k + 1];
      UnbrokenBlocks(t, d, rest);
      assert AllIn(t, i, d, IsDigit);
      assert BlocksEnd(t, i, bs) == BlocksEnd(t, d, rest);
    } else if |bs| == 1 {
      assert bs[1..] == [];
      assert AllIn(t, i, i + bs[0], IsDigit);
    }
  }

  /** The digits of a spaced-digits match are exactly the digits of its blocks. */
  lemma {:induction false} BlocksDigitCount(t: string, i: nat, bs: seq<nat>)
    requires i <= |t| && BlocksEnd(t, i, bs).Some?
    ensures |Keep(t[i..BlocksEnd(t, i, bs).value], IsDigit)| == Sum(bs)
    decreases |bs|
  {
    var e := BlocksEnd(t, i, bs).value;
    if bs == [] {
      assert e == i;
    } else if |bs| == 1 {
      assert e == i + bs[0];
      assert bs[1..] == [];
      DigitsKept(t, i, e);
    } else {
      var d := i + bs[0];
      var k := d + RunLength(t, d, IsSpace);
      assert BlocksEnd(t, k, bs[1..]) == Some(e);
      BlocksDigitCount(t, k, bs[1..]);
      DigitsThenSpaces(t, i, d, k, e);
    }
  }

  /** Digits from `i` to `d`, then whitespace up to `k`: the kept digits of `t[i..e]`
      are the first block and then those of `t[k..e]`. */
  lemma DigitsThenSpaces(t: string, i: nat, d: nat, k: nat, e: nat)
    requires i <= d <= k <= e <= |t|
    requires AllIn(t, i, d, IsDigit) && AllIn(t, d, k, IsSpace)
    ensures |Keep(t[i..e], IsDigit)| == (d - i) + |Keep(t[k..e], IsDigit)|
  {
    assert t[i..e] == t[i..d] + t[d..k] + t[k..e];
    DigitsSpacesRest(t[i..d], t[d..k], t[k..e]);
  }

  lemma DigitsSpacesRest(x: string, y: string, z: string)
    requires forall n :: 0 <= n < |x| ==> IsDigit(x[n])
    requires forall n :: 0 <= n < |y| ==> IsSpace(y[n])
    ensures Keep(x + y + z, IsDigit) == x + Keep(z, IsDigit)
  {
    KeepNone(y, IsDigit);
    KeepAll(x, IsDigit);
    KeepAppend(x, y, IsDigit);
    var xy := x + y;
    assert Keep(xy, IsDigit) == x;
    KeepAppend(xy, z, IsDigit);
  }

  lemma DigitsKept(t: string, a: nat, b: nat)
    requires a <= b <= |t| && AllIn(t, a, b, IsDigit)
    ensures Keep(t[a..b], IsDigit) == t[a..b]
  {
    assert forall k :: 0 <= k < b - a ==> IsDigit(t[a..b][k]);
    KeepAll(t[a..b], IsDigit);
  }

  predicate SpaceOrDash(c: char) { IsSpace(c) || c == '-' }
  predicate DigitSpaceOrDash(c: char) { IsDigit(c) || IsSpace(c) || c == '-' }

  /** `[\s-]*[6-9]\d[\d\s-]{8,}` from `j`. */
  function MobileBody(t: string, j: nat): (e: Option<nat>)
    requires j <= |t|
    ensures e.Some? ==> j + 10 <= e.value <= |t|
  {
    var k := j + RunLength(t, j, SpaceOrDash);
    if k + 2 <= |t| && '6' <= t[k] <= '9' && IsDigit(t[k + 1]) then
      var r := RunLength(t, k + 2, DigitSpaceOrDash);
      if r >= 8 then Some(k + 2 + r) else None
    else None
  }

  /** `(?:\+91|0)?` tried as "+91", then "0", then nothing. */
  function MobileAt(t: string, i: nat): (e: Option<nat>)
    requires i <= |t|
    ensures e.Some? ==> i + 10 <= e.value <= |t|
  {
    var plus := if LiteralAt(t, i, "+91") then MobileBody(t, i + 3) else None;
    if plus.Some? then plus
    else
      var zero := if LiteralAt(t, i, "0") then MobileBody(t, i + 1) else None;
      if zero.Some? then zero else MobileBody(t, i)
  }

  /** The `\s*(.+)$` that follows the `:` or `-` of a note marker. */
  const NoteText := Shape([], IsSpace, 0, NotNewline, 1, None, false, EndAnchor)

  function NoteAfter(t: string, j: nat): (r: Option<Span>)
    requires j <= |t|
    ensures r.Some? ==> j < r.value.start <= |t| && GroupEnd(NoteText, t, r.value.start) == Some(r.value.end)
  {
    var k := j + RunLength(t, j, IsSpace);
    if k < |t| && (t[k] == ':' || t[k] == '-') then BodyAt(NoteText, t, k + 1) else None
  }

  /** `notes?` tried as "notes", then "note". */
  function NoteMarkerAt(t: string, i: nat): (r: Option<Span>)
    requires i <= |t|
    ensures r.Some? ==> i < r.value.start <= |t| && GroupEnd(NoteText, t, r.value.start) == Some(r.value.end)
  {
    var long := if KeywordAt(t, i, "notes") then NoteAfter(t, i + 5) else None;
    if long.Some? then long
    else if KeywordAt(t, i, "note") then NoteAfter(t, i + 4) else None
  }

  /** `[A-Z][a-z]+` at `j`. */
  function CapWordEnd(t: string, j: nat): (e: Option<nat>)
    requires j <= |t|
    ensures e.Some? ==> j + 2 <= e.value <= |t| && IsUpper(t[j]) && AllIn(t, j + 1, e.value, IsLowerLetter)
  {
    if j < |t| && IsUpper(t[j]) then
      var n := RunLength(t, j + 1, IsLowerLetter);
      if n >= 1 then Some(j + 1 + n) else None
    else None
  }

  predicate LetterOrSpace(c: char) { IsLetter(c) || IsSpace(c) }

  function CapitalisedNameAt(t: string, i: nat): (r: Option<Span>)
    requires i <= |t|
    ensures r.Some? ==> LiteralAt(t, i, "name") && i + 4 < r.value.start < r.value.end <= |t|
    ensures r.Some? ==> IsUpper(t[r.value.start]) && AllIn(t, r.value.start, r.value.end, LetterOrSpace)
  {
    if !LiteralAt(t, i, "name") then None
    else
      var w := RunLength(t, i + 4, IsSpace);
      if w == 0 then None
      else
        match CapWordEnd(t, i + 4 + w)
        case None => None
        case Some(e1) =>
          var w2 := RunLength(t, e1, IsSpace);
          var second := if w2 > 0 then CapWordEnd(t, e1 + w2) else None;
          if second.Some? then Some(Span(i + 4 + w, second.value)) else Some(Span(i + 4 + w, e1))
  }

  // ---------------------------------------------------------------------------
  // Matching at a position, and leftmost search

  /** What a match of `p` at `i` with group `sp` guarantees. */
  ghost predicate Fits(p: Pattern, t: string, i: nat, sp: Span) {
    && i <= sp.start <= sp.end <= |t|
    && match p
       case Phrase(sh) =>
         && (exists n :: 0 <= n < |sh.keywords| && KeywordAt(t, i, sh.keywords[n])
                         && i + |sh.keywords[n]| + sh.sepMin <= sp.start)
         && sp.start + sh.groupMin <= sp.end && AllIn(t, sp.start, sp.end, sh.group)
         && (sh.groupMax.Some? ==> sp.end - sp.start <= sh.groupMax.value)
         && sh.tail(t, sp.end)
       case Template(f, o) =>
         && sp.start == i && FitsAt(t, i, f)
         && sp.end == if FitsAt(t, i + |f|, o) then i + |f| + |o| else i + |f|
       case SpacedDigits(bs) =>
         && sp.start == i && AllIn(t, i, sp.end, DigitOrSpace)
         && |Keep(t[i..sp.end], IsDigit)| == Sum(bs)
       case Mobile => sp.start == i && i + 10 <= sp.end
       case NoteMarker =>
         && sp.start < sp.end && AllIn(t, sp.start, sp.end, NotNewline) && EndAnchor(t, sp.end)
       case CapitalisedName =>
         && LiteralAt(t, i, "name") && sp.start < sp.end
         && IsUpper(t[sp.start]) && AllIn(t, sp.start, sp.end, LetterOrSpace)
  }

  function MatchAt(p: Pattern, t: string, i: nat): (r: Option<Span>)
    requires i <= |t|
  {
    match p
    case Phrase(sh) => PhraseAt(sh, t, i)
    case Template(f, o) =>
      (match TemplateAt(t, i, f, o) case Some(e) => Some(Span(i, e)) case None => None)
    case SpacedDigits(bs) =>
      (match BlocksEnd(t, i, bs) case Some(e) => Some(Span(i, e)) case None => None)
    case Mobile =>
      (match MobileAt(t, i) case Some(e) => Some(Span(i, e)) case None => None)
    case NoteMarker => NoteMarkerAt(t, i)
    case CapitalisedName => CapitalisedNameAt(t, i)
  }

  lemma MatchFits(p: Pattern, t: string, i: nat)
    requires i <= |t| && MatchAt(p, t, i).Some?
    ensures Fits(p, t, i, MatchAt(p, t, i).value)
  {
    match p
    case Phrase(sh) =>
      var n := FirstSome(Alternatives(sh, t, i), 0).value.0;
      assert KeywordAt(t, i, sh.keywords[n]);
    case SpacedDigits(bs) =>
      BlocksDigitCount(t, i, bs);
    case _ =>
  }

  /** The outcome of matching `p` at every start position `0..|t|`. */
  function MatchesAt(p: Pattern, t: string): (ms: seq<Option<Span>>)
    ensures |ms| == |t| + 1 && forall k :: 0 <= k <= |t| ==> ms[k] == MatchAt(p, t, k)
  {
    seq(|t| + 1, k requires 0 <= k <= |t| => MatchAt(p, t, k))
  }

  /** `re.search`: the match that starts leftmost. */
  function Search(p: Pattern, t: string): (r: Option<Hit>)
    ensures r.Some? ==> r.value.at <= |t| && MatchAt(p, t, r.value.at) == Some(r.value.group)
    ensures r.Some? ==> r.value.at <= r.value.group.start <= r.value.group.end <= |t|
    ensures r.Some? ==> forall k :: 0 <= k < r.value.at ==> MatchAt(p, t, k).None?
    ensures r.None? <==> forall k :: 0 <= k <= |t| ==> MatchAt(p, t, k).None?
  {
    var ms := MatchesAt(p, t);
    match FirstSome(ms, 0)
    case Some((at, sp)) => MatchFits(p, t, at); Some(Hit(at, sp))
    case None => None
  }

  /** What the hit of `re.search` guarantees, by the kind of pattern. */
  lemma SearchFits(p: Pattern, t: string)
    requires Search(p, t).Some?
    ensures Fits(p, t, Search(p, t).value.at, Search(p, t).value.group)
  {
    MatchFits(p, t, Search(p, t).value.at);
  }

  /** A match anywhere means `re.search` finds one there or further left. */
  lemma SearchFinds(p: Pattern, t: string, i: nat)
    requires i <= |t| && MatchAt(p, t, i).Some?
    ensures Search(p, t).Some? && Search(p, t).value.at <= i
  {
  }

  /** What a hit of a fixed template guarantees. */
  lemma TemplateHit(f: string, o: string, t: string, h: Hit)
    requires Search(Template(f, o), t) == Some(h)
    ensures h.group.start == h.at && FitsAt(t, h.at, f)
    ensures h.group.end == if FitsAt(t, h.at + |f|, o) then h.at + |f| + |o| else h.at + |f|
  {
    SearchFits(Template(f, o), t);
  }

  /** What a hit of spaced digit blocks guarantees. */
  lemma SpacedHit(bs: seq<nat>, t: string, h: Hit)
    requires Search(SpacedDigits(bs), t) == Some(h)
    ensures h.group.start == h.at <= h.group.end <= |t|
    ensures AllIn(t, h.at, h.group.end, DigitOrSpace)
    ensures |Keep(t[h.at..h.group.end], IsDigit)| == Sum(bs)
  {
    SearchFits(SpacedDigits(bs), t);
  }

  /** What a hit of a keyword phrase guarantees about its group. */
  lemma PhraseGroup(sh: Shape, t: string, h: Hit)
    requires Search(Phrase(sh), t) == Some(h)
    ensures h.group.start <= h.group.end <= |t|
    ensures sh.groupMin <= |Group(t, h)|
    ensures sh.groupMax.Some? ==> |Group(t, h)| <= sh.groupMax.value
    ensures forall k :: 0 <= k < |Group(t, h)| ==> sh.group(Group(t, h)[k])
  {
    SearchFits(Phrase(sh), t);
    SliceIn(t, h.group.start, h.group.end, sh.group);
  }

  lemma SliceIn(t: string, a: nat, b: nat, cls: char -> bool)
    requires a <= b <= |t| && AllIn(t, a, b, cls)
    ensures forall k :: 0 <= k < b - a ==> cls(t[a..b][k])
  {
    assert forall k :: 0 <= k < b - a ==> t[a..b][k] == t[a + k];
  }

  function Group(t: string, h: Hit): string
    requires h.group.start <= h.group.end <= |t|
  {
    t[h.group.start..h.group.end]
  }

  // ---------------------------------------------------------------------------
  // First-match-wins cascades

  datatype Found = Found(index: nat, hit: Hit)

  /** The outcome of searching with each pattern of `ps`. */
  function Searches(ps: seq<Pattern>, t: string): (ss: seq<Option<Hit>>)
    ensures |ss| == |ps| && forall n :: 0 <= n < |ps| ==> ss[n] == Search(ps[n], t)
  {
    seq(|ps|, n requires 0 <= n < |ps| => Search(ps[n], t))
  }

  /** The first pattern of `ps` that `re.search` finds in `t`, and its hit. */
  function Cascade(ps: seq<Pattern>, t: string): (r: Option<Found>)
    ensures r.Some? ==> r.value.index < |ps| && Search(ps[r.value.index], t) == Some(r.value.hit)
    ensures r.Some? ==> forall n :: 0 <= n < r.value.index ==> Search(ps[n], t).None?
    ensures r.None? <==> forall n :: 0 <= n < |ps| ==> Search(ps[n], t).None?
  {
    match FirstSome(Searches(ps, t), 0)
    case Some((n, h)) => Some(Found(n, h))
    case None => None
  }

  /** A pattern that finds something stops the cascade there or earlier. */
  lemma CascadeReaches(ps: seq<Pattern>, t: string, n: nat)
    requires n < |ps| && Search(ps[n], t).Some?
    ensures Cascade(ps, t).Some? && Cascade(ps, t).value.index <= n
  {
  }

  /** Group 1 of the first pattern of the cascade that matches. */
  function Captured(ps: seq<Pattern>, t: string): Option<string> {
    match Cascade(ps, t)
    case Some(f) => Some(Group(t, f.hit))
    case None => None
  }

  /** Group 1 of `re.search`. */
  function Searched(p: Pattern, t: string): Option<string> {
    match Search(p, t)
    case Some(h) => Some(Group(t, h))
    case None => None
  }

  /** Every pattern of `ps` is a keyword phrase whose group is `min` or more characters of `cls`. */
  predicate PhrasesOf(ps: seq<Pattern>, cls: char -> bool, min: nat) {
    && (forall n :: 0 <= n < |ps| ==> ps[n].Phrase? && ps[n].shape.groupMin >= min)
    && (forall n, c :: 0 <= n < |ps| && ps[n].Phrase? && ps[n].shape.group(c) ==> cls(c))
  }

  /** What a cascade of such phrases captures is `min` or more characters of `cls`. */
  lemma CapturedIn(ps: seq<Pattern>, t: string, cls: char -> bool, min: nat)
    requires PhrasesOf(ps, cls, min) && Captured(ps, t).Some?
    ensures |Captured(ps, t).value| >= min
    ensures forall k :: 0 <= k < |Captured(ps, t).value| ==> cls(Captured(ps, t).value[k])
  {
    var f := Cascade(ps, t).value;
    PhraseGroup(ps[f.index].shape, t, f.hit);
  }

  /** `for pattern in ps: m = re.search(pattern, t); if m: ...; break`. */
  method FirstMatch(ps: seq<Pattern>, t: string) returns (r: Option<Found>)
    ensures r == Cascade(ps, t)
  {
    ghost var ss := Searches(ps, t);
    var k := 0;
    while k < |ps|
      invariant 0 <= k <= |ps|
      invariant FirstSome(ss, k) == FirstSome(ss, 0)
    {
      var m := Search(ps[k], t);
      if m.Some? {
        return Some(Found(k, m.value));
      }
      k := k + 1;
    }
    return None;
  }
}
