/** Character and string vocabulary shared by the two NLU front ends and the
    two CRM stores: Python truthiness, ASCII case folding, Python whitespace,
    `str.strip`, substring search and the fresh-identifier oracle that stands
    in for `uuid.uuid4`. */
module Text {

  datatype Option<+T> = None | Some(value: T)

  /** Python truthiness of an optional string (`if x:`): present and non-empty. */
  predicate Truthy(o: Option<string>) {
    o.Some? && |o.value| > 0
  }

  /** Python's whitespace (`str.isspace`, and `\s` in a `str` pattern). */
  predicate IsSpace(c: char) {
    ('\t' <= c <= '\r') || ('\U{1C}' <= c <= '\U{1F}') || c == ' '
    || c == '\U{85}' || c == '\U{A0}' || c == '\U{1680}'
    || ('\U{2000}' <= c <= '\U{200A}') || c == '\U{2028}' || c == '\U{2029}'
    || c == '\U{202F}' || c == '\U{205F}' || c == '\U{3000}'
  }

  predicate IsDigit(c: char) { '0' <= c <= '9' }
  predicate IsUpper(c: char) { 'A' <= c <= 'Z' }
  predicate IsLowerLetter(c: char) { 'a' <= c <= 'z' }
  predicate IsLetter(c: char) { IsUpper(c) || IsLowerLetter(c) }
  predicate IsHexDigit(c: char) { IsDigit(c) || ('a' <= c <= 'f') || ('A' <= c <= 'F') }

  /** The regular-expression word characters `\w`, on ASCII. */
  predicate IsWordChar(c: char) { IsLetter(c) || IsDigit(c) || c == '_' }

  predicate AllDigits(s: string) { forall i :: 0 <= i < |s| ==> IsDigit(s[i]) }

  function ToLower(c: char): (r: char)
    ensures IsUpper(c) ==> IsLowerLetter(r)
    ensures !IsUpper(c) ==> r == c
  {
    if IsUpper(c) then (c as int + 32) as char else c
  }

  /** `str.lower()` on ASCII letters. */
  function Lower(s: string): (r: string)
    ensures |r| == |s|
    ensures forall i :: 0 <= i < |s| ==> r[i] == ToLower(s[i])
  {
    seq(|s|, i requires 0 <= i < |s| => ToLower(s[i]))
  }

  lemma LowerIdempotent(s: string)
    ensures Lower(Lower(s)) == Lower(s)
  {
    assert forall i :: 0 <= i < |s| ==> Lower(Lower(s))[i] == Lower(s)[i];
  }

  /** `w` spelled exactly at position `i` of `t`. */
  predicate LiteralAt(t: string, i: nat, w: string) {
    i + |w| <= |t| && t[i..i + |w|] == w
  }

  /** Python's `w in s` for strings. */
  predicate Occurs(w: string, s: string) {
    exists i: nat :: i <= |s| && LiteralAt(s, i, w)
  }

  /** `any(p in s for p in phrases)`. */
  predicate AnyOccurs(phrases: seq<string>, s: string) {
    exists k :: 0 <= k < |phrases| && Occurs(phrases[k], s)
  }

  /** `kw` (written in lower case) at position `i` of `t`, ignoring ASCII case. */
  predicate KeywordAt(t: string, i: nat, kw: string) {
    i + |kw| <= |t| && Lower(t[i..i + |kw|]) == kw
  }

  /** `str.lstrip(chars)`: drop the leading characters that satisfy `drop`. */
  function StripStartBy(s: string, drop: char -> bool): (r: string)
    ensures |r| <= |s| && r == s[|s| - |r|..]
    ensures r == [] || !drop(r[0])
    ensures forall i :: 0 <= i < |s| - |r| ==> drop(s[i])
  {
    if |s| > 0 && drop(s[0]) then
      var r := StripStartBy(s[1..], drop);
      assert forall i :: 1 <= i < |s| - |r| ==> s[i] == s[1..][i - 1];
      r
    else s
  }

  /** `str.rstrip(chars)`: drop the trailing characters that satisfy `drop`. */
  function StripEndBy(s: string, drop: char -> bool): (r: string)
    ensures |r| <= |s| && r == s[..|r|]
    ensures r == [] || !drop(r[|r| - 1])
    ensures forall i :: |r| <= i < |s| ==> drop(s[i])
  {
    if |s| > 0 && drop(s[|s| - 1]) then
      var r := StripEndBy(s[..|s| - 1], drop);
      assert forall i :: |r| <= i < |s| - 1 ==> s[i] == s[..|s| - 1][i];
      r
    else s
  }

  /** `str.strip(chars)`: the largest slice with no dropped character at either end;
      everything cut off on either side is dropped characters. */
  function StripBy(s: string, drop: char -> bool): (r: string)
    ensures exists a, b :: 0 <= a <= b <= |s| && r == s[a..b]
                           && (forall i :: 0 <= i < a ==> drop(s[i]))
                           && (forall i :: b <= i < |s| ==> drop(s[i]))
    ensures r == [] || (!drop(r[0]) && !drop(r[|r| - 1]))
    ensures (forall i :: 0 <= i < |s| ==> drop(s[i])) <==> r == []
  {
    var l := StripStartBy(s, drop);
    var r := StripEndBy(l, drop);
    StripSides(s, drop, l, r);
    r
  }

  /** Cutting dropped characters off the start and then off the end leaves a slice
      with only dropped characters outside it. */
  lemma StripSides(s: string, drop: char -> bool, l: string, r: string)
    requires |l| <= |s| && l == s[|s| - |l|..] && forall i :: 0 <= i < |s| - |l| ==> drop(s[i])
    requires l == [] || !drop(l[0])
    requires |r| <= |l| && r == l[..|r|] && forall i :: |r| <= i < |l| ==> drop(l[i])
    requires r == [] || !drop(r[|r| - 1])
    ensures var a := |s| - |l|;
            && a + |r| <= |s| && r == s[a..a + |r|]
            && (forall i :: 0 <= i < a ==> drop(s[i]))
            && (forall i :: a + |r| <= i < |s| ==> drop(s[i]))
    ensures r == [] || (!drop(r[0]) && !drop(r[|r| - 1]))
    ensures (forall i :: 0 <= i < |s| ==> drop(s[i])) <==> r == []
  {
    var a := |s| - |l|;
    forall i | a + |r| <= i < |s|
      ensures drop(s[i])
    {
      assert s[i] == l[i - a];
    }
  }

  /** `str.strip()`. */
  function Strip(s: string): (r: string)
    ensures exists a, b :: 0 <= a <= b <= |s| && r == s[a..b]
                           && (forall i :: 0 <= i < a ==> IsSpace(s[i]))
                           && (forall i :: b <= i < |s| ==> IsSpace(s[i]))
    ensures r == [] || (!IsSpace(r[0]) && !IsSpace(r[|r| - 1]))
    ensures (forall i :: 0 <= i < |s| ==> IsSpace(s[i])) <==> r == []
  {
    StripBy(s, IsSpace)
  }

  /** Stripping keeps only characters of the input. */
  lemma StripByWithin(s: string, drop: char -> bool, cls: char -> bool)
    requires forall i :: 0 <= i < |s| ==> cls(s[i])
    ensures forall i :: 0 <= i < |StripBy(s, drop)| ==> cls(StripBy(s, drop)[i])
  {
    var l := StripStartBy(s, drop);
    var r := StripEndBy(l, drop);
    assert StripBy(s, drop) == r;
    forall i | 0 <= i < |r|
      ensures cls(r[i])
    {
      assert r[i] == l[i] == s[|s| - |l| + i];
    }
  }

  lemma StripWithin(s: string, cls: char -> bool)
    requires forall i :: 0 <= i < |s| ==> cls(s[i])
    ensures forall i :: 0 <= i < |Strip(s)| ==> cls(Strip(s)[i])
  {
    StripByWithin(s, IsSpace, cls);
  }

  /** Stripping keeps a non-blank start as it is. */
  lemma StripFront(s: string, n: nat)
    requires 0 < n <= |s| && forall i :: 0 <= i < n ==> !IsSpace(s[i])
    ensures n <= |Strip(s)| && Strip(s)[..n] == s[..n]
  {
    var l := StripStartBy(s, IsSpace);
    assert !IsSpace(s[0]);
    assert l == s;
    var r := StripEndBy(l, IsSpace);
    assert !IsSpace(s[n - 1]);
    assert n <= |r|;
  }

  /** Membership in `cs`, as a test. */
  function InSet(cs: set<char>): char -> bool {
    c => c in cs
  }

  /** `str.strip(chars)` with the characters given as a set. */
  function StripChars(s: string, cs: set<char>): (r: string)
    ensures exists a, b :: 0 <= a <= b <= |s| && r == s[a..b]
                           && (forall i :: 0 <= i < a ==> s[i] in cs)
                           && (forall i :: b <= i < |s| ==> s[i] in cs)
    ensures r == [] || (r[0] !in cs && r[|r| - 1] !in cs)
  {
    StripBy(s, InSet(cs))
  }

  /** Stripping characters keeps only characters of the input. */
  lemma StripCharsWithin(s: string, cs: set<char>, cls: char -> bool)
    requires forall i :: 0 <= i < |s| ==> cls(s[i])
    ensures forall i :: 0 <= i < |StripChars(s, cs)| ==> cls(StripChars(s, cs)[i])
  {
    StripByWithin(s, InSet(cs), cls);
  }


  /** The characters of `s` that satisfy `keep`, in order (`re.sub` with an empty replacement). */
  function Keep(s: string, keep: char -> bool): (r: string)
    ensures |r| <= |s|
  {
    if s == [] then []
    else (if keep(s[0]) then [s[0]] else []) + Keep(s[1..], keep)
  }

  /** When every character passes, nothing is dropped. */
  lemma {:induction false} KeepAll(s: string, keep: char -> bool)
    requires forall i :: 0 <= i < |s| ==> keep(s[i])
    ensures Keep(s, keep) == s
  {
    if s != [] {
      KeepAll(s[1..], keep);
    }
  }

  /** When no character passes, everything is dropped. */
  lemma {:induction false} KeepNone(s: string, keep: char -> bool)
    requires forall i :: 0 <= i < |s| ==> !keep(s[i])
    ensures Keep(s, keep) == []
  {
    if s != [] {
      KeepNone(s[1..], keep);
    }
  }

  /** Every kept character passes the filter and was in `s`. */
  lemma {:induction false} KeepFrom(s: string, keep: char -> bool)
    ensures forall i :: 0 <= i < |Keep(s, keep)| ==> keep(Keep(s, keep)[i]) && Keep(s, keep)[i] in s
  {
    if s != [] {
      KeepFrom(s[1..], keep);
      var r := Keep(s[1..], keep);
      assert forall i :: 0 <= i < |r| ==> r[i] in s;
    }
  }

  /** Keeping from a concatenation keeps from each part. */
  lemma {:induction false} KeepAppend(a: string, b: string, keep: char -> bool)
    ensures Keep(a + b, keep) == Keep(a, keep) + Keep(b, keep)
  {
    if a == [] {
      assert a + b == b;
    } else {
      var h: string := if keep(a[0]) then [a[0]] else [];
      assert (a + b)[0] == a[0] && (a + b)[1..] == a[1..] + b;
      assert Keep(a + b, keep) == h + Keep(a[1..] + b, keep);
      KeepAppend(a[1..], b, keep);
      assert Keep(a, keep) == h + Keep(a[1..], keep);
    }
  }

  /** Two filters that agree on the characters of `s` keep the same characters. */
  lemma {:induction false} KeepAgree(s: string, k1: char -> bool, k2: char -> bool)
    requires forall i :: 0 <= i < |s| ==> k1(s[i]) == k2(s[i])
    ensures Keep(s, k1) == Keep(s, k2)
  {
    if s != [] {
      KeepAgree(s[1..], k1, k2);
    }
  }

  /** `sep.join(parts)`. */
  function Join(sep: string, parts: seq<string>): string {
    if |parts| == 0 then ""
    else if |parts| == 1 then parts[0]
    else parts[0] + sep + Join(sep, parts[1..])
  }

  /** `c * n`. */
  function Repeat(c: char, n: nat): (r: string)
    ensures |r| == n && forall i :: 0 <= i < n ==> r[i] == c
  {
    if n == 0 then "" else Repeat(c, n - 1) + [c]
  }

  ghost function KeysFrom(used: set<string>, n: nat): set<string> {
    set k | k in used && |k| >= n
  }

  lemma KeysFromShrink(used: set<string>, n: nat)
    requires Repeat('0', n) in used
    ensures |KeysFrom(used, n + 1)| < |KeysFrom(used, n)|
  {
    var longer, shorter := KeysFrom(used, n + 1), KeysFrom(used, n);
    assert Repeat('0', n) in shorter;
    var rest := shorter - {Repeat('0', n)};
    assert forall k :: k in longer ==> k in rest;
    assert longer <= rest;
    assert |rest| == |shorter| - 1;
    assert rest == longer + (rest - longer);
    assert |rest| == |longer| + |rest - longer|;
  }

  function FreshFrom(used: set<string>, n: nat): (k: string)
    ensures k !in used && |k| >= n
    decreases |KeysFrom(used, n)|
  {
    if Repeat('0', n) in used then
      KeysFromShrink(used, n);
      FreshFrom(used, n + 1)
    else Repeat('0', n)
  }

  /** The identifier oracle that stands in for `str(uuid.uuid4())`: an identifier of
      the length of a UUID or longer that is not among those already in use. */
  function FreshKey(used: set<string>): (k: string)
    ensures k !in used && |k| >= 36
  {
    FreshFrom(used, 36)
  }
}
