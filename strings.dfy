/**
 * The handful of Python `str` operations the core relies on, on ASCII text:
 * `lower`, `title`, `strip`, `in`, `startswith`/`endswith`, `split()`, `split(sep, 1)`
 * and `replace`.  Characters outside ASCII are treated as uncased and not as whitespace.
 */
module Strings {
  import opened Wrappers

  /** Python's `str.isspace` restricted to ASCII: space, \t \n \v \f \r and \x1c-\x1f. */
  predicate IsSpace(c: char) {
    c == ' ' || (9 <= c as int <= 13) || (28 <= c as int <= 31)
  }

  predicate IsUpperChar(c: char) { 'A' <= c <= 'Z' }
  predicate IsLowerChar(c: char) { 'a' <= c <= 'z' }
  predicate IsLetter(c: char) { IsUpperChar(c) || IsLowerChar(c) }
  predicate IsDigit(c: char) { '0' <= c <= '9' }

  function LowerChar(c: char): (r: char)
    ensures IsLetter(r) <==> IsLetter(c)
    ensures !IsUpperChar(r)
  {
    if IsUpperChar(c) then (c as int + 32) as char else c
  }

  function UpperChar(c: char): (r: char)
    ensures IsLetter(r) <==> IsLetter(c)
    ensures !IsLowerChar(r)
  {
    if IsLowerChar(c) then (c as int - 32) as char else c
  }

  /** `s.lower()` */
  function Lower(s: string): (r: string)
    ensures |r| == |s|
    ensures forall i :: 0 <= i < |s| ==> r[i] == LowerChar(s[i])
  {
    seq(|s|, i requires 0 <= i < |s| => LowerChar(s[i]))
  }

  lemma LowerIdempotent(s: string)
    ensures Lower(Lower(s)) == Lower(s)
  {
  }

  predicate StartsWith(s: string, prefix: string) {
    |prefix| <= |s| && s[..|prefix|] == prefix
  }

  predicate EndsWith(s: string, suffix: string) {
    |suffix| <= |s| && s[|s| - |suffix|..] == suffix
  }

  /** `sub` occurs in `s` starting at index `i`. */
  predicate OccursAt(s: string, sub: string, i: int) {
    0 <= i && i + |sub| <= |s| && s[i..i + |sub|] == sub
  }

  /** Python's `sub in s`: some window of `s` equals `sub` (the empty string is in every string). */
  predicate Contains(s: string, sub: string) {
    exists i | 0 <= i <= |s| - |sub| :: OccursAt(s, sub, i)
  }

  /** The first index at or after `i` where `sub` occurs in `s`. */
  function IndexFrom(s: string, sub: string, i: nat): (r: Option<nat>)
    ensures r.Some? ==> i <= r.value && OccursAt(s, sub, r.value)
    ensures r.Some? ==> forall j :: i <= j < r.value ==> !OccursAt(s, sub, j)
    ensures r.None? ==> forall j :: i <= j ==> !OccursAt(s, sub, j)
    decreases |s| - i
  {
    if i + |sub| > |s| then None
    else if OccursAt(s, sub, i) then Some(i)
    else IndexFrom(s, sub, i + 1)
  }

  /** `s.find(sub)` as an option: the first index at which `sub` occurs. */
  function IndexOf(s: string, sub: string): (r: Option<nat>)
    ensures r.Some? ==> OccursAt(s, sub, r.value)
    ensures r.Some? ==> forall j :: 0 <= j < r.value ==> !OccursAt(s, sub, j)
    ensures r.None? <==> !Contains(s, sub)
  {
    IndexFrom(s, sub, 0)
  }

  /** `s.split(sep, 1)` when `sep` occurs: the text before and after its first occurrence. */
  function SplitOnce(s: string, sep: string): (r: Option<(string, string)>)
    requires sep != []
    ensures r.None? <==> !Contains(s, sep)
    ensures r.Some? ==> s == r.value.0 + sep + r.value.1 && !Contains(r.value.0, sep)
  {
    match IndexOf(s, sep)
    case None => None
    case Some(k) =>
      var head, tail := s[..k], s[k + |sep|..];
      assert s == head + sep + tail;
      assert !Contains(head, sep) by {
        forall i | 0 <= i <= |head| - |sep| ensures !OccursAt(head, sep, i) {
          assert i < k;
          assert !OccursAt(s, sep, i);
          assert head[i..i + |sep|] == s[i..i + |sep|];
        }
      }
      Some((head, tail))
  }

  function TrimLeft(s: string): (r: string)
    ensures |r| <= |s| && r == s[|s| - |r|..]
    ensures r == [] || !IsSpace(r[0])
  {
    if s != [] && IsSpace(s[0]) then TrimLeft(s[1..]) else s
  }

  function TrimRight(s: string): (r: string)
    ensures |r| <= |s| && r == s[..|r|]
    ensures r == [] || !IsSpace(r[|r| - 1])
  {
    if s != [] && IsSpace(s[|s| - 1]) then TrimRight(s[..|s| - 1]) else s
  }

  /** `s.strip()`: the text between the first and the last non-whitespace character. */
  function Strip(s: string): (r: string)
    ensures r == [] || (!IsSpace(r[0]) && !IsSpace(r[|r| - 1]))
    ensures Contains(s, r)
  {
    var l := TrimLeft(s);
    var r := TrimRight(l);
    var i := |s| - |l|;
    assert l == s[i..];
    assert r == l[..|r|];
    assert OccursAt(s, r, i);
    r
  }

  lemma StripNoEdgeSpace(s: string)
    requires s == [] || (!IsSpace(s[0]) && !IsSpace(s[|s| - 1]))
    ensures Strip(s) == s
  {
  }

  /** One step of `str.title()`: letters after a letter are lowered, other letters raised. */
  function TitleFrom(s: string, afterLetter: bool): (r: string)
    ensures |r| == |s|
    ensures forall i :: 0 <= i < |s| ==> (IsLetter(r[i]) <==> IsLetter(s[i]))
    ensures forall i :: 0 <= i < |s| && !IsLetter(s[i]) ==> r[i] == s[i]
    decreases |s|
  {
    if s == [] then []
    else
      var c := s[0];
      var c' := if !IsLetter(c) then c else if afterLetter then LowerChar(c) else UpperChar(c);
      [c'] + TitleFrom(s[1..], IsLetter(c))
  }

  /** `s.title()` on ASCII text. */
  function Title(s: string): (r: string)
    ensures |r| == |s|
  {
    TitleFrom(s, false)
  }

  lemma {:induction false} TitleFromIdempotent(s: string, afterLetter: bool)
    ensures TitleFrom(TitleFrom(s, afterLetter), afterLetter) == TitleFrom(s, afterLetter)
    decreases |s|
  {
    if s != [] {
      var t := TitleFrom(s, afterLetter);
      TitleFromIdempotent(s[1..], IsLetter(s[0]));
      assert t[1..] == TitleFrom(s[1..], IsLetter(s[0]));
      assert IsLetter(t[0]) <==> IsLetter(s[0]);
    }
  }

  /** Non-space positions and lengths are kept by `title`, so a stripped string stays stripped. */
  lemma TitleKeepsStripped(s: string)
    requires s == [] || (!IsSpace(s[0]) && !IsSpace(s[|s| - 1]))
    ensures var t := Title(s); t == [] || (!IsSpace(t[0]) && !IsSpace(t[|t| - 1]))
  {
    var t := Title(s);
    if s != [] {
      assert IsLetter(t[0]) <==> IsLetter(s[0]);
      assert IsLetter(t[|t| - 1]) <==> IsLetter(s[|s| - 1]);
    }
  }

  /** `s.split()` with no separator: the maximal runs of non-whitespace characters, in order. */
  function Words(s: string): seq<string>
    decreases |s|
  {
    var t := TrimLeft(s);
    if t == [] then []
    else
      var n := WordLength(t);
      assert 0 < n <= |t| <= |s|;
      [t[..n]] + Words(t[n..])
  }

  /** Length of the run of non-whitespace characters at the front of `s`. */
  function WordLength(s: string): (n: nat)
    ensures n <= |s|
    ensures forall i :: 0 <= i < n ==> !IsSpace(s[i])
    ensures n < |s| ==> IsSpace(s[n])
    ensures s != [] && !IsSpace(s[0]) ==> n > 0
  {
    if s == [] || IsSpace(s[0]) then 0 else 1 + WordLength(s[1..])
  }

  /** `s.replace(pat, rep)`: every non-overlapping occurrence, scanning from the left. */
  function ReplaceAll(s: string, pat: string, rep: string): (r: string)
    requires pat != []
    ensures !Contains(s, pat) ==> r == s
    decreases |s|
  {
    match IndexOf(s, pat)
    case None => s
    case Some(k) => s[..k] + rep + ReplaceAll(s[k + |pat|..], pat, rep)
  }

  /** Decimal rendering of an integer, as Python's `str(int)`. */
  function IntToString(n: int): (r: string)
    ensures r != []
    decreases if n < 0 then -n + 1 else n
  {
    if n < 0 then "-" + IntToString(-n)
    else if n < 10 then [('0' as int + n) as char]
    else IntToString(n / 10) + [('0' as int + n % 10) as char]
  }
}
