/**
 * The Python string primitives the application relies on: `str.strip()`,
 * the substring test `t in s`, `str.startswith`, `str.endswith` and
 * `sep.join(xs)`.
 */
module Text {

  /** Python's `str.isspace()` for one code point: the Unicode whitespace set. */
  predicate IsSpace(c: char) {
    c == ' ' || ('\t' <= c <= '\r') || ('\U{1C}' <= c <= '\U{1F}')
    || c == '\U{85}' || c == '\U{A0}' || c == '\U{1680}'
    || ('\U{2000}' <= c <= '\U{200A}') || c == '\U{2028}' || c == '\U{2029}'
    || c == '\U{202F}' || c == '\U{205F}' || c == '\U{3000}'
  }

  /** Every character of `s` is whitespace (the empty string included). */
  ghost predicate IsBlank(s: string) {
    forall i :: 0 <= i < |s| ==> IsSpace(s[i])
  }

  /** `s` neither starts nor ends with whitespace. */
  predicate IsStripped(s: string) {
    s == [] || (!IsSpace(s[0]) && !IsSpace(s[|s| - 1]))
  }

  /** `t` occurs in `s` starting at index `i`. */
  ghost predicate OccursAt(s: string, t: string, i: int) {
    0 <= i && i + |t| <= |s| && s[i..i + |t|] == t
  }

  /** `t` is a substring of `s`. */
  ghost predicate Occurs(s: string, t: string) {
    exists i :: OccursAt(s, t, i)
  }

  predicate StartsWith(s: string, prefix: string) {
    |prefix| <= |s| && s[..|prefix|] == prefix
  }

  predicate EndsWith(s: string, suffix: string) {
    |suffix| <= |s| && s[|s| - |suffix|..] == suffix
  }

  /** Python's `t in s`: the empty string occurs everywhere. */
  function Contains(s: string, t: string): (r: bool)
    ensures r <==> Occurs(s, t)
    decreases |s|
  {
    if StartsWith(s, t) then
      assert OccursAt(s, t, 0);
      true
    else if s == [] then
      false
    else
      OccursInTail(s, t);
      Contains(s[1..], t)
  }

  /** When `t` is not a prefix of non-empty `s`, it occurs in `s` iff it occurs in `s[1..]`. */
  lemma OccursInTail(s: string, t: string)
    requires s != [] && !StartsWith(s, t)
    ensures Occurs(s, t) <==> Occurs(s[1..], t)
  {
    if Occurs(s, t) {
      var i :| OccursAt(s, t, i);
      assert i != 0;
      assert s[1..][i - 1..i - 1 + |t|] == s[i..i + |t|];
      assert OccursAt(s[1..], t, i - 1);
    }
    if Occurs(s[1..], t) {
      var i :| OccursAt(s[1..], t, i);
      assert s[i + 1..i + 1 + |t|] == s[1..][i..i + |t|];
      assert OccursAt(s, t, i + 1);
    }
  }

  /** A string that lacks some character of `t` cannot contain `t`. */
  lemma MissingCharNotOccurs(s: string, t: string, k: nat)
    requires k < |t| && t[k] !in s
    ensures !Occurs(s, t)
  {
  }

  /**
   * Python's `str.strip()`: removes leading whitespace, then trailing
   * whitespace. It is empty exactly when `s` is blank.
   */
  function Strip(s: string): (r: string)
    ensures IsStripped(r)
    ensures r == [] <==> IsBlank(s)
    decreases |s|
  {
    if s != [] && IsSpace(s[0]) then
      var r := Strip(s[1..]);
      assert r == [] ==> IsBlank(s) by {
        if r == [] {
          assert forall i :: 1 <= i < |s| ==> s[i] == s[1..][i - 1];
        }
      }
      r
    else if s != [] && IsSpace(s[|s| - 1]) then
      assert s[..|s| - 1][0] == s[0];
      Strip(s[..|s| - 1])
    else
      s
  }

  /** An infix with blank surroundings stays one after a whitespace character is put in front. */
  lemma InfixAfterSpace(s: string, t: string, i: int)
    requires s != [] && IsSpace(s[0])
    requires OccursAt(s[1..], t, i) && IsBlank(s[1..][..i]) && IsBlank(s[1..][i + |t|..])
    ensures OccursAt(s, t, i + 1) && IsBlank(s[..i + 1]) && IsBlank(s[i + 1 + |t|..])
  {
    assert s[i + 1..i + 1 + |t|] == s[1..][i..i + |t|];
    assert s[..i + 1] == [s[0]] + s[1..][..i];
    assert s[i + 1 + |t|..] == s[1..][i + |t|..];
  }

  /** An infix with blank surroundings stays one after a whitespace character is put behind. */
  lemma InfixBeforeSpace(s: string, t: string, i: int)
    requires s != [] && IsSpace(s[|s| - 1])
    requires OccursAt(s[..|s| - 1], t, i) && IsBlank(s[..|s| - 1][..i]) && IsBlank(s[..|s| - 1][i + |t|..])
    ensures OccursAt(s, t, i) && IsBlank(s[..i]) && IsBlank(s[i + |t|..])
  {
    assert s[i..i + |t|] == s[..|s| - 1][i..i + |t|];
    assert s[..i] == s[..|s| - 1][..i];
    assert s[i + |t|..] == s[..|s| - 1][i + |t|..] + [s[|s| - 1]];
  }

  /** Where `Strip` cuts: the offset of the kept infix, with only whitespace around it. */
  lemma {:induction false} StripOffset(s: string) returns (i: nat)
    ensures OccursAt(s, Strip(s), i) && IsBlank(s[..i]) && IsBlank(s[i + |Strip(s)|..])
    decreases |s|
  {
    var r := Strip(s);
    if s != [] && IsSpace(s[0]) {
      var t := s[1..];
      assert r == Strip(t);
      var k := StripOffset(t);
      InfixAfterSpace(s, r, k);
      i := k + 1;
    } else if s != [] && IsSpace(s[|s| - 1]) {
      var t := s[..|s| - 1];
      assert r == Strip(t);
      i := StripOffset(t);
      InfixBeforeSpace(s, r, i);
    } else {
      assert r == s;
      assert s[..0] == [] && s[|s|..] == [];
      i := 0;
    }
  }

  /** What `Strip` keeps: an infix of `s` whose surroundings in `s` are all whitespace. */
  lemma StripIsInfix(s: string)
    ensures exists i :: OccursAt(s, Strip(s), i) && IsBlank(s[..i]) && IsBlank(s[i + |Strip(s)|..])
  {
    var i := StripOffset(s);
  }

  /** Stripping a string without surrounding whitespace changes nothing. */
  lemma StripKeepsStripped(s: string)
    requires IsStripped(s)
    ensures Strip(s) == s
  {
  }

  /** Python's `sep.join(xs)`. */
  function Join(xs: seq<string>, sep: string): string
  {
    if |xs| == 0 then ""
    else if |xs| == 1 then xs[0]
    else xs[0] + sep + Join(xs[1..], sep)
  }

  /** Joining no pieces gives the empty text; otherwise it runs from the first piece to the last. */
  lemma {:induction false} JoinEnds(xs: seq<string>, sep: string)
    ensures xs == [] ==> Join(xs, sep) == ""
    ensures xs != [] ==> StartsWith(Join(xs, sep), xs[0]) && EndsWith(Join(xs, sep), xs[|xs| - 1])
    decreases |xs|
  {
    if |xs| > 1 {
      var tail := xs[1..];
      var last := xs[|xs| - 1];
      assert tail[|tail| - 1] == last;
      JoinEnds(tail, sep);
      var rest := Join(tail, sep);
      var r := Join(xs, sep);
      assert r == xs[0] + sep + rest;
      assert r[..|xs[0]|] == xs[0];
      assert r[|r| - |last|..] == rest[|rest| - |last|..];
    }
  }

  /** Joining grows from the left: appending a piece appends a separator and that piece. */
  lemma {:induction false} JoinAppend(xs: seq<string>, x: string, sep: string)
    requires xs != []
    ensures Join(xs + [x], sep) == Join(xs, sep) + sep + x
  {
    if |xs| == 1 {
      assert xs + [x] == [xs[0], x];
    } else {
      assert (xs + [x])[1..] == xs[1..] + [x];
      JoinAppend(xs[1..], x, sep);
    }
  }

  /** Every piece is a substring of the joined text. */
  lemma {:induction false} JoinContainsEach(xs: seq<string>, sep: string, k: nat)
    requires k < |xs|
    ensures Occurs(Join(xs, sep), xs[k])
  {
    var j := Join(xs, sep);
    if |xs| == 1 {
      assert OccursAt(j, xs[k], 0);
    } else if k == 0 {
      assert j[..|xs[0]|] == xs[0];
      assert OccursAt(j, xs[0], 0);
    } else {
      JoinContainsEach(xs[1..], sep, k - 1);
      var rest := Join(xs[1..], sep);
      var i :| OccursAt(rest, xs[k], i);
      var off := |xs[0]| + |sep|;
      assert j == xs[0] + sep + rest;
      assert j[off + i..off + i + |xs[k]|] == rest[i..i + |xs[k]|];
      assert OccursAt(j, xs[k], off + i);
    }
  }
}
