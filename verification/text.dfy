/** The pieces of Go's `strings` and `unicode` packages, and the
    `utils.Reverse` helper, whose exact behaviour the git wrappers' results
    depend on. Go strings are byte sequences; here they are sequences of
    Unicode scalar values, so invalid UTF-8 is not represented. */
module Text {

  /** `unicode.IsSpace`: the Latin-1 spaces '\t', '\n', '\v', '\f', '\r',
      ' ', U+0085 and U+00A0, and outside Latin-1 the White_Space
      property: U+1680, U+2000 to U+200A, U+2028, U+2029, U+202F, U+205F
      and U+3000. */
  predicate IsSpace(c: char) {
    || c == '\t' || c == '\n' || c == '\U{0B}' || c == '\U{0C}' || c == '\r' || c == ' '
    || c == '\U{85}' || c == '\U{A0}'
    || c == '\U{1680}'
    || ('\U{2000}' <= c <= '\U{200A}')
    || c == '\U{2028}' || c == '\U{2029}' || c == '\U{202F}' || c == '\U{205F}'
    || c == '\U{3000}'
  }

  /** Neither the first nor the last character of `s` is a space. */
  predicate NoEdgeSpace(s: string) {
    s == [] || (!IsSpace(s[0]) && !IsSpace(s[|s| - 1]))
  }

  /** `r` sits at offset `a` of `s` with only spaces before and after it. */
  predicate TrimmedAt(s: string, r: string, a: int) {
    && 0 <= a && a + |r| <= |s|
    && s[a..a + |r|] == r
    && (forall j :: 0 <= j < a ==> IsSpace(s[j]))
    && (forall j :: a + |r| <= j < |s| ==> IsSpace(s[j]))
  }

  /** End of the run of spaces that starts at `from`. */
  function SpacesEnd(s: string, from: nat): (k: nat)
    requires from <= |s|
    ensures from <= k <= |s|
    ensures forall j :: from <= j < k ==> IsSpace(s[j])
    ensures k < |s| ==> !IsSpace(s[k])
    decreases |s| - from
  {
    if from < |s| && IsSpace(s[from]) then SpacesEnd(s, from + 1) else from
  }

  /** Start of the run of spaces that ends at `upto`, not going below `low`. */
  function SpacesStart(s: string, low: nat, upto: nat): (k: nat)
    requires low <= upto <= |s|
    ensures low <= k <= upto
    ensures forall j :: k <= j < upto ==> IsSpace(s[j])
    ensures k > low ==> !IsSpace(s[k - 1])
    decreases upto
  {
    if upto > low && IsSpace(s[upto - 1]) then SpacesStart(s, low, upto - 1) else upto
  }

  /** `strings.TrimSpace`: `s` without its leading and trailing spaces. */
  function TrimSpace(s: string): (r: string)
    ensures NoEdgeSpace(r)
    ensures TrimmedAt(s, r, SpacesEnd(s, 0))
  {
    var a := SpacesEnd(s, 0);
    var b := SpacesStart(s, a, |s|);
    s[a..b]
  }

  /** The two properties of `TrimSpace` determine its result: any infix of
      `s` surrounded by spaces and not itself starting or ending with one
      is `TrimSpace(s)`. */
  lemma TrimSpaceUnique(s: string, r: string, a: int)
    requires TrimmedAt(s, r, a) && NoEdgeSpace(r)
    ensures r == TrimSpace(s)
  {
    var t := TrimSpace(s);
    var b := SpacesEnd(s, 0);
    assert TrimmedAt(s, t, b);
    if r == [] {
      assert forall j :: 0 <= j < |s| ==> IsSpace(s[j]);
      assert b == |s|;
    } else {
      assert s[a] == r[0];
      assert a == b;
      assert s[a + |r| - 1] == r[|r| - 1];
      assert |r| == |t|;
    }
  }

  /** Trimming twice is trimming once. */
  lemma TrimSpaceIdempotent(s: string)
    ensures TrimSpace(TrimSpace(s)) == TrimSpace(s)
  {
    var t := TrimSpace(s);
    assert t[0..0 + |t|] == t;
    assert TrimmedAt(t, t, 0);
    TrimSpaceUnique(t, t, 0);
  }

  /** `t` occurs in `s` starting at index `i`. */
  predicate OccursAt(s: string, t: string, i: int) {
    0 <= i && i + |t| <= |s| && s[i..i + |t|] == t
  }

  /** `strings.Contains`, scanning from the left. */
  function Contains(s: string, t: string): bool
    decreases |s|
  {
    if |t| <= |s| && s[..|t|] == t then true
    else if |s| == 0 then false
    else Contains(s[1..], t)
  }

  /** `Contains` agrees with the definition by occurrence. */
  lemma {:induction false} ContainsIffOccurs(s: string, t: string)
    ensures Contains(s, t) <==> exists i :: OccursAt(s, t, i)
    decreases |s|
  {
    if |t| <= |s| && s[..|t|] == t {
      assert OccursAt(s, t, 0);
    } else if |s| == 0 {
    } else {
      if |t| <= |s| {
        assert s[..|t|] == s[0..0 + |t|];
      }
      ContainsIffOccurs(s[1..], t);
      if exists i :: OccursAt(s[1..], t, i) {
        var i :| OccursAt(s[1..], t, i);
        assert s[1..][i..i + |t|] == s[i + 1..i + 1 + |t|];
        assert OccursAt(s, t, i + 1);
      }
      if exists i :: OccursAt(s, t, i) {
        var i :| OccursAt(s, t, i);
        assert i > 0;
        assert s[1..][i - 1..i - 1 + |t|] == s[i..i + |t|];
        assert OccursAt(s[1..], t, i - 1);
      }
    }
  }

  /** `utils.Reverse`. */
  function Reverse<T>(s: seq<T>): (r: seq<T>)
    ensures |r| == |s|
    ensures forall i :: 0 <= i < |s| ==> r[i] == s[|s| - 1 - i]
  {
    if s == [] then [] else Reverse(s[1..]) + [s[0]]
  }

  lemma ReverseInvolution<T>(s: seq<T>)
    ensures Reverse(Reverse(s)) == s
  {
    assert forall i :: 0 <= i < |s| ==> Reverse(Reverse(s))[i] == s[i];
  }
}
