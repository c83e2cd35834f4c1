/** String helpers with the meaning JavaScript gives them. */
module Text {

  /** `s.startsWith(p)`. */
  predicate StartsWith(s: string, p: string) {
    |p| <= |s| && s[..|p|] == p
  }

  /** `s.includes(t)`: some position of `s` starts an occurrence of `t`. */
  predicate Contains(s: string, t: string)
    decreases |s|
  {
    StartsWith(s, t) || (|s| > 0 && Contains(s[1..], t))
  }

  /** The reference meaning of `Contains`: an occurrence at an explicit index. */
  ghost predicate OccursAt(s: string, t: string, i: int) {
    0 <= i && i + |t| <= |s| && s[i..i + |t|] == t
  }

  /** An occurrence found by `Contains` sits at an explicit index. */
  lemma {:induction false} OccurrenceOf(s: string, t: string) returns (i: int)
    requires Contains(s, t)
    ensures OccursAt(s, t, i)
    decreases |s|
  {
    if StartsWith(s, t) {
      i := 0;
    } else {
      var j := OccurrenceOf(s[1..], t);
      assert s[1..][j..j + |t|] == s[j + 1..j + 1 + |t|];
      i := j + 1;
    }
  }

  /** An occurrence at any index is found by `Contains`. */
  lemma {:induction false} OccursContains(s: string, t: string, i: int)
    requires OccursAt(s, t, i)
    ensures Contains(s, t)
    decreases i
  {
    if i > 0 {
      assert s[1..][i - 1..i - 1 + |t|] == s[i..i + |t|];
      OccursContains(s[1..], t, i - 1);
    }
  }

  /** `Contains` holds exactly when there is an occurrence at some index. */
  lemma ContainsIffOccurs(s: string, t: string)
    ensures Contains(s, t) <==> exists i :: OccursAt(s, t, i)
  {
    if Contains(s, t) {
      var i := OccurrenceOf(s, t);
    }
    forall i | OccursAt(s, t, i) ensures Contains(s, t) {
      OccursContains(s, t, i);
    }
  }

  /** Whatever surrounds it, a string contains itself. */
  lemma ContainsMiddle(a: string, t: string, b: string)
    ensures Contains(a + t + b, t)
  {
    var s := a + t + b;
    assert s[|a|..|a| + |t|] == t;
    OccursContains(s, t, |a|);
  }

  /** Every character of an occurring string is a character of the whole. */
  lemma ContainsChar(s: string, t: string, c: char)
    requires Contains(s, t) && c in t
    ensures c in s
  {
    var i := OccurrenceOf(s, t);
    var j :| 0 <= j < |t| && t[j] == c;
    assert s[i + j] == c;
  }

  /** `s.replace(p, "")` for a string pattern: only the first occurrence is removed. */
  function RemoveFirst(s: string, p: string): (r: string)
    requires |p| > 0
    ensures if Contains(s, p) then |r| == |s| - |p| else r == s
    ensures |r| == 0 <==> s == [] || s == p
    decreases |s|
  {
    if StartsWith(s, p) then s[|p|..]
    else if |s| == 0 then s
    else
      var r := [s[0]] + RemoveFirst(s[1..], p);
      assert Contains(s, p) ==> |s| > |p| by {
        if Contains(s, p) && |s| <= |p| { ContainsLonger(s, p); }
      }
      r
  }

  /** An occurrence is no longer than the string, and as long only when it is the string. */
  lemma ContainsLonger(s: string, t: string)
    requires Contains(s, t)
    ensures |t| <= |s| && (|t| == |s| ==> s == t)
  {
    var i := OccurrenceOf(s, t);
    if |t| == |s| { assert s[0..|t|] == s; }
  }

  /**
   * `RemoveFirst` cuts out the leftmost occurrence: it returns the index `i`
   * it cut at, before which `p` does not occur.
   */
  lemma {:induction false} RemoveFirstRemovesFirst(s: string, p: string) returns (i: int)
    requires |p| > 0 && Contains(s, p)
    ensures OccursAt(s, p, i)
    ensures forall j | 0 <= j < i :: !OccursAt(s, p, j)
    ensures RemoveFirst(s, p) == s[..i] + s[i + |p|..]
    decreases |s|
  {
    if StartsWith(s, p) {
      i := 0;
    } else {
      assert |s| > 0;
      var k := RemoveFirstRemovesFirst(s[1..], p);
      assert s[1..][k..k + |p|] == s[k + 1..k + 1 + |p|];
      i := k + 1;
      forall j | 0 <= j < i ensures !OccursAt(s, p, j) {
        if j > 0 {
          assert !OccursAt(s[1..], p, j - 1);
        }
      }
      assert s[..i] == [s[0]] + s[1..][..k];
      assert s[i + |p|..] == s[1..][k + |p|..];
    }
  }
}
