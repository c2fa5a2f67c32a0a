/** The optional value used for "no match", "no separator found" and similar outcomes. */
module Wrappers {

  datatype Option<+T> = None | Some(value: T) {

    /** The value inside Some, or the given default when None. */
    function GetOr(default: T): T
    {
      match this
      case Some(v) => v
      case None => default
    }
  }
}

/** Substring search over strings, shared by the URL splitter and the argument builder. */
module Strings {

  /** `p` occurs in `s` at position `j`. */
  predicate OccursAt(s: string, p: string, j: int)
  {
    0 <= j && j + |p| <= |s| && s[j..j + |p|] == p
  }

  /** `p` occurs somewhere in `s` (the .NET `string.Contains` relation). */
  ghost predicate Contains(s: string, p: string)
  {
    exists j :: OccursAt(s, p, j)
  }

  /** A string shorter than the pattern cannot contain it. */
  lemma ShortNotContains(s: string, p: string)
    requires |s| < |p|
    ensures !Contains(s, p)
  {
  }

  /** A string that lacks one of the pattern's characters cannot contain it. */
  lemma MissingCharNotContains(s: string, p: string, c: char)
    requires c in p && c !in s
    ensures !Contains(s, p)
  {
    var k :| 0 <= k < |p| && p[k] == c;
    forall j
      ensures !OccursAt(s, p, j)
    {
      if 0 <= j && j + |p| <= |s| {
        assert s[j..j + |p|][k] == s[j + k];
      }
    }
  }

  /** A prefix of `s[j..]` equal to `p` is an occurrence of `p` in `s`. */
  lemma OccursAtWitness(s: string, p: string, j: nat)
    requires j + |p| <= |s| && s[j..j + |p|] == p
    ensures Contains(s, p)
  {
    assert OccursAt(s, p, j);
  }

  /**
   * An occurrence of `p` in `a + b` lies inside `a` or inside `b` when the
   * characters on one side of the seam are not characters of `p`: no
   * occurrence can then straddle the seam.
   */
  lemma NotContainsConcat(a: string, b: string, p: string)
    requires !Contains(a, p) && !Contains(b, p)
    requires (a != [] && a[|a| - 1] !in p) || (b != [] && b[0] !in p)
    ensures !Contains(a + b, p)
  {
    var s := a + b;
    forall j
      ensures !OccursAt(s, p, j)
    {
      if j < 0 || j + |p| > |s| {
      } else if j + |p| <= |a| {
        assert s[j..j + |p|] == a[j..j + |p|];
        assert !OccursAt(a, p, j);
      } else if j >= |a| {
        assert s[j..j + |p|] == b[j - |a|..j - |a| + |p|];
        assert !OccursAt(b, p, j - |a|);
      } else if a != [] && a[|a| - 1] !in p {
        assert s[j..j + |p|][|a| - 1 - j] == a[|a| - 1];
      } else {
        assert s[j..j + |p|][|a| - j] == b[0];
      }
    }
  }
}
