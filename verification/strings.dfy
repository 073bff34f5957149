/** The few java.lang.String operations the harness relies on. */
module Strings {

  /** The leading-whitespace half of String.trim(): drops every leading char at or below U+0020. */
  function TrimStart(s: string): (r: string)
    ensures |r| <= |s| && r == s[|s| - |r|..]
    ensures forall i :: 0 <= i < |s| - |r| ==> s[i] <= ' '
    ensures r == [] || r[0] > ' '
  {
    if s != [] && s[0] <= ' ' then TrimStart(s[1..]) else s
  }

  /** The trailing-whitespace half of String.trim(). */
  function TrimEnd(s: string): (r: string)
    ensures |r| <= |s| && r == s[..|r|]
    ensures forall i :: |r| <= i < |s| ==> s[i] <= ' '
    ensures r == [] || r[|r| - 1] > ' '
  {
    if s != [] && s[|s| - 1] <= ' ' then TrimEnd(s[..|s| - 1]) else s
  }

  /** String.trim(). */
  function Trim(s: string): (r: string)
    ensures |r| <= |s|
    ensures r == [] || (r[0] > ' ' && r[|r| - 1] > ' ')
    ensures exists a :: TrimmedAt(s, r, a)
  {
    var r := TrimEnd(TrimStart(s));
    TrimCutsOnlyWhitespace(s, TrimStart(s), r);
    r
  }

  /** `r` occurs in `s` at index `a`, and everything in `s` before and after it is whitespace. */
  predicate TrimmedAt(s: string, r: string, a: int)
  {
    && OccursAt(s, r, a)
    && (forall i :: 0 <= i < a ==> s[i] <= ' ')
    && (forall i :: a + |r| <= i < |s| ==> s[i] <= ' ')
  }

  /** Trimming cuts whitespace from the two ends and leaves the middle in place. */
  lemma TrimCutsOnlyWhitespace(s: string, front: string, r: string)
    requires front == TrimStart(s) && r == TrimEnd(front)
    ensures |r| <= |s|
    ensures r == [] || (r[0] > ' ' && r[|r| - 1] > ' ')
    ensures exists a :: TrimmedAt(s, r, a)
  {
    InfixOfSuffix(s, front, r);
  }

  /**
   * A prefix `r` of a suffix `front` of `s`, each cut at whitespace only, sits in `s` where `front`
   * starts, with whitespace on either side; `r` keeps the non-blank ends of both cuts.
   */
  lemma InfixOfSuffix(s: string, front: string, r: string)
    requires |front| <= |s| && front == s[|s| - |front|..]
    requires forall i :: 0 <= i < |s| - |front| ==> s[i] <= ' '
    requires front == [] || front[0] > ' '
    requires |r| <= |front| && r == front[..|r|]
    requires forall i :: |r| <= i < |front| ==> front[i] <= ' '
    requires r == [] || r[|r| - 1] > ' '
    ensures r == [] || (r[0] > ' ' && r[|r| - 1] > ' ')
    ensures TrimmedAt(s, r, |s| - |front|)
  {
    var a := |s| - |front|;
    assert r == [] || r[0] == front[0];
    assert s[a..a + |r|] == s[a..][..|r|];
    forall i | a + |r| <= i < |s|
      ensures s[i] <= ' '
    {
      assert s[i] == front[i - a];
    }
  }

  /** `s.trim().isEmpty()`: the string holds no char above U+0020. */
  function IsBlank(s: string): (blank: bool)
    ensures blank <==> forall i :: 0 <= i < |s| ==> s[i] <= ' '
  {
    var front := TrimStart(s);
    assert Trim(s) == TrimEnd(front);
    assert front != [] ==> s[|s| - |front|] == front[0];
    Trim(s) == []
  }

  /** `t` occurs in `s` starting at index `i`. */
  predicate OccursAt(s: string, t: string, i: int)
  {
    0 <= i && i + |t| <= |s| && s[i..i + |t|] == t
  }

  /** String.contains: `t` occurs in `s` at some position (the empty string occurs everywhere). */
  function Contains(s: string, t: string): (r: bool)
    ensures r <==> exists i :: OccursAt(s, t, i)
  {
    if |t| > |s| then false
    else if s[..|t|] == t then assert OccursAt(s, t, 0); true
    else
      var rest := Contains(s[1..], t);
      assert forall i :: OccursAt(s, t, i) <==> i >= 1 && OccursAt(s[1..], t, i - 1) by {
        forall i ensures OccursAt(s, t, i) <==> i >= 1 && OccursAt(s[1..], t, i - 1) {
          if 1 <= i && i + |t| <= |s| {
            var tail := s[1..];
            var here, there := s[i..i + |t|], tail[i - 1..i - 1 + |t|];
            forall k | 0 <= k < |t| ensures here[k] == there[k] {
              assert here[k] == s[i + k] == tail[i - 1 + k] == there[k];
            }
            assert here == there;
          }
        }
      }
      assert rest ==> exists i :: OccursAt(s, t, i) by {
        if rest {
          var j :| OccursAt(s[1..], t, j);
          assert OccursAt(s, t, j + 1);
        }
      }
      rest
  }

  /** Character.toLowerCase restricted to the ASCII letters. */
  function LowerChar(c: char): char
  {
    if 'A' <= c <= 'Z' then (c as int + 32) as char else c
  }

  /** String.toLowerCase restricted to the ASCII letters. */
  function ToLower(s: string): (r: string)
    ensures |r| == |s| && forall i :: 0 <= i < |s| ==> r[i] == LowerChar(s[i])
  {
    seq(|s|, i requires 0 <= i < |s| => LowerChar(s[i]))
  }

  /** Lower-casing twice is lower-casing once. */
  lemma ToLowerIdempotent(s: string)
    ensures ToLower(ToLower(s)) == ToLower(s)
  {
  }
}
