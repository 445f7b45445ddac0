/** Option and a few facts about strings that the other modules share. */
module Basics {
  datatype Option<+T> = None | Some(value: T)

  /** What the caller of an I/O operation sees, and what really happened. An operation can
      take effect although its acknowledgement is lost. */
  datatype Outcome =
    | Acked    // took effect, reported as a success
    | Unacked  // took effect, reported as an error
    | Refused  // no effect, reported as an error
  {
    predicate Applied() {
      !Refused?
    }
  }

  /** `s` has `part` somewhere in it. */
  predicate Contains(s: string, part: string) {
    part <= s || (s != [] && Contains(s[1..], part))
  }

  /** `part` occurs in `s` at some place. */
  ghost predicate OccursIn(part: string, s: string) {
    exists i | 0 <= i <= |s| :: part <= s[i..]
  }

  lemma {:induction false} ContainsAnywhere(s: string, part: string)
    ensures Contains(s, part) <==> OccursIn(part, s)
  {
    assert s[0..] == s;
    if s != [] {
      var rest := s[1..];
      ContainsAnywhere(rest, part);
      forall i | 0 <= i <= |rest| ensures rest[i..] == s[i + 1..] {
      }
      if OccursIn(part, s) {
        var i :| 0 <= i <= |s| && part <= s[i..];
        assert i > 0 ==> rest[i - 1..] == s[i..];
      }
      if OccursIn(part, rest) {
        var i :| 0 <= i <= |rest| && part <= rest[i..];
        assert s[i + 1..] == rest[i..];
      }
    }
  }

  /** Splits `s` at the last `c`. */
  function SplitLast(s: string, c: char): Option<(string, string)> {
    if s == [] then None
    else if s[|s| - 1] == c then Some((s[..|s| - 1], []))
    else
      match SplitLast(s[..|s| - 1], c)
      case None => None
      case Some((left, right)) => Some((left, right + [s[|s| - 1]]))
  }

  /** Splits `s` at the first `c`, as Go's strings.Cut does. */
  function SplitFirst(s: string, c: char): Option<(string, string)> {
    if s == [] then None
    else if s[0] == c then Some(([], s[1..]))
    else
      match SplitFirst(s[1..], c)
      case None => None
      case Some((left, right)) => Some(([s[0]] + left, right))
  }

  lemma {:induction false} SplitLastOfJoin(left: string, c: char, right: string)
    requires c !in right
    ensures SplitLast(left + [c] + right, c) == Some((left, right))
  {
    var s := left + [c] + right;
    if right == [] {
      assert s[..|s| - 1] == left;
    } else {
      var front := right[..|right| - 1];
      SplitLastOfJoin(left, c, front);
      assert s[..|s| - 1] == left + [c] + front;
      assert front + [right[|right| - 1]] == right;
      assert s[|s| - 1] == right[|right| - 1];
    }
  }

  lemma {:induction false} SplitFirstOfJoin(left: string, c: char, right: string)
    requires c !in left
    ensures SplitFirst(left + [c] + right, c) == Some((left, right))
  {
    var s := left + [c] + right;
    if left == [] {
      assert s[1..] == right;
    } else {
      SplitFirstOfJoin(left[1..], c, right);
      assert s[1..] == left[1..] + [c] + right;
      assert [left[0]] + left[1..] == left;
    }
  }
}
