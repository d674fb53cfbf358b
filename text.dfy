/**
 * Substring matching as the worker uses it: `String.prototype.includes`
 * (case-sensitive, unanchored) and `Array.prototype.some` over a table of
 * patterns.
 */
module Text {

  /** `pattern` occurs in `s` starting at offset `i`. */
  ghost predicate OccursAt(s: string, pattern: string, i: int)
  {
    0 <= i && i + |pattern| <= |s| && s[i..i + |pattern|] == pattern
  }

  /** `pattern` is a contiguous piece of `s`. */
  ghost predicate Contains(s: string, pattern: string)
  {
    exists i :: OccursAt(s, pattern, i)
  }

  /** `s` contains at least one of the `patterns`. */
  ghost predicate ContainsAny(s: string, patterns: seq<string>)
  {
    exists k :: 0 <= k < |patterns| && Contains(s, patterns[k])
  }

  /** `s.includes(pattern)`: scans the offsets of `s` from left to right. */
  function Includes(s: string, pattern: string): bool
    decreases |s|
  {
    if |pattern| > |s| then false
    else if s[..|pattern|] == pattern then true
    else Includes(s[1..], pattern)
  }

  /** `patterns.some(p => s.includes(p))`. */
  function IncludesAny(s: string, patterns: seq<string>): bool
    decreases |patterns|
  {
    |patterns| > 0 && (Includes(s, patterns[0]) || IncludesAny(s, patterns[1..]))
  }

  /** The scan finds the pattern exactly when it occurs somewhere. */
  lemma {:induction false} IncludesIsContains(s: string, pattern: string)
    ensures Includes(s, pattern) <==> Contains(s, pattern)
    decreases |s|
  {
    if |pattern| > |s| {
    } else if s[..|pattern|] == pattern {
      assert OccursAt(s, pattern, 0);
    } else {
      IncludesIsContains(s[1..], pattern);
      if Includes(s[1..], pattern) {
        var i :| OccursAt(s[1..], pattern, i);
        var inTail, inWhole := s[1..][i..i + |pattern|], s[i + 1..i + 1 + |pattern|];
        assert forall j :: 0 <= j < |inWhole| ==> inWhole[j] == inTail[j];
        assert OccursAt(s, pattern, i + 1);
      }
      if Contains(s, pattern) {
        var i :| OccursAt(s, pattern, i);
        assert i != 0;
        var inTail, inWhole := s[1..][i - 1..i - 1 + |pattern|], s[i..i + |pattern|];
        assert forall j :: 0 <= j < |inTail| ==> inTail[j] == inWhole[j];
        assert OccursAt(s[1..], pattern, i - 1);
      }
    }
  }

  /** `some` over the table is true exactly when one of its patterns occurs. */
  lemma {:induction false} IncludesAnyIsContainsAny(s: string, patterns: seq<string>)
    ensures IncludesAny(s, patterns) <==> ContainsAny(s, patterns)
    decreases |patterns|
  {
    if |patterns| > 0 {
      IncludesIsContains(s, patterns[0]);
      IncludesAnyIsContainsAny(s, patterns[1..]);
      if ContainsAny(s, patterns) && !Contains(s, patterns[0]) {
        var k :| 0 <= k < |patterns| && Contains(s, patterns[k]);
        assert patterns[1..][k - 1] == patterns[k];
      }
      if ContainsAny(s, patterns[1..]) {
        var k :| 0 <= k < |patterns| - 1 && Contains(s, patterns[1..][k]);
        assert patterns[k + 1] == patterns[1..][k];
      }
    }
  }
}
