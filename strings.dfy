/**
 * The parts of ECMAScript's string semantics that the bot relies on:
 * substring search (what an unanchored regular expression made of literals
 * tests) and `String.prototype.split` with a non-empty string separator.
 */
module Strings {
  import opened Wrappers

  /** `p` occurs in `s` starting at index `i`. */
  predicate OccursAt(s: string, p: string, i: nat) {
    i + |p| <= |s| && s[i..i + |p|] == p
  }

  /** An occurrence of `p` one position further into `s` is an occurrence in `s[1..]`. */
  lemma OccursAtTail(s: string, p: string, j: nat)
    requires |s| > 0
    ensures OccursAt(s, p, j + 1) <==> OccursAt(s[1..], p, j)
  {
  }

  /** The index of the leftmost occurrence of `p` in `s`, as `indexOf` finds it. */
  function FirstOccurrence(s: string, p: string): (r: Option<nat>)
    ensures r.Some? ==> OccursAt(s, p, r.value)
    ensures r.Some? ==> forall j: nat :: j < r.value ==> !OccursAt(s, p, j)
    ensures r.None? ==> forall j: nat :: !OccursAt(s, p, j)
    decreases |s|
  {
    if |s| < |p| then
      None
    else if s[..|p|] == p then
      assert OccursAt(s, p, 0);
      Some(0)
    else
      assert !OccursAt(s, p, 0);
      assert |s| > 0;
      var rest := FirstOccurrence(s[1..], p);
      assert forall j: nat :: OccursAt(s, p, j + 1) <==> OccursAt(s[1..], p, j) by {
        forall j: nat ensures OccursAt(s, p, j + 1) <==> OccursAt(s[1..], p, j) {
          OccursAtTail(s, p, j);
        }
      }
      match rest
      case None =>
        assert forall j: nat :: !OccursAt(s, p, j) by {
          forall j: nat ensures !OccursAt(s, p, j) {
            if j > 0 { assert !OccursAt(s[1..], p, j - 1); }
          }
        }
        None
      case Some(i) =>
        assert forall j: nat :: j < i + 1 ==> !OccursAt(s, p, j) by {
          forall j: nat | j < i + 1 ensures !OccursAt(s, p, j) {
            if j > 0 { assert !OccursAt(s[1..], p, j - 1); }
          }
        }
        Some(i + 1)
  }

  /** The substring test `s.includes(p)`, equivalently `/p/.test(s)` for a literal `p`. */
  predicate Contains(s: string, p: string) {
    FirstOccurrence(s, p).Some?
  }

  /** `Contains` holds exactly when `p` occurs somewhere in `s`. */
  lemma ContainsIff(s: string, p: string, i: nat)
    ensures OccursAt(s, p, i) ==> Contains(s, p)
    ensures Contains(s, p) ==> OccursAt(s, p, FirstOccurrence(s, p).value)
  {
  }

  /** A string that is placed between two others is found in their concatenation. */
  lemma ContainsMiddle(a: string, p: string, b: string)
    ensures Contains(a + p + b, p)
  {
    assert (a + p + b)[|a|..|a| + |p|] == p;
    ContainsIff(a + p + b, p, |a|);
  }

  /** A pattern longer than the text is never found in it. */
  lemma TooLongAbsent(s: string, p: string)
    requires |s| < |p|
    ensures !Contains(s, p)
  {
  }

  /** A pattern whose first character does not occur in the text is never found in it. */
  lemma FirstCharAbsent(s: string, p: string)
    requires |p| > 0 && p[0] !in s
    ensures !Contains(s, p)
  {
  }

  /** The inverse of `Split`: the pieces glued together with the separator. */
  function Join(pieces: seq<string>, sep: string): string
    requires |pieces| >= 1
  {
    if |pieces| == 1 then pieces[0] else pieces[0] + sep + Join(pieces[1..], sep)
  }

  /** The text before the leftmost occurrence of a pattern holds no occurrence of it. */
  lemma BeforeFirstOccurrence(s: string, sep: string, i: nat)
    requires |sep| > 0 && FirstOccurrence(s, sep) == Some(i)
    ensures !Contains(s[..i], sep)
  {
    var head := s[..i];
    if Contains(head, sep) {
      var j := FirstOccurrence(head, sep).value;
      assert head[j..j + |sep|] == s[j..j + |sep|];
      assert OccursAt(s, sep, j);
    }
  }

  /**
   * `s.split(sep)` for a non-empty separator: the text before the leftmost
   * occurrence, then the split of what follows it; the empty string splits
   * into `[""]`.
   */
  function Split(s: string, sep: string): (pieces: seq<string>)
    requires |sep| > 0
    ensures |pieces| >= 1
    ensures Join(pieces, sep) == s
    ensures forall k :: 0 <= k < |pieces| ==> !Contains(pieces[k], sep)
    ensures |pieces| == 1 ==> FirstOccurrence(s, sep).None?
    ensures |pieces| > 1 ==> FirstOccurrence(s, sep) == Some(|pieces[0]|)
    decreases |s|
  {
    match FirstOccurrence(s, sep)
    case None => [s]
    case Some(i) =>
      BeforeFirstOccurrence(s, sep, i);
      var tail := Split(s[i + |sep|..], sep);
      assert s == s[..i] + sep + s[i + |sep|..];
      [s[..i]] + tail
  }

  /** Splitting `sep + t`, where `t` holds no separator, gives the empty prefix and `t`. */
  lemma SplitAfterLeadingSeparator(sep: string, t: string)
    requires |sep| > 0 && !Contains(t, sep)
    ensures Split(sep + t, sep) == ["", t]
  {
  }

  /** A text that holds no separator splits into itself alone. */
  lemma SplitWithoutSeparator(s: string, sep: string)
    requires |sep| > 0 && !Contains(s, sep)
    ensures Split(s, sep) == [s]
  {
  }
}
