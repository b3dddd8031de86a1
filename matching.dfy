/**
 * The match classification every adapter's `_classify` re-implements: a
 * match is exact when its trimmed, upper-cased name equals the trimmed,
 * upper-cased searched name; the other matches are the similar ones.
 */
module Matching {
  import opened Text
  import opened Base

  /** `s.strip().upper()`: the form in which names are compared. */
  function NameKey(s: string): string {
    Upper(Strip(s))
  }

  /** `[m for m in ms if m.name.strip().upper() == key]` */
  function ExactMatches(ms: seq<EntityMatch>, key: string): (r: seq<EntityMatch>)
    ensures |r| <= |ms|
  {
    if ms == [] then []
    else (if NameKey(ms[0].name) == key then [ms[0]] else []) + ExactMatches(ms[1..], key)
  }

  /** The matches whose name is not exact, in their original order. */
  function NonExactMatches(ms: seq<EntityMatch>, key: string): (r: seq<EntityMatch>)
    ensures |r| <= |ms|
  {
    if ms == [] then []
    else (if NameKey(ms[0].name) != key then [ms[0]] else []) + NonExactMatches(ms[1..], key)
  }

  /** `[m for m in ms if m not in excluded]`, with Python's value equality on matches. */
  function Without(ms: seq<EntityMatch>, excluded: seq<EntityMatch>): (r: seq<EntityMatch>)
    ensures |r| <= |ms|
  {
    if ms == [] then []
    else (if ms[0] !in excluded then [ms[0]] else []) + Without(ms[1..], excluded)
  }

  /** `[m.name for m in ms]` */
  function Names(ms: seq<EntityMatch>): (r: seq<string>)
    ensures |r| == |ms|
    ensures forall i :: 0 <= i < |ms| ==> r[i] == ms[i].name
  {
    if ms == [] then [] else [ms[0].name] + Names(ms[1..])
  }

  /** Some match of `ms` is exact for `key`. */
  predicate HasExact(ms: seq<EntityMatch>, key: string) {
    exists m :: m in ms && NameKey(m.name) == key
  }

  /** The exact matches are precisely the members of `ms` with the searched key. */
  lemma {:induction false} ExactMembers(ms: seq<EntityMatch>, key: string, m: EntityMatch)
    ensures m in ExactMatches(ms, key) <==> m in ms && NameKey(m.name) == key
  {
    if ms != [] {
      ExactMembers(ms[1..], key, m);
      assert m in ms <==> m == ms[0] || m in ms[1..];
    }
  }

  /** The non-exact matches are precisely the members of `ms` with another key. */
  lemma {:induction false} NonExactMembers(ms: seq<EntityMatch>, key: string, m: EntityMatch)
    ensures m in NonExactMatches(ms, key) <==> m in ms && NameKey(m.name) != key
  {
    if ms != [] {
      NonExactMembers(ms[1..], key, m);
      assert m in ms <==> m == ms[0] || m in ms[1..];
    }
  }

  /** There is an exact match exactly when the list of exact matches is non-empty. */
  lemma ExactNonEmpty(ms: seq<EntityMatch>, key: string)
    ensures ExactMatches(ms, key) != [] <==> HasExact(ms, key)
  {
    var e := ExactMatches(ms, key);
    if e != [] {
      ExactMembers(ms, key, e[0]);
    }
    if HasExact(ms, key) {
      var m :| m in ms && NameKey(m.name) == key;
      ExactMembers(ms, key, m);
    }
  }

  lemma {:induction false} WithoutExactIsNonExact(ms: seq<EntityMatch>, excluded: seq<EntityMatch>, key: string)
    requires forall m :: m in ms ==> (m in excluded <==> NameKey(m.name) == key)
    ensures Without(ms, excluded) == NonExactMatches(ms, key)
  {
    if ms != [] {
      assert ms[0] in ms;
      assert forall m :: m in ms[1..] ==> m in ms;
      WithoutExactIsNonExact(ms[1..], excluded, key);
    }
  }

  lemma {:induction false} ExactSplit(ms: seq<EntityMatch>, key: string)
    ensures multiset(ExactMatches(ms, key)) + multiset(NonExactMatches(ms, key)) == multiset(ms)
  {
    if ms != [] {
      var rest := ms[1..];
      ExactSplit(rest, key);
      assert ms == [ms[0]] + rest;
      var e := ExactMatches(rest, key);
      var n := NonExactMatches(rest, key);
      if NameKey(ms[0].name) == key {
        assert ExactMatches(ms, key) == [ms[0]] + e && NonExactMatches(ms, key) == n;
        assert multiset([ms[0]] + e) == multiset([ms[0]]) + multiset(e);
      } else {
        assert ExactMatches(ms, key) == e && NonExactMatches(ms, key) == [ms[0]] + n;
        assert multiset([ms[0]] + n) == multiset([ms[0]]) + multiset(n);
      }
      assert multiset(ms) == multiset([ms[0]]) + multiset(rest);
    }
  }

  /** `[m for m in ms if m not in exact]` is exactly the non-exact matches, and
      the exact and non-exact matches together are the input, each element
      once: the classification partitions the matches. */
  lemma ExactPartition(ms: seq<EntityMatch>, key: string)
    ensures Without(ms, ExactMatches(ms, key)) == NonExactMatches(ms, key)
    ensures multiset(ExactMatches(ms, key)) + multiset(NonExactMatches(ms, key)) == multiset(ms)
    ensures |ExactMatches(ms, key)| + |NonExactMatches(ms, key)| == |ms|
  {
    forall m | m in ms ensures m in ExactMatches(ms, key) <==> NameKey(m.name) == key {
      ExactMembers(ms, key, m);
    }
    WithoutExactIsNonExact(ms, ExactMatches(ms, key), key);
    ExactSplit(ms, key);
    assert |multiset(ExactMatches(ms, key)) + multiset(NonExactMatches(ms, key))| == |multiset(ms)|;
  }

  /** With no exact match, every match is non-exact and order is unchanged. */
  lemma {:induction false} NoExactKeepsAll(ms: seq<EntityMatch>, key: string)
    requires !HasExact(ms, key)
    ensures NonExactMatches(ms, key) == ms && ExactMatches(ms, key) == []
  {
    if ms != [] {
      assert ms[0] in ms;
      assert !HasExact(ms[1..], key) by {
        forall m | m in ms[1..] ensures NameKey(m.name) != key { assert m in ms; }
      }
      NoExactKeepsAll(ms[1..], key);
    }
  }

  /** The sentence California and Florida append to an exact-match note
      when every exact match is inactive. */
  const InactiveAdvisory := " All exact matches are inactive — name may be available, but verify with an attorney."

  /** Every exact match has a lower-cased status in the state's inactive set. */
  predicate AllInactive(exact: seq<EntityMatch>, inactive: set<string>) {
    forall i :: 0 <= i < |exact| ==> Lower(exact[i].status) in inactive
  }

  /** The note of a taken result that reports statuses: the first exact
      match and its status, then the advisory when all exact matches are inactive. */
  function ExactNote(exact: seq<EntityMatch>, inactive: set<string>): string
    requires exact != []
  {
    "Exact match found: '" + exact[0].name + "' (status: " + exact[0].status + ")."
    + (if AllInactive(exact, inactive) then InactiveAdvisory else "")
  }

  predicate EndsWithAdvisory(note: string) {
    |InactiveAdvisory| <= |note| && note[|note| - |InactiveAdvisory|..] == InactiveAdvisory
  }

  /** The note names the first exact match and ends with the advisory
      exactly when every exact match is inactive. */
  lemma ExactNoteShape(exact: seq<EntityMatch>, inactive: set<string>)
    requires exact != []
    ensures StartsWith(ExactNote(exact, inactive), "Exact match found: '" + exact[0].name)
    ensures EndsWithAdvisory(ExactNote(exact, inactive)) <==> AllInactive(exact, inactive)
  {
    ExactNoteStart(exact, inactive);
    var opening := "Exact match found: '" + exact[0].name + "' (status: " + exact[0].status;
    var head := opening + ").";
    if AllInactive(exact, inactive) {
      assert ExactNote(exact, inactive) == head + InactiveAdvisory;
      AdvisoryEnds(head);
    } else {
      assert ExactNote(exact, inactive) == head + "";
      assert head + "" == head;
      ClosingParen(opening);
      NoAdvisoryEnd(head);
    }
  }

  lemma ExactNoteStart(exact: seq<EntityMatch>, inactive: set<string>)
    requires exact != []
    ensures StartsWith(ExactNote(exact, inactive), "Exact match found: '" + exact[0].name)
  {
    var prefix := "Exact match found: '" + exact[0].name;
    var tail := if AllInactive(exact, inactive) then InactiveAdvisory else "";
    assert ExactNote(exact, inactive) == prefix + ("' (status: " + exact[0].status + ")." + tail);
    StartsWithAppend(prefix, "' (status: " + exact[0].status + ")." + tail);
  }

  lemma StartsWithAppend(a: string, b: string)
    ensures StartsWith(a + b, a)
  {
    assert (a + b)[..|a|] == a;
  }

  lemma ClosingParen(opening: string)
    ensures |opening + ")."| >= 2 && (opening + ").")[|opening + ")."| - 2..] == ")."
  {
    var head := opening + ").";
    assert head[|head| - 2] == ')' && head[|head| - 1] == '.';
  }

  lemma AdvisoryEnds(head: string)
    ensures EndsWithAdvisory(head + InactiveAdvisory)
  {
    assert (head + InactiveAdvisory)[|head|..] == InactiveAdvisory;
  }

  /** A note without the advisory ends with the `(status: ...).` sentence,
      whose closing `).` the advisory (ending in `.` after `attorney`) never
      matches. */
  lemma NoAdvisoryEnd(head: string)
    requires |head| >= 2 && head[|head| - 2..] == ")."
    ensures !EndsWithAdvisory(head)
  {
    assert InactiveAdvisory[|InactiveAdvisory| - 2] == 'y';
  }
}
