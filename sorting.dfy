/**
 * Python's `sorted(events, key=lambda e: e.renewal_date)`: a stable sort of
 * renewal events by date, written as insertion sort. Stability is stated as:
 * for every date, the events with that date appear in the output in the
 * same order as in the input.
 */
module Sorting {
  import opened Time
  import opened Entities

  predicate SortedByDate(s: seq<RenewalEvent>)
  {
    forall i, j :: 0 <= i < j < |s| ==> s[i].renewalDate <= s[j].renewalDate
  }

  /** The events of `s` dated `d`, in the order of `s`. */
  function WithDate(s: seq<RenewalEvent>, d: Instant): seq<RenewalEvent>
  {
    if s == [] then []
    else (if s[0].renewalDate == d then [s[0]] else []) + WithDate(s[1..], d)
  }

  /** Puts `x` in front of the first event of `s` dated no earlier than it. */
  function Insert(x: RenewalEvent, s: seq<RenewalEvent>): seq<RenewalEvent>
  {
    if s == [] then [x]
    else if x.renewalDate <= s[0].renewalDate then [x] + s
    else [s[0]] + Insert(x, s[1..])
  }

  /** Insertion adds exactly `x`. */
  lemma {:induction false} InsertMultiset(x: RenewalEvent, s: seq<RenewalEvent>)
    ensures multiset(Insert(x, s)) == multiset(s) + multiset{x}
  {
    if s != [] && x.renewalDate > s[0].renewalDate {
      InsertMultiset(x, s[1..]);
      assert s == [s[0]] + s[1..];
    }
  }

  /** Every event of `Insert(x, s)` is `x` or an event of `s`. */
  lemma InsertMember(x: RenewalEvent, s: seq<RenewalEvent>, k: nat)
    requires k < |Insert(x, s)|
    ensures Insert(x, s)[k] == x || Insert(x, s)[k] in s
  {
    InsertMultiset(x, s);
    assert Insert(x, s)[k] in multiset(Insert(x, s));
  }

  /** Insertion into a sorted list keeps it sorted. */
  lemma {:induction false} InsertSorted(x: RenewalEvent, s: seq<RenewalEvent>)
    requires SortedByDate(s)
    ensures SortedByDate(Insert(x, s))
  {
    if s != [] && x.renewalDate > s[0].renewalDate {
      InsertSorted(x, s[1..]);
      var t := Insert(x, s[1..]);
      forall k | 0 <= k < |t| ensures s[0].renewalDate <= t[k].renewalDate {
        InsertMember(x, s[1..], k);
      }
    }
  }

  /** Inserting `x` into a sorted list puts it before every event that shares its date. */
  lemma {:induction false} InsertWithDate(x: RenewalEvent, s: seq<RenewalEvent>, d: Instant)
    requires SortedByDate(s)
    ensures WithDate(Insert(x, s), d) == (if x.renewalDate == d then [x] else []) + WithDate(s, d)
  {
    if s == [] {
      assert Insert(x, s) == [x];
      assert [x][1..] == [];
    } else if x.renewalDate <= s[0].renewalDate {
      var r := [x] + s;
      assert r[0] == x && r[1..] == s;
    } else {
      InsertWithDate(x, s[1..], d);
      var r := [s[0]] + Insert(x, s[1..]);
      assert r[0] == s[0] && r[1..] == Insert(x, s[1..]);
    }
  }

  /** The stable sort by renewal date. */
  function SortByDate(s: seq<RenewalEvent>): (r: seq<RenewalEvent>)
    ensures SortedByDate(r)
    ensures multiset(r) == multiset(s)
    ensures forall d :: WithDate(r, d) == WithDate(s, d)
  {
    if s == [] then []
    else
      var rest := SortByDate(s[1..]);
      assert s == [s[0]] + s[1..];
      InsertMultiset(s[0], rest);
      InsertSorted(s[0], rest);
      assert forall d :: WithDate(Insert(s[0], rest), d) == WithDate(s, d) by {
        forall d ensures WithDate(Insert(s[0], rest), d) == WithDate(s, d) {
          InsertWithDate(s[0], rest, d);
        }
      }
      Insert(s[0], rest)
  }
}
