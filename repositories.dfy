/**
 * The in-memory repositories. Each wraps a Python dictionary keyed by id;
 * the dictionary is modelled as a map together with the sequence of its keys
 * in insertion order, which is the order in which `values()` yields them.
 */
module Repositories {
  import opened Wrappers
  import opened Entities
  import opened Aggregate

  /** No key occurs twice. */
  predicate Distinct(keys: seq<Id>)
  {
    forall i, j :: 0 <= i < j < |keys| ==> keys[i] != keys[j]
  }

  /** The dictionary's keys, in order, are exactly the keys of its map. */
  predicate WellOrdered<V>(order: seq<Id>, entries: map<Id, V>)
  {
    Distinct(order) && (forall k :: k in order ==> k in entries) && forall k :: k in entries ==> k in order
  }

  /** `dict.values()`: the value of every key, in key order. */
  function ValuesOf<V>(order: seq<Id>, entries: map<Id, V>): (r: seq<V>)
    requires forall k :: k in order ==> k in entries
    ensures |r| == |order|
    ensures forall i :: 0 <= i < |order| ==> r[i] == entries[order[i]]
  {
    if order == [] then []
    else ValuesOf(order[..|order| - 1], entries) + [entries[order[|order| - 1]]]
  }

  /** The key order after `del d[k]`. */
  function Without(order: seq<Id>, k: Id): (r: seq<Id>)
    ensures forall x :: x in r <==> x in order && x != k
  {
    if order == [] then []
    else Without(order[..|order| - 1], k) + (if order[|order| - 1] == k then [] else [order[|order| - 1]])
  }

  /** Dropping a key keeps the remaining keys distinct. */
  lemma {:induction false} WithoutDistinct(order: seq<Id>, k: Id)
    requires Distinct(order)
    ensures Distinct(Without(order, k))
  {
    if order != [] {
      var front := order[..|order| - 1];
      assert Distinct(front);
      WithoutDistinct(front, k);
      assert order[|order| - 1] !in front;
    }
  }

  /** Dropping a key that does not occur changes nothing. */
  lemma {:induction false} WithoutAbsent(order: seq<Id>, k: Id)
    requires k !in order
    ensures Without(order, k) == order
  {
    if order != [] {
      var front := order[..|order| - 1];
      WithoutAbsent(front, k);
      assert front + [order[|order| - 1]] == order;
    }
  }

  /** The keys of `keys`, as a set. */
  function KeySet(keys: seq<Id>): set<Id>
  {
    set k | k in keys
  }

  /** A sequence without repetitions has as many elements as its set of elements. */
  lemma {:induction false} DistinctCard(keys: seq<Id>)
    requires Distinct(keys)
    ensures |KeySet(keys)| == |keys|
  {
    if keys != [] {
      var front := keys[..|keys| - 1];
      var last := keys[|keys| - 1];
      assert forall i :: 0 <= i < |front| ==> front[i] == keys[i];
      assert Distinct(front);
      DistinctCard(front);
      assert last !in KeySet(front);
      assert KeySet(keys) == KeySet(front) + {last};
    }
  }

  /** No two subscriptions of `subs` share an id. */
  predicate DistinctIds(subs: seq<Subscription>)
    reads subs
  {
    forall i, j :: 0 <= i < j < |subs| ==> subs[i].id != subs[j].id
  }

  /** The subscriptions of `subs` that are active, in list order. */
  function ActiveOnly(subs: seq<Subscription>): (r: seq<Subscription>)
    reads subs
    ensures forall i :: 0 <= i < |r| ==> r[i] in subs && r[i].status == Active
    ensures forall i :: 0 <= i < |subs| && subs[i].status == Active ==> subs[i] in r
    ensures multiset(r) <= multiset(subs)
    ensures DistinctIds(subs) ==> DistinctIds(r)
  {
    if subs == [] then []
    else
      var last := subs[|subs| - 1];
      assert subs == subs[..|subs| - 1] + [last];
      ActiveOnly(subs[..|subs| - 1]) + (if last.status == Active then [last] else [])
  }

  /** The positions of `subs` that hold an active subscription. */
  ghost function ActivePositions(subs: seq<Subscription>): set<nat>
    reads subs
  {
    set i: nat | i < |subs| && subs[i].status == Active
  }

  /** Appending one subscription adds its position exactly when it is active. */
  lemma ActivePositionsSnoc(subs: seq<Subscription>)
    requires subs != []
    ensures ActivePositions(subs) ==
      ActivePositions(subs[..|subs| - 1]) + (if subs[|subs| - 1].status == Active then {|subs| - 1} else {})
  {
    var n := |subs| - 1;
    forall i: nat | i < n
      ensures i in ActivePositions(subs) <==> i in ActivePositions(subs[..n])
    {
      assert subs[..n][i] == subs[i];
    }
  }

  /** The filter keeps one entry per active position, so its length counts the active subscriptions. */
  lemma {:induction false} ActiveOnlyCount(subs: seq<Subscription>)
    ensures |ActiveOnly(subs)| == |ActivePositions(subs)|
  {
    if subs != [] {
      var n := |subs| - 1;
      ActiveOnlyCount(subs[..n]);
      ActivePositionsSnoc(subs);
      assert n !in ActivePositions(subs[..n]);
    }
  }

  /** The filter distributes over concatenation, so it keeps the list order. */
  lemma {:induction false} ActiveOnlyConcat(a: seq<Subscription>, b: seq<Subscription>)
    ensures ActiveOnly(a + b) == ActiveOnly(a) + ActiveOnly(b)
    decreases |b|
  {
    if b == [] {
      assert a + b == a;
    } else {
      var n := |b| - 1;
      assert (a + b)[..|a + b| - 1] == a + b[..n];
      ActiveOnlyConcat(a, b[..n]);
    }
  }

  /** The subscriptions of `subs` with provider `providerId`, in list order. */
  function OfProvider(subs: seq<Subscription>, providerId: Id): (r: seq<Subscription>)
    reads subs
    ensures forall i :: 0 <= i < |r| ==> r[i] in subs && r[i].provider.id == providerId
    ensures forall i :: 0 <= i < |subs| && subs[i].provider.id == providerId ==> subs[i] in r
    ensures multiset(r) <= multiset(subs)
    ensures DistinctIds(subs) ==> DistinctIds(r)
  {
    if subs == [] then []
    else
      var last := subs[|subs| - 1];
      assert subs == subs[..|subs| - 1] + [last];
      OfProvider(subs[..|subs| - 1], providerId) + (if last.provider.id == providerId then [last] else [])
  }

  /** The provider filter distributes over concatenation, so it keeps the list order. */
  lemma {:induction false} OfProviderConcat(a: seq<Subscription>, b: seq<Subscription>, providerId: Id)
    ensures OfProvider(a + b, providerId) == OfProvider(a, providerId) + OfProvider(b, providerId)
    decreases |b|
  {
    if b == [] {
      assert a + b == a;
    } else {
      var n := |b| - 1;
      assert (a + b)[..|a + b| - 1] == a + b[..n];
      OfProviderConcat(a, b[..n], providerId);
    }
  }

  /** InMemorySubscriptionRepository: subscriptions stored under their own id. */
  class SubscriptionRepository {
    var order: seq<Id>
    var entries: map<Id, Subscription>

    /** The key order matches the map and every subscription is stored under its id. */
    ghost predicate Valid()
      reads this
    {
      WellOrdered(order, entries) && forall k :: k in entries ==> entries[k].id == k
    }

    constructor ()
      ensures Valid() && order == [] && entries == map[]
    {
      order := [];
      entries := map[];
    }

    /** `find_by_id`: the subscription stored under `id`, if any. */
    function FindById(id: Id): (r: Option<Subscription>)
      reads this
      requires Valid()
      ensures r.Some? <==> id in entries
      ensures r.Some? ==> r.value == entries[id] && r.value.id == id
    {
      if id in entries then Some(entries[id]) else None
    }

    /** `find_all`: every stored subscription once, in insertion order. */
    function FindAll(): (r: seq<Subscription>)
      reads this
      requires Valid()
      ensures |r| == |order|
      ensures forall i :: 0 <= i < |r| ==> r[i] == entries[order[i]] && r[i].id == order[i]
      ensures DistinctIds(r)
      ensures forall k :: k in entries ==> entries[k] in r
    {
      var r := ValuesOf(order, entries);
      assert forall k :: k in entries ==> entries[k] in r by {
        forall k | k in entries ensures entries[k] in r {
          var i :| 0 <= i < |order| && order[i] == k;
          assert r[i] == entries[k];
        }
      }
      r
    }

    /** Every subscription `find_all` lists is the value stored under its own id. */
    lemma AllStored()
      requires Valid()
      ensures forall s :: s in FindAll() ==> s in entries.Values && s.id in entries && entries[s.id] == s
    {
      var all := FindAll();
      forall s | s in all
        ensures s in entries.Values && s.id in entries && entries[s.id] == s
      {
        var i :| 0 <= i < |all| && all[i] == s;
        assert all[i] == entries[order[i]];
      }
    }

    /** `find_active`: the active subscriptions, each once, in insertion order (see `ActiveOnlyConcat`). */
    function FindActive(): (r: seq<Subscription>)
      reads this, entries.Values
      requires Valid()
      ensures forall i :: 0 <= i < |r| ==> r[i].id in entries && entries[r[i].id] == r[i] && r[i].status == Active
      ensures forall k :: k in entries && entries[k].status == Active ==> entries[k] in r
      ensures DistinctIds(r) && multiset(r) <= multiset(FindAll())
    {
      var all := FindAll();
      AllStored();
      ActiveOnly(all)
    }

    /** `find_by_provider`: the subscriptions of one provider, each once, in insertion order (see `OfProviderConcat`). */
    function FindByProvider(providerId: Id): (r: seq<Subscription>)
      reads this, entries.Values
      requires Valid()
      ensures forall i :: 0 <= i < |r| ==>
        r[i].id in entries && entries[r[i].id] == r[i] && r[i].provider.id == providerId
      ensures forall k :: k in entries && entries[k].provider.id == providerId ==> entries[k] in r
      ensures DistinctIds(r) && multiset(r) <= multiset(FindAll())
    {
      var all := FindAll();
      AllStored();
      OfProvider(all, providerId)
    }

    /** `save`: stores `s` under its id, replacing a previous entry in place or appending a new key. */
    method Save(s: Subscription)
      modifies this
      requires Valid()
      ensures Valid()
      ensures entries == old(entries)[s.id := s]
      ensures order == if s.id in old(entries) then old(order) else old(order) + [s.id]
      ensures FindById(s.id) == Some(s)
    {
      if s.id !in entries {
        order := order + [s.id];
      }
      entries := entries[s.id := s];
    }

    /** `delete`: forgets the entry under `id`; nothing happens when there is none. */
    method Delete(id: Id)
      modifies this
      requires Valid()
      ensures Valid()
      ensures entries == old(entries) - {id}
      ensures order == Without(old(order), id)
      ensures id !in old(entries) ==> order == old(order)
      ensures FindById(id) == None
    {
      var newOrder := Without(order, id);
      WithoutDistinct(order, id);
      if id !in entries {
        WithoutAbsent(order, id);
      }
      order := newOrder;
      entries := entries - {id};
    }
  }

  /** `str.lower()` on one character, for the ASCII letters. */
  function LowerChar(c: char): (r: char)
    ensures 'A' <= c <= 'Z' ==> r as int == c as int + 32
    ensures !('A' <= c <= 'Z') ==> r == c
    ensures !('A' <= r <= 'Z')
  {
    if 'A' <= c <= 'Z' then (c as int + 32) as char else c
  }

  /** `str.lower()`, for the ASCII letters. */
  function Lower(s: string): (r: string)
    ensures |r| == |s|
    ensures forall i :: 0 <= i < |s| ==> r[i] == LowerChar(s[i])
  {
    seq(|s|, i requires 0 <= i < |s| => LowerChar(s[i]))
  }

  /** Two names match when they are equal ignoring ASCII case. */
  predicate SameName(a: string, b: string)
  {
    Lower(a) == Lower(b)
  }

  /** InMemoryProviderRepository: providers stored under their own id. */
  class ProviderRepository {
    var order: seq<Id>
    var entries: map<Id, Provider>

    /** The key order matches the map and every provider is stored under its id. */
    ghost predicate Valid()
      reads this
    {
      WellOrdered(order, entries) && forall k :: k in entries ==> entries[k].id == k
    }

    constructor ()
      ensures Valid() && order == [] && entries == map[]
    {
      order := [];
      entries := map[];
    }

    /** `find_by_id`: the provider stored under `id`, if any. */
    function FindById(id: Id): (r: Option<Provider>)
      reads this
      requires Valid()
      ensures r.Some? <==> id in entries
      ensures r.Some? ==> r.value == entries[id] && r.value.id == id
    {
      if id in entries then Some(entries[id]) else None
    }

    /** `find_all`: every stored provider once, in insertion order. */
    function FindAll(): (r: seq<Provider>)
      reads this
      requires Valid()
      ensures |r| == |order|
      ensures forall i :: 0 <= i < |r| ==> r[i] == entries[order[i]] && r[i].id == order[i]
      ensures forall k :: k in entries ==> entries[k] in r
    {
      var r := ValuesOf(order, entries);
      assert forall k :: k in entries ==> entries[k] in r by {
        forall k | k in entries ensures entries[k] in r {
          var i :| 0 <= i < |order| && order[i] == k;
          assert r[i] == entries[k];
        }
      }
      r
    }

    /** `find_by_name`: the first provider, in insertion order, whose name matches ignoring case. */
    method FindByName(name: string) returns (r: Option<Provider>)
      requires Valid()
      ensures r.None? <==> forall i :: 0 <= i < |order| ==> !SameName(entries[order[i]].name, name)
      ensures r.Some? ==> exists i ::
                && 0 <= i < |order| && r.value == entries[order[i]] && SameName(r.value.name, name)
                && forall j :: 0 <= j < i ==> !SameName(entries[order[j]].name, name)
    {
      var i := 0;
      while i < |order|
        invariant 0 <= i <= |order|
        invariant forall j :: 0 <= j < i ==> !SameName(entries[order[j]].name, name)
      {
        var provider := entries[order[i]];
        if Lower(provider.name) == Lower(name) {
          return Some(provider);
        }
        i := i + 1;
      }
      r := None;
    }

    /** `save`: stores `p` under its id, replacing a previous entry in place or appending a new key. */
    method Save(p: Provider)
      modifies this
      requires Valid()
      ensures Valid()
      ensures entries == old(entries)[p.id := p]
      ensures order == if p.id in old(entries) then old(order) else old(order) + [p.id]
      ensures FindById(p.id) == Some(p)
    {
      if p.id !in entries {
        order := order + [p.id];
      }
      entries := entries[p.id := p];
    }
  }
}
