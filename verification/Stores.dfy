/** The in-memory store: a map whose listing is ordered by key (store/in_memory.go). */
module Stores {
  import opened Base
  import opened Tasks

  /** The values of a map in key order. */
  ghost function Listed<V>(db: map<Id, V>): (out: seq<V>)
    ensures |out| == |Ascending(db.Keys)|
    ensures forall i :: 0 <= i < |out| ==> Ascending(db.Keys)[i] in db && out[i] == db[Ascending(db.Keys)[i]]
  {
    AscendingIsSorted(db.Keys);
    var ids := Ascending(db.Keys);
    assert forall i :: 0 <= i < |ids| ==> ids[i] in ids;
    seq(|ids|, i requires 0 <= i < |ids| => db[ids[i]])
  }

  lemma ListedMembers<V>(db: map<Id, V>, id: Id)
    requires id in db
    ensures exists i :: 0 <= i < |Listed(db)| && Ascending(db.Keys)[i] == id && Listed(db)[i] == db[id]
  {
    AscendingIsSorted(db.Keys);
    assert id in Ascending(db.Keys);
  }

  /** The keys of a listing, smallest first. */
  method KeysInOrder(keys: set<Id>) returns (ids: seq<Id>)
    ensures ids == Ascending(keys)
  {
    ids := [];
    var rest := keys;
    while rest != {}
      invariant ids + Ascending(rest) == Ascending(keys)
      decreases rest
    {
      ghost var least := AscendingHead(rest);
      var id :| id in rest && forall y | y in rest :: id <= y;
      assert id == least;
      ids := ids + [id];
      rest := rest - {id};
    }
  }

  function InsertByKey<V>(v: V, s: seq<V>, key: V -> Id): seq<V> {
    if s == [] then [v]
    else if key(s[0]) < key(v) then [s[0]] + InsertByKey(v, s[1..], key)
    else [v] + s
  }

  function SortByKey<V>(s: seq<V>, key: V -> Id): seq<V> {
    if s == [] then [] else InsertByKey(s[0], SortByKey(s[1..], key), key)
  }

  ghost predicate KeyAscending<V>(s: seq<V>, key: V -> Id) {
    forall i, j :: 0 <= i < j < |s| ==> key(s[i]) < key(s[j])
  }

  lemma {:induction false} IndexOf<V>(s: seq<V>, x: V) returns (i: nat)
    requires x in s
    ensures i < |s| && s[i] == x
  {
    if s[0] == x {
      i := 0;
    } else {
      assert s == [s[0]] + s[1..];
      i := IndexOf(s[1..], x);
      i := i + 1;
    }
  }

  lemma {:induction false} InsertKeepsMembers<V>(v: V, s: seq<V>, key: V -> Id)
    ensures multiset(InsertByKey(v, s, key)) == multiset(s) + multiset{v}
  {
    if s != [] {
      assert s == [s[0]] + s[1..];
      InsertKeepsMembers(v, s[1..], key);
    }
  }

  lemma {:induction false} InsertAbove<V>(v: V, s: seq<V>, key: V -> Id, lo: Id)
    requires lo < key(v) && forall i :: 0 <= i < |s| ==> lo < key(s[i])
    ensures forall i :: 0 <= i < |InsertByKey(v, s, key)| ==> lo < key(InsertByKey(v, s, key)[i])
  {
    if s != [] { InsertAbove(v, s[1..], key, lo); }
  }

  lemma {:induction false} InsertKeepsOrder<V>(v: V, s: seq<V>, key: V -> Id)
    requires KeyAscending(s, key) && forall i :: 0 <= i < |s| ==> key(s[i]) != key(v)
    ensures KeyAscending(InsertByKey(v, s, key), key)
  {
    if s != [] && key(s[0]) < key(v) {
      InsertKeepsOrder(v, s[1..], key);
      InsertAbove(v, s[1..], key, key(s[0]));
    }
  }

  lemma {:induction false} SortOrders<V>(s: seq<V>, key: V -> Id)
    requires forall i, j :: 0 <= i < j < |s| ==> key(s[i]) != key(s[j])
    ensures KeyAscending(SortByKey(s, key), key)
    ensures multiset(SortByKey(s, key)) == multiset(s)
  {
    if s != [] {
      var rest := s[1..];
      SortOrders(rest, key);
      var sorted := SortByKey(rest, key);
      forall k | 0 <= k < |sorted| ensures key(sorted[k]) != key(s[0]) {
        assert sorted[k] in multiset(sorted) && sorted[k] in multiset(rest);
        var i := IndexOf(rest, sorted[k]);
        assert s[i + 1] == sorted[k];
      }
      InsertKeepsOrder(s[0], sorted, key);
      InsertKeepsMembers(s[0], sorted, key);
      assert s == [s[0]] + rest;
    }
  }

  /** A key-ordered list of exactly the values of a well-keyed map is the map's listing. */
  lemma OrderedListIsListing<V>(db: map<Id, V>, s: seq<V>, key: V -> Id)
    requires forall id :: id in db ==> key(db[id]) == id
    requires KeyAscending(s, key) && forall x :: x in s <==> key(x) in db && db[key(x)] == x
    ensures s == Listed(db)
  {
    var ids := seq(|s|, i requires 0 <= i < |s| => key(s[i]));
    forall id ensures id in ids <==> id in db.Keys {
      if id in ids {
        var i :| 0 <= i < |s| && ids[i] == id;
        assert s[i] in s;
      }
      if id in db.Keys {
        assert db[id] in s;
        var i :| 0 <= i < |s| && s[i] == db[id];
        assert ids[i] == id;
      }
    }
    AscendingIsUnique(ids, db.Keys);
    forall i | 0 <= i < |s| ensures s[i] == Listed(db)[i] { assert s[i] in s; }
  }

  class InMemoryStore<V(==)> {
    var db: map<Id, V>
    const keyOf: V -> Id

    constructor (keyOf: V -> Id)
      ensures db == map[] && this.keyOf == keyOf
    {
      this.keyOf := keyOf;
      db := map[];
    }

    ghost predicate Keyed()
      reads this
    {
      forall id :: id in db ==> keyOf(db[id]) == id
    }

    method Put(key: Id, value: V)
      modifies this
      ensures db == old(db)[key := value]
      ensures old(Keyed()) && keyOf(value) == key ==> Keyed()
    {
      db := db[key := value];
    }

    method Get(key: Id) returns (value: Option<V>)
      ensures value == if key in db then Some(db[key]) else None
    {
      value := if key in db then Some(db[key]) else None;
    }

    /** Deleting a missing key is not an error. */
    method Delete(key: Id)
      modifies this
      ensures db == old(db) - {key}
      ensures old(Keyed()) ==> Keyed()
    {
      db := db - {key};
    }

    /** Whatever order the map is walked in, the listing is the same. */
    method List() returns (out: seq<V>)
      requires Keyed()
      ensures out == Listed(db)
    {
      out := [];
      var remaining := db.Keys;
      while remaining != {}
        invariant remaining <= db.Keys
        invariant forall x :: x in out <==> keyOf(x) in db && keyOf(x) !in remaining && db[keyOf(x)] == x
        invariant forall i, j :: 0 <= i < j < |out| ==> keyOf(out[i]) != keyOf(out[j])
        decreases |remaining|
      {
        var id :| id in remaining;
        remaining := remaining - {id};
        out := out + [db[id]];
      }
      SortOrders(out, keyOf);
      var sorted := SortByKey(out, keyOf);
      forall x ensures x in sorted <==> x in out { assert x in multiset(sorted) <==> x in multiset(out); }
      OrderedListIsListing(db, sorted, keyOf);
      out := sorted;
    }
  }
}
