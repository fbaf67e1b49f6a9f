// The LRU cache: a map into a list of elements, most recently used first. The list is the
// library's, taken as the sequence of its element references.
module Lru {
  import opened Basics
  import opened Recency

  class Element {
    const key: string
    var value: Value

    constructor (key: string, value: Value)
      ensures this.key == key && this.value == value
    {
      this.key, this.value := key, value;
    }
  }

  // The entries the elements hold.
  function EntriesOf(s: seq<Element>): Entries
    reads s
  {
    seq(|s|, i requires 0 <= i < |s| reads s => Pair(s[i].key, s[i].value))
  }

  function Drop(s: seq<Element>, i: nat): seq<Element>
    requires i < |s|
  {
    s[..i] + s[i + 1..]
  }

  predicate DistinctKeys(s: seq<Element>) {
    forall i, j :: 0 <= i < j < |s| ==> s[i].key != s[j].key
  }

  // Map and list in bijection: each element under its own key, and nothing else.
  ghost predicate Indexed(items: map<string, Element>, s: seq<Element>) {
    DistinctKeys(s)
    && (forall i :: 0 <= i < |s| ==> s[i].key in items && items[s[i].key] == s[i])
    && (forall k :: k in items ==> items[k] in s && items[k].key == k)
  }

  lemma {:induction false} IndexedHas(items: map<string, Element>, s: seq<Element>, key: string)
    requires Indexed(items, s)
    ensures key in items <==> Has(EntriesOf(s), key)
  {
    HasSays(EntriesOf(s), key);
    if i :| 0 <= i < |s| && EntriesOf(s)[i].key == key {
      assert s[i].key == key;
    }
    if key in items {
      var i :| 0 <= i < |s| && s[i] == items[key];
      assert EntriesOf(s)[i].key == key;
    }
  }

  // What the entries are once element i is in front.
  lemma {:induction false} MovedEntries(s: seq<Element>, i: nat)
    requires DistinctKeys(s) && i < |s|
    ensures EntriesOf([s[i]] + Drop(s, i)) == AfterGet(EntriesOf(s), s[i].key)
    ensures Lookup(EntriesOf(s), s[i].key) == Some(s[i].value)
  {
    var e := EntriesOf(s);
    assert e[i] == Pair(s[i].key, s[i].value);
    LookupAt(e, i);
    WithoutAt(e, i);
    assert EntriesOf([s[i]] + Drop(s, i)) == [e[i]] + (e[..i] + e[i + 1..]);
  }

  lemma {:induction false} DroppedEntries(s: seq<Element>, i: nat)
    requires DistinctKeys(s) && i < |s|
    ensures EntriesOf(Drop(s, i)) == Without(EntriesOf(s), s[i].key)
  {
    var e := EntriesOf(s);
    WithoutAt(e, i);
    assert EntriesOf(Drop(s, i)) == e[..i] + e[i + 1..];
  }

  lemma {:induction false} DropSays(s: seq<Element>, i: nat)
    requires i < |s|
    ensures |Drop(s, i)| == |s| - 1
    ensures forall k :: 0 <= k < |Drop(s, i)| ==> Drop(s, i)[k] == s[if k < i then k else k + 1]
    ensures forall x :: x in s <==> x == s[i] || x in Drop(s, i)
  {
    forall x | x in s ensures x == s[i] || x in Drop(s, i) {
      var k :| 0 <= k < |s| && s[k] == x;
      assert k < i ==> Drop(s, i)[k] == x;
      assert k > i ==> Drop(s, i)[k - 1] == x;
    }
  }

  lemma {:induction false} MovedIsIndexed(items: map<string, Element>, s: seq<Element>, i: nat)
    requires Indexed(items, s) && i < |s|
    ensures Indexed(items, [s[i]] + Drop(s, i))
  {
    DropSays(s, i);
  }

  lemma {:induction false} DroppedIsIndexed(items: map<string, Element>, s: seq<Element>, i: nat)
    requires Indexed(items, s) && i < |s|
    ensures Indexed(items - {s[i].key}, Drop(s, i))
  {
    DropSays(s, i);
  }

  lemma {:induction false} PushedIsIndexed(items: map<string, Element>, s: seq<Element>, e: Element)
    requires Indexed(items, s) && e.key !in items
    ensures Indexed(items[e.key := e], [e] + s)
  {
    var t := [e] + s;
    assert forall i :: 0 < i < |t| ==> t[i] == s[i - 1];
    assert t[0] == e;
    var more := items[e.key := e];
    forall k | k in more ensures more[k] in t && more[k].key == k {
      if k != e.key {
        var i :| 0 <= i < |s| && s[i] == items[k];
        assert t[i + 1] == items[k];
      }
    }
  }

  // Setting a known key is a hit whose entry then gets the new value.
  lemma {:induction false} KnownSet(s: seq<Element>, e: Element, capacity: nat, value: Value)
    requires DistinctKeys(s) && e in s && |s| <= capacity
    ensures AfterSet(EntriesOf(s), capacity, e.key, value) == [Pair(e.key, value)] + AfterGet(EntriesOf(s), e.key)[1..]
  {
    var entries := EntriesOf(s);
    var i :| 0 <= i < |s| && s[i] == e;
    assert entries[i].key == e.key;
    HasSays(entries, e.key);
    WithoutOneEach(entries, e.key);
    assert AfterGet(entries, e.key)[1..] == Without(entries, e.key);
  }

  class LRUCache {
    const capacity: nat
    var items: map<string, Element>
    var ll: seq<Element>

    ghost predicate Valid()
      reads this, ll
    {
      capacity >= 1 && Indexed(items, ll) && |ll| <= capacity
    }

    // The abstract cache: entries by recency.
    ghost function View(): Entries
      reads this, ll
    {
      EntriesOf(ll)
    }

    constructor (capacity: int)
      ensures Valid() && View() == [] && ll == [] && this.capacity == (if capacity <= 0 then 1 else capacity)
    {
      this.capacity := if capacity <= 0 then 1 else capacity;
      items := map[];
      ll := [];
    }

    method MoveToFront(e: Element)
      requires Valid() && e in ll
      modifies this`ll
      ensures Valid() && ll[0] == e && (forall x :: x in ll <==> x in old(ll))
      ensures View() == AfterGet(old(View()), e.key) && old(Lookup(View(), e.key)) == Some(e.value)
    {
      var i :| 0 <= i < |ll| && ll[i] == e;
      MovedEntries(ll, i);
      MovedIsIndexed(items, ll, i);
      DropSays(ll, i);
      ll := [e] + Drop(ll, i);
    }

    method Get(key: string) returns (r: Option<Value>)
      requires Valid()
      modifies this`ll
      ensures Valid() && r == old(Lookup(View(), key)) && View() == old(AfterGet(View(), key))
      ensures forall x :: x in ll <==> x in old(ll)
    {
      IndexedHas(items, ll, key);
      if key !in items {
        return None;
      }
      var e := items[key];
      MoveToFront(e);
      r := Some(e.value);
    }

    method Set(key: string, value: Value)
      requires Valid()
      modifies this`ll, this`items, ll
      ensures Valid() && View() == old(AfterSet(View(), capacity, key, value))
      ensures forall x :: x in ll ==> x in old(ll) || fresh(x)
    {
      IndexedHas(items, ll, key);
      if key in items {
        SetKnown(items[key], value);
      } else {
        SetNew(key, value);
      }
    }

    // A known key: moved to the front, and its value replaced in place.
    method SetKnown(e: Element, value: Value)
      requires Valid() && e in ll
      modifies this`ll, ll
      ensures Valid() && View() == old(AfterSet(View(), capacity, e.key, value))
      ensures forall x :: x in ll ==> x in old(ll)
    {
      KnownSet(ll, e, capacity, value);
      MoveToFront(e);
      Replace(e, value);
    }

    // The value of the front element, in place.
    method Replace(e: Element, value: Value)
      requires Valid() && ll != [] && ll[0] == e
      modifies e
      ensures Valid() && View() == [Pair(e.key, value)] + old(View())[1..]
    {
      ghost var before := View();
      e.value := value;
      assert forall k :: 0 < k < |ll| ==> ll[k] != e;
      assert forall k :: 0 < k < |ll| ==> View()[k] == before[k];
    }

    // A new key: in front, and the last entry gives way if there is no room.
    method SetNew(key: string, value: Value)
      requires Valid() && key !in items
      modifies this`ll, this`items
      ensures Valid() && View() == old(AfterSet(View(), capacity, key, value))
      ensures forall x :: x in ll ==> x in old(ll) || fresh(x)
    {
      ghost var before := View();
      IndexedHas(items, ll, key);
      WithoutSays(before, key, key);
      var e := new Element(key, value);
      PushedIsIndexed(items, ll, e);
      items := items[key := e];
      ll := [e] + ll;
      assert View() == [Pair(key, value)] + before;
      if |ll| > capacity {
        EvictOldest();
      }
    }

    method EvictOldest()
      requires Indexed(items, ll) && ll != []
      modifies this`ll, this`items
      ensures Indexed(items, ll) && ll == old(ll[..|ll| - 1]) && View() == old(View()[..|ll| - 1])
    {
      var oldest := ll[|ll| - 1];
      DroppedIsIndexed(items, ll, |ll| - 1);
      assert Drop(ll, |ll| - 1) == ll[..|ll| - 1];
      ghost var full := View();
      ll := ll[..|ll| - 1];
      items := items - {oldest.key};
      assert View() == full[..|full| - 1];
    }

    method Delete(key: string)
      requires Valid()
      modifies this`ll, this`items
      ensures Valid() && View() == old(AfterDelete(View(), key))
      ensures forall x :: x in ll ==> x in old(ll)
    {
      ghost var before := View();
      IndexedHas(items, ll, key);
      WithoutSays(before, key, key);
      if key in items {
        var e := items[key];
        var i :| 0 <= i < |ll| && ll[i] == e;
        DroppedEntries(ll, i);
        DroppedIsIndexed(items, ll, i);
        DropSays(ll, i);
        ll := Drop(ll, i);
        items := items - {key};
      }
    }

    method Len() returns (n: nat)
      requires Valid()
      ensures n == |View()| <= capacity
    {
      n := |ll|;
    }
  }
}
