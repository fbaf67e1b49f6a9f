// The two-level cache: an LRU in front of a string store that neither fails nor forgets.
module Tiered {
  import opened Basics
  import opened Recency
  import opened Lru

  datatype Stats = Stats(l1Hits: nat, l2Hits: nat, misses: nat, total: nat)

  // The second level. An empty string reads as a miss.
  class RedisCache {
    var stored: map<string, string>

    constructor ()
      ensures stored == map[]
    {
      stored := map[];
    }

    method Get(key: string) returns (r: Option<string>)
      ensures r == if key in stored && stored[key] != "" then Some(stored[key]) else None
    {
      if key !in stored || stored[key] == "" {
        return None;
      }
      return Some(stored[key]);
    }

    method Set(key: string, value: string)
      modifies this
      ensures stored == old(stored)[key := value]
    {
      stored := stored[key := value];
    }

    method Delete(key: string)
      modifies this
      ensures stored == old(stored) - {key}
    {
      stored := stored - {key};
    }
  }

  predicate Plain(value: Value) {
    value.Str? && value.text != ""
  }

  // Every entry of the first level is the value last written, and so is every stored value.
  ghost predicate Coherent(entries: Entries, stored: map<string, string>, written: map<string, Value>) {
    (forall k :: k in written <==> k in stored)
    && (forall k :: k in written ==> Plain(written[k]) && written[k] == Str(stored[k]))
    && (forall k :: Has(entries, k) ==> k in written && Lookup(entries, k) == Some(written[k]))
  }

  lemma {:induction false} GetStaysCoherent(entries: Entries, stored: map<string, string>, written: map<string, Value>,
          key: string)
    requires Coherent(entries, stored, written)
    ensures Coherent(AfterGet(entries, key), stored, written)
  {
    forall k | Has(AfterGet(entries, key), k)
      ensures k in written && Lookup(AfterGet(entries, key), k) == Some(written[k])
    {
      WithoutSays(entries, key, k);
      if Has(entries, key) && k != key {
        FrontLookup(Pair(key, Lookup(entries, key).value), Without(entries, key), k);
      }
    }
  }

  lemma {:induction false} FrontLookup(p: Pair, s: Entries, k: string)
    ensures Lookup([p] + s, k) == if k == p.key then Some(p.value) else Lookup(s, k)
  {
    assert ([p] + s)[1..] == s;
  }

  // Writing one key in the first level leaves the others as they were, or drops them.
  lemma {:induction false} SetLookup(entries: Entries, capacity: nat, key: string, value: Value, k: string)
    requires capacity >= 1
    ensures var after := AfterSet(entries, capacity, key, value);
            Lookup(after, k).Some? ==> Lookup(after, k) == if k == key then Some(value) else Lookup(entries, k)
  {
    var t := [Pair(key, value)] + Without(entries, key);
    FrontLookup(Pair(key, value), Without(entries, key), k);
    WithoutSays(entries, key, k);
    if |t| > capacity {
      LookupFront(t, |t| - 1, k);
    }
  }

  lemma {:induction false} SetStaysCoherent(entries: Entries, capacity: nat, stored: map<string, string>,
          written: map<string, Value>, key: string, value: Value)
    requires capacity >= 1 && Coherent(entries, stored, written) && Plain(value)
    ensures Coherent(AfterSet(entries, capacity, key, value), stored[key := value.text], written[key := value])
  {
    var after := AfterSet(entries, capacity, key, value);
    forall k | Has(after, k) ensures k in written[key := value] && Lookup(after, k) == Some(written[key := value][k]) {
      SetLookup(entries, capacity, key, value, k);
    }
  }

  // Filling the first level from the second.
  lemma {:induction false} FillStaysCoherent(entries: Entries, capacity: nat, stored: map<string, string>,
          written: map<string, Value>, key: string)
    requires capacity >= 1 && Coherent(entries, stored, written) && key in written
    ensures Coherent(AfterSet(entries, capacity, key, written[key]), stored, written)
  {
    var after := AfterSet(entries, capacity, key, written[key]);
    forall k | Has(after, k) ensures k in written && Lookup(after, k) == Some(written[k]) {
      SetLookup(entries, capacity, key, written[key], k);
    }
  }

  lemma {:induction false} DeleteStaysCoherent(entries: Entries, stored: map<string, string>,
          written: map<string, Value>, key: string)
    requires Coherent(entries, stored, written)
    ensures Coherent(AfterDelete(entries, key), stored - {key}, written - {key})
  {
    forall k | Has(Without(entries, key), k)
      ensures k in written - {key} && Lookup(Without(entries, key), k) == Some((written - {key})[k])
    {
      WithoutSays(entries, key, k);
    }
  }

  class TieredCache {
    const l1: LRUCache
    const l2: RedisCache
    var stats: Stats
    ghost var written: map<string, Value>  // what was last written under each key and not deleted
    ghost var plain: bool                  // only non-empty strings were written so far

    ghost predicate Valid()
      reads this, l1, l2, l1.ll
    {
      Levels() && stats.total == stats.l1Hits + stats.l2Hits + stats.misses
    }

    ghost predicate Levels()
      reads this`written, this`plain, l1, l2, l1.ll
    {
      l1.Valid() && (plain ==> Coherent(l1.View(), l2.stored, written))
    }

    // A look into the first level.
    method ReadFirst(key: string) returns (r: Option<Value>)
      requires Levels()
      modifies l1`ll
      ensures Levels() && r == old(Lookup(l1.View(), key))
      ensures plain ==> (r.Some? ==> key in written && r.value == written[key])
      ensures forall x :: x in l1.ll ==> x in old(l1.ll)
    {
      if plain {
        GetStaysCoherent(l1.View(), l2.stored, written, key);
      }
      r := l1.Get(key);
    }

    // A look into the second level, which fills the first.
    method ReadSecond(key: string) returns (r: Option<Value>)
      requires Levels()
      modifies l1, l1.ll
      ensures Levels() && (plain ==> r == if key in written then Some(written[key]) else None)
      ensures forall x :: x in l1.ll ==> x in old(l1.ll) || fresh(x)
    {
      var val := l2.Get(key);
      if val.None? {
        return None;
      }
      if plain {
        FillStaysCoherent(l1.View(), l1.capacity, l2.stored, written, key);
      }
      l1.Set(key, Str(val.value));
      return Some(Str(val.value));
    }

    constructor (l1: LRUCache, l2: RedisCache)
      requires l1.Valid() && l1.View() == [] && l2.stored == map[]
      ensures Valid() && this.l1 == l1 && this.l2 == l2 && written == map[] && plain && stats == Stats(0, 0, 0, 0)
    {
      this.l1, this.l2, stats, written, plain := l1, l2, Stats(0, 0, 0, 0), map[], true;
    }

    // With only non-empty strings written, the answer is the value last written, whatever
    // was evicted in between.
    method Get(key: string) returns (r: Option<Value>)
      requires Valid()
      modifies this`stats, l1, l1.ll
      ensures Valid() && l1.Valid() && written == old(written) && plain == old(plain)
      ensures plain ==> r == if key in written then Some(written[key]) else None
      ensures stats.total == old(stats.total) + 1
      ensures stats.l1Hits == old(stats.l1Hits) + (if old(Has(l1.View(), key)) then 1 else 0)
      ensures stats.misses == old(stats.misses) + (if r.None? then 1 else 0)
      ensures forall x :: x in l1.ll ==> x in old(l1.ll) || fresh(x)
    {
      hide Coherent, EntriesOf, Lookup, Has, Without, AfterGet, AfterSet;
      stats := stats.(total := stats.total + 1);
      r := ReadFirst(key);
      if r.Some? {
        stats := stats.(l1Hits := stats.l1Hits + 1);
        return;
      }
      r := ReadSecond(key);
      if r.Some? {
        stats := stats.(l2Hits := stats.l2Hits + 1);
        return;
      }
      stats := stats.(misses := stats.misses + 1);
    }

    // Both levels are written; the second takes only strings.
    method Set(key: string, value: Value)
      requires Valid()
      modifies this`written, this`plain, l1, l2, l1.ll
      ensures Valid() && written == old(written)[key := value] && plain == (old(plain) && Plain(value))
      ensures l2.stored == if value.Str? then old(l2.stored)[key := value.text] else old(l2.stored)
      ensures forall x :: x in l1.ll ==> x in old(l1.ll) || fresh(x)
    {
      hide Coherent, AfterSet;
      if plain && Plain(value) {
        SetStaysCoherent(l1.View(), l1.capacity, l2.stored, written, key, value);
      }
      l1.Set(key, value);
      if value.Str? {
        l2.Set(key, value.text);
      }
      written, plain := written[key := value], plain && Plain(value);
    }

    method Delete(key: string)
      requires Valid()
      modifies this`written, l1, l2
      ensures Valid() && written == old(written) - {key} && plain == old(plain)
      ensures forall x :: x in l1.ll ==> x in old(l1.ll)
    {
      if plain {
        DeleteStaysCoherent(l1.View(), l2.stored, written, key);
      }
      l1.Delete(key);
      l2.Delete(key);
      written := written - {key};
    }
  }
}
