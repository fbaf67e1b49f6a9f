// Which keys a least-recently-used cache holds: those with fewer than `capacity` other keys
// used after them.
module RecencyLaws {
  import opened Basics
  import opened Recency

  // The keys in front of a key.
  function Before(s: Entries, key: string): set<string> {
    if s == [] || s[0].key == key then {} else {s[0].key} + Before(s[1..], key)
  }

  lemma {:induction false} BeforeWithout(s: Entries, key: string, other: string)
    requires key != other
    ensures Before(Without(s, other), key) == Before(s, key) - {other}
  {
    if s != [] && s[0].key != key {
      BeforeWithout(s[1..], key, other);
    }
  }

  lemma {:induction false} BeforeHas(s: Entries, key: string, other: string)
    requires other in Before(s, key)
    ensures Has(s, other)
  {
    if s[0].key != other {
      BeforeHas(s[1..], key, other);
    }
  }

  // With one entry for each key, a key stands behind as many entries as keys.
  lemma {:induction false} PlaceOf(s: Entries, key: string)
    requires OneEach(s) && Has(s, key)
    ensures |Before(s, key)| < |s| && s[|Before(s, key)|].key == key
  {
    if s[0].key != key {
      PlaceOf(s[1..], key);
      if s[0].key in Before(s[1..], key) {
        BeforeHas(s[1..], key, s[0].key);
        HasSays(s[1..], s[0].key);
      }
    }
  }

  // What dropping the last entry leaves in front of a key that stays.
  lemma {:induction false} BeforeFront(s: Entries, n: nat, key: string)
    requires n <= |s| && Has(s[..n], key)
    ensures Before(s[..n], key) == Before(s, key)
  {
    if s[0].key != key {
      assert s[..n][1..] == s[1..][..n - 1];
      BeforeFront(s[1..], n - 1, key);
    }
  }

  // A key behind `n` others is in the first `m` entries exactly if n < m.
  lemma {:induction false} InFront(s: Entries, m: nat, key: string)
    requires OneEach(s) && Has(s, key) && m <= |s|
    ensures Has(s[..m], key) <==> |Before(s, key)| < m
    ensures Has(s[..m], key) ==> Lookup(s[..m], key) == Lookup(s, key) && Before(s[..m], key) == Before(s, key)
  {
    PlaceOf(s, key);
    HasSays(s[..m], key);
    LookupFront(s, m, key);
    if Has(s[..m], key) {
      BeforeFront(s, m, key);
    }
  }

  // The entry of `key` holds v behind exactly these keys.
  predicate Behind(s: Entries, key: string, v: Value, ahead: set<string>) {
    Lookup(s, key) == Some(v) && Before(s, key) == ahead
  }

  // The keys ahead after one operation on another key.
  function Ahead(s: Entries, ahead: set<string>, op: Op): set<string> {
    match op
    case Get(k) => if Has(s, k) then ahead + {k} else ahead
    case Set(k, _) => ahead + {k}
    case Delete(k) => ahead - {k}
  }

  lemma {:induction false} AfterSetBehind(s: Entries, capacity: nat, k: string, value: Value, key: string, v: Value,
          ahead: set<string>)
    requires capacity >= 1 && Good(s, capacity) && k != key && Behind(s, key, v, ahead)
    ensures var next := AfterSet(s, capacity, k, value);
            if |ahead + {k}| < capacity then Behind(next, key, v, ahead + {k}) else !Has(next, key)
  {
    var rest := Without(s, k);
    var t := [Pair(k, value)] + rest;
    RestBehind(s, k, key, v, ahead);
    MovedAhead(rest, Pair(k, value), key, v, ahead);
    if |t| > capacity {
      InFront(t, capacity, key);
      assert t[..|t| - 1] == t[..capacity];
    }
  }

  // Without another key the entry stays, behind the other keys ahead of it.
  lemma {:induction false} RestBehind(s: Entries, k: string, key: string, v: Value, ahead: set<string>)
    requires OneEach(s) && k != key && Behind(s, key, v, ahead)
    ensures var rest := Without(s, k);
            OneEach(rest) && |rest| == (if Has(s, k) then |s| - 1 else |s|) && !Has(rest, k)
            && Behind(rest, key, v, ahead - {k}) && |ahead - {k}| < |rest|
  {
    BeforeWithout(s, key, k);
    WithoutSays(s, k, key);
    WithoutOneEach(s, k);
    PlaceOf(Without(s, k), key);
  }

  // One operation on another key moves it ahead or takes it away; the entry stays exactly if
  // there is still room for it.
  lemma {:induction false} StepBehind(s: Entries, capacity: nat, op: Op, key: string, v: Value, ahead: set<string>)
    requires capacity >= 1 && Good(s, capacity) && op.key != key && Behind(s, key, v, ahead)
    ensures var next := After(s, capacity, op);
            if |Ahead(s, ahead, op)| < capacity then Behind(next, key, v, Ahead(s, ahead, op)) else !Has(next, key)
  {
    hide Without, Before, Lookup, Has, OneEach, Behind;
    RestBehind(s, op.key, key, v, ahead);
    match op
    case Delete(_) =>
    case Get(k) =>
      if Has(s, k) {
        MovedAhead(Without(s, k), Pair(k, Lookup(s, k).value), key, v, ahead);
      } else {
        AheadFits(s, key, v, ahead);
      }
    case Set(k, value) => AfterSetBehind(s, capacity, k, value, key, v, ahead);
  }

  lemma {:induction false} AheadFits(s: Entries, key: string, v: Value, ahead: set<string>)
    requires OneEach(s) && Behind(s, key, v, ahead)
    ensures |ahead| < |s|
  {
    PlaceOf(s, key);
  }

  lemma {:induction false} MovedAhead(rest: Entries, p: Pair, key: string, v: Value, ahead: set<string>)
    requires OneEach(rest) && !Has(rest, p.key) && p.key != key && Behind(rest, key, v, ahead - {p.key})
    ensures Behind([p] + rest, key, v, ahead + {p.key}) && OneEach([p] + rest) && |ahead + {p.key}| <= |rest|
  {
    FrontOneEach(p, rest);
    assert ([p] + rest)[1..] == rest;
    PlaceOf([p] + rest, key);
    assert ahead + {p.key} == {p.key} + (ahead - {p.key});
  }

  // A key that is gone does not come back by operations on others.
  lemma {:induction false} StaysAway(s: Entries, capacity: nat, op: Op, key: string)
    requires !Has(s, key) && op.key != key
    ensures !Has(After(s, capacity, op), key)
  {
    WithoutSays(s, op.key, key);
    if op.Set? {
      var t := [Pair(op.key, op.value)] + Without(s, op.key);
      LookupFront(t, |t| - 1, key);
    }
  }

  // The keys used since the last operation of `past`, and whether there was room all the time.
  function Used(capacity: nat, past: seq<Op>, later: seq<Op>): set<string> {
    if later == [] then {}
    else
      var init := later[..|later| - 1];
      Ahead(Run(capacity, past + init), Used(capacity, past, init), later[|later| - 1])
  }

  predicate RoomThroughout(capacity: nat, past: seq<Op>, later: seq<Op>) {
    later == [] || (RoomThroughout(capacity, past, later[..|later| - 1]) && |Used(capacity, past, later)| < capacity)
  }

  // The last operation used this key: it wrote v there, or found v there.
  predicate UsedLast(capacity: nat, past: seq<Op>, key: string, v: Value) {
    past != []
    && (past[|past| - 1] == Set(key, v)
        || (past[|past| - 1] == Get(key) && Lookup(Run(capacity, past[..|past| - 1]), key) == Some(v)))
  }

  // A used key is found, with its value, exactly as long as fewer than `capacity` other keys
  // have been used since.
  lemma {:induction false} PresentIfRecent(capacity: nat, past: seq<Op>, key: string, v: Value, later: seq<Op>)
    requires capacity >= 1 && UsedLast(capacity, past, key, v)
    requires forall i :: 0 <= i < |later| ==> later[i].key != key
    ensures var s := Run(capacity, past + later);
            if RoomThroughout(capacity, past, later) then Behind(s, key, v, Used(capacity, past, later))
            else !Has(s, key)
  {
    if later == [] {
      assert past + later == past;
      var s := Run(capacity, past[..|past| - 1]);
      RunIsGood(capacity, past[..|past| - 1]);
      WithoutOneEach(s, key);
    } else {
      var init, op := later[..|later| - 1], later[|later| - 1];
      var s := Run(capacity, past + init);
      assert (past + later)[..|past + later| - 1] == past + init && (past + later)[|past + later| - 1] == op;
      PresentIfRecent(capacity, past, key, v, init);
      RunIsGood(capacity, past + init);
      if RoomThroughout(capacity, past, init) {
        StepBehind(s, capacity, op, key, v, Used(capacity, past, init));
      } else {
        StaysAway(s, capacity, op, key);
      }
    }
  }

  // A deleted key is not found, and neither is one never written.
  lemma {:induction false} DeletedIsGone(capacity: nat, ops: seq<Op>, key: string, later: seq<Op>)
    requires forall i :: 0 <= i < |later| ==> later[i].key != key
    requires ops == [] || ops[|ops| - 1] == Delete(key)
    ensures !Has(Run(capacity, ops + later), key)
  {
    if later == [] {
      assert ops + later == ops;
      if ops != [] {
        WithoutSays(Run(capacity, ops[..|ops| - 1]), key, key);
      }
    } else {
      var all := ops + later;
      assert all[..|all| - 1] == ops + later[..|later| - 1];
      DeletedIsGone(capacity, ops, key, later[..|later| - 1]);
      StaysAway(Run(capacity, all[..|all| - 1]), capacity, all[|all| - 1], key);
    }
  }

  // Reading changes no value.
  lemma {:induction false} ReadingKeepsValues(capacity: nat, s: Entries, key: string, other: string)
    ensures Lookup(AfterGet(s, key), other) == Lookup(s, other)
  {
    WithoutSays(s, key, other);
  }
}
