// The manifest switcher: registered manifests, the current one, and demoted ones that stay
// visible until they expire.
module Switcher {
  import opened Basics
  import opened Bytes
  import opened Manifest

  const RETENTION := 14 * 24 * 3600

  datatype Retained = Retained(manifest: IndexManifest, expiresAt: int)

  datatype State = State(loaded: map<Text, IndexManifest>, current: Option<IndexManifest>, retained: seq<Retained>)

  datatype Op = Load(m: IndexManifest) | Activate(id: Text, now: int) | Expire(now: int)

  // The ID recomputed from a manifest's content.
  type Identity = IndexManifest -> Text

  // ---------- specification ----------

  function Keep(f: Retained -> bool, rs: seq<Retained>): seq<Retained> {
    if rs == [] then []
    else Keep(f, rs[..|rs| - 1]) + (if f(rs[|rs| - 1]) then [rs[|rs| - 1]] else [])
  }

  function NotId(id: Text): Retained -> bool {
    (r: Retained) => r.manifest.manifestId != id
  }

  function NotExpired(now: int): Retained -> bool {
    (r: Retained) => r.expiresAt > now
  }

  predicate Loadable(who: Identity, m: IndexManifest) {
    Valid(m) && m.manifestId == who(m)
  }

  function Demoted(s: State, now: int): seq<Retained> {
    if s.current.Some? then s.retained + [Retained(s.current.value, now + RETENTION)] else s.retained
  }

  predicate IsCurrent(s: State, id: Text) {
    s.current.Some? && s.current.value.manifestId == id
  }

  function Step(who: Identity, s: State, op: Op): State {
    match op
    case Load(m) => if Loadable(who, m) then s.(loaded := s.loaded[m.manifestId := m]) else s
    case Activate(id, now) =>
      if id !in s.loaded || IsCurrent(s, id) then s
      else State(s.loaded, Some(s.loaded[id]), Keep(NotId(id), Demoted(s, now)))
    case Expire(now) => s.(retained := Keep(NotExpired(now), s.retained))
  }

  function Run(who: Identity, ops: seq<Op>): State {
    if ops == [] then State(map[], None, [])
    else Step(who, Run(who, ops[..|ops| - 1]), ops[|ops| - 1])
  }

  // ---------- filtering ----------

  lemma {:induction false} KeepSays(f: Retained -> bool, rs: seq<Retained>)
    ensures forall r :: r in Keep(f, rs) <==> r in rs && f(r)
    ensures |Keep(f, rs)| <= |rs|
  {
    if rs != [] {
      KeepSays(f, rs[..|rs| - 1]);
      assert rs == rs[..|rs| - 1] + [rs[|rs| - 1]];
    }
  }

  predicate DistinctIds(rs: seq<Retained>) {
    forall i, j :: 0 <= i < j < |rs| ==> rs[i].manifest.manifestId != rs[j].manifest.manifestId
  }

  predicate ByExpiry(rs: seq<Retained>) {
    forall i, j :: 0 <= i < j < |rs| ==> rs[i].expiresAt <= rs[j].expiresAt
  }

  lemma {:induction false} KeepOneMore(f: Retained -> bool, rs: seq<Retained>, i: nat)
    requires i < |rs|
    ensures Keep(f, rs[..i + 1]) == if f(rs[i]) then Keep(f, rs[..i]) + [rs[i]] else Keep(f, rs[..i])
  {
    assert rs[..i + 1][..i] == rs[..i];
  }

  // Filtering keeps the order of what stays.
  lemma {:induction false} KeepIsStable(f: Retained -> bool, rs: seq<Retained>)
    ensures DistinctIds(rs) ==> DistinctIds(Keep(f, rs))
    ensures ByExpiry(rs) ==> ByExpiry(Keep(f, rs))
  {
    if rs != [] {
      var rest, last := rs[..|rs| - 1], rs[|rs| - 1];
      KeepIsStable(f, rest);
      KeepSays(f, rest);
      var kept := Keep(f, rest);
      forall i | 0 <= i < |kept| ensures kept[i] in rest {
      }
    }
  }

  // ---------- what every operation keeps ----------

  // Registrations are valid and under their own recomputed ID; the current ID is registered and
  // not retained; what is retained is registered, and each ID is retained once.
  ghost predicate Good(who: Identity, s: State) {
    (forall id :: id in s.loaded ==> s.loaded[id].manifestId == id && Loadable(who, s.loaded[id]))
    && (s.current.Some? ==> s.current.value.manifestId in s.loaded)
    && DistinctIds(s.retained)
    && (forall i :: 0 <= i < |s.retained| ==>
          s.retained[i].manifest.manifestId in s.loaded && !IsCurrent(s, s.retained[i].manifest.manifestId))
    && (s.current.None? ==> s.retained == [])
  }

  lemma {:induction false} ActivateIsGood(who: Identity, s: State, id: Text, now: int)
    requires Good(who, s)
    ensures Good(who, Step(who, s, Activate(id, now)))
  {
    if id in s.loaded && !IsCurrent(s, id) {
      var next := Step(who, s, Activate(id, now));
      var all := Demoted(s, now);
      KeepIsStable(NotId(id), all);
      KeepSays(NotId(id), all);
      forall i | 0 <= i < |next.retained|
        ensures next.retained[i].manifest.manifestId in next.loaded
                && !IsCurrent(next, next.retained[i].manifest.manifestId)
      {
        assert next.retained[i] in all;
      }
    }
  }

  lemma {:induction false} ExpireIsGood(who: Identity, s: State, now: int)
    requires Good(who, s)
    ensures Good(who, Step(who, s, Expire(now)))
  {
    var next := Step(who, s, Expire(now));
    KeepIsStable(NotExpired(now), s.retained);
    KeepSays(NotExpired(now), s.retained);
    forall i | 0 <= i < |next.retained|
      ensures next.retained[i].manifest.manifestId in next.loaded
              && !IsCurrent(next, next.retained[i].manifest.manifestId)
    {
      assert next.retained[i] in s.retained;
    }
  }

  lemma {:induction false} StepIsGood(who: Identity, s: State, op: Op)
    requires Good(who, s)
    ensures Good(who, Step(who, s, op))
  {
    match op
    case Load(_) =>
    case Activate(id, now) => ActivateIsGood(who, s, id, now);
    case Expire(now) => ExpireIsGood(who, s, now);
  }

  // Whatever the identity, and whatever is loaded, activated and expired.
  lemma {:induction false} EveryStateIsGood(who: Identity, ops: seq<Op>)
    ensures Good(who, Run(who, ops))
  {
    if ops != [] {
      EveryStateIsGood(who, ops[..|ops| - 1]);
      StepIsGood(who, Run(who, ops[..|ops| - 1]), ops[|ops| - 1]);
    }
  }

  // ---------- what a registration holds ----------

  // Two manifests that may both be registered under one ID.
  predicate Clash(who: Identity, a: IndexManifest, b: IndexManifest) {
    Loadable(who, a) && Loadable(who, b) && a.manifestId == b.manifestId && a != b
  }

  // No two manifests loaded by these operations clash.
  ghost predicate NoClash(who: Identity, ops: seq<Op>) {
    forall i, j :: 0 <= i < |ops| && 0 <= j < |ops| && ops[i].Load? && ops[j].Load? ==> !Clash(who, ops[i].m, ops[j].m)
  }

  ghost predicate LoadedBy(ops: seq<Op>, m: IndexManifest) {
    exists i :: 0 <= i < |ops| && ops[i] == Load(m)
  }

  // What is registered, current or retained was loaded and may be loaded.
  ghost predicate Known(who: Identity, ops: seq<Op>, m: IndexManifest) {
    LoadedBy(ops, m) && Loadable(who, m)
  }

  ghost predicate AllKnown(who: Identity, ops: seq<Op>, s: State) {
    (forall id :: id in s.loaded ==> Known(who, ops, s.loaded[id]) && s.loaded[id].manifestId == id)
    && (s.current.Some? ==> Known(who, ops, s.current.value))
    && (forall r :: r in s.retained ==> Known(who, ops, r.manifest))
  }

  lemma {:induction false} KnownStays(who: Identity, ops: seq<Op>, op: Op, m: IndexManifest)
    requires Known(who, ops, m)
    ensures Known(who, ops + [op], m)
  {
    var i :| 0 <= i < |ops| && ops[i] == Load(m);
    assert (ops + [op])[i] == Load(m);
  }

  lemma {:induction false} StepKnows(who: Identity, ops: seq<Op>, op: Op, s: State)
    requires AllKnown(who, ops, s)
    ensures AllKnown(who, ops + [op], Step(who, s, op))
  {
    forall m | Known(who, ops, m) ensures Known(who, ops + [op], m) {
      KnownStays(who, ops, op, m);
    }
    match op
    case Load(m) => assert (ops + [op])[|ops|] == Load(m);
    case Activate(id, now) => KeepSays(NotId(id), Demoted(s, now));
    case Expire(now) => KeepSays(NotExpired(now), s.retained);
  }

  lemma {:induction false} RunKnows(who: Identity, ops: seq<Op>)
    ensures AllKnown(who, ops, Run(who, ops))
  {
    if ops != [] {
      var init, op := ops[..|ops| - 1], ops[|ops| - 1];
      RunKnows(who, init);
      StepKnows(who, init, op, Run(who, init));
      assert init + [op] == ops;
    }
  }

  // Unless two loaded manifests clash, the current and the retained manifests are exactly
  // what is registered under their IDs.
  lemma {:induction false} CurrentIsRegistered(who: Identity, ops: seq<Op>)
    requires NoClash(who, ops)
    ensures var s := Run(who, ops);
            (s.current.Some? ==>
                s.current.value.manifestId in s.loaded && s.loaded[s.current.value.manifestId] == s.current.value)
            && forall r :: r in s.retained ==>
                 r.manifest.manifestId in s.loaded && s.loaded[r.manifest.manifestId] == r.manifest
  {
    var s := Run(who, ops);
    EveryStateIsGood(who, ops);
    RunKnows(who, ops);
    forall a, b | Known(who, ops, a) && Known(who, ops, b) && a.manifestId == b.manifestId ensures a == b {
      var i :| 0 <= i < |ops| && ops[i] == Load(a);
      var j :| 0 <= j < |ops| && ops[j] == Load(b);
      assert !Clash(who, ops[i].m, ops[j].m);
    }
  }

  // With a clash it can fail: the second load replaces the registration of the current ID.
  lemma {:induction false} ClashReplaces(who: Identity, a: IndexManifest, b: IndexManifest, now: int)
    requires Clash(who, a, b)
    ensures var s := Run(who, [Load(a), Activate(a.manifestId, now), Load(b)]);
            s.current == Some(a) && s.loaded[a.manifestId] == b != a
  {
    var ops := [Load(a), Activate(a.manifestId, now), Load(b)];
    assert ops[..2] == [Load(a), Activate(a.manifestId, now)] && ops[..2][..1] == [Load(a)] && ops[..2][..1][..0] == [];
    assert Run(who, []) == State(map[], None, []);
    assert Run(who, ops[..2][..1]) == Step(who, Run(who, []), Load(a));
    assert Run(who, ops[..2]) == Step(who, Run(who, ops[..2][..1]), Activate(a.manifestId, now));
  }

  // For the content-addressed ID, a clash is a collision of the digest at the two manifests'
  // own canonical forms.
  lemma {:induction false} ClashIsCollision(k: Keys, digest: Text -> Text, who: Identity, a: IndexManifest,
          b: IndexManifest)
    requires LongEnough(digest) && (forall m :: who(m) == ManifestId(k, digest, m)) && Clash(who, a, b)
    ensures Collide(k, digest, a, b)
  {
    IdIdentifiesContent(k, digest, a, b);
    assert a.(manifestId := []).(manifestId := a.manifestId) == a;
    assert b.(manifestId := []).(manifestId := b.manifestId) == b;
  }

  // ---------- time ----------

  // No retained entry expires later than an activation at this time would make it expire.
  predicate Bounded(rs: seq<Retained>, now: int) {
    forall i :: 0 <= i < |rs| ==> rs[i].expiresAt <= now + RETENTION
  }

  predicate NoLaterThan(ops: seq<Op>, now: int) {
    forall i :: 0 <= i < |ops| && ops[i].Activate? ==> ops[i].now <= now
  }

  lemma {:induction false} RunIsBounded(who: Identity, ops: seq<Op>, now: int)
    requires NoLaterThan(ops, now)
    ensures Bounded(Run(who, ops).retained, now)
  {
    if ops != [] {
      var before, op := ops[..|ops| - 1], ops[|ops| - 1];
      RunIsBounded(who, before, now);
      var s := Run(who, before);
      match op {
        case Load(_) =>
        case Activate(id, t) => KeepIsBounded(NotId(id), Demoted(s, t), now);
        case Expire(t) => KeepIsBounded(NotExpired(t), s.retained, now);
      }
    }
  }

  lemma {:induction false} KeepIsBounded(f: Retained -> bool, rs: seq<Retained>, now: int)
    requires Bounded(rs, now)
    ensures Bounded(Keep(f, rs), now)
  {
    KeepSays(f, rs);
    var kept := Keep(f, rs);
    forall i | 0 <= i < |kept| ensures kept[i].expiresAt <= now + RETENTION {
      assert kept[i] in rs;
    }
  }

  // If the clock does not go back between two activations, demoted manifests are retained by expiry.
  lemma {:induction false} RetainedByExpiry(who: Identity, ops: seq<Op>)
    requires forall i, j :: 0 <= i < j < |ops| && ops[i].Activate? && ops[j].Activate? ==> ops[i].now <= ops[j].now
    ensures ByExpiry(Run(who, ops).retained)
  {
    if ops != [] {
      var before, op := ops[..|ops| - 1], ops[|ops| - 1];
      RetainedByExpiry(who, before);
      var s := Run(who, before);
      match op {
        case Load(_) =>
        case Activate(id, t) =>
          RunIsBounded(who, before, t);
          KeepIsStable(NotId(id), Demoted(s, t));
        case Expire(t) => KeepIsStable(NotExpired(t), s.retained);
      }
    }
  }

  lemma {:induction false} AllExpired(rs: seq<Retained>, now: int)
    requires forall i :: 0 <= i < |rs| ==> rs[i].expiresAt <= now
    ensures Keep(NotExpired(now), rs) == []
  {
    if rs != [] {
      AllExpired(rs[..|rs| - 1], now);
    }
  }

  // So expiring removes a front of the list.
  lemma {:induction false} ExpireRemovesAPrefix(rs: seq<Retained>, now: int)
    requires ByExpiry(rs)
    ensures var kept := Keep(NotExpired(now), rs); |kept| <= |rs| && kept == rs[|rs| - |kept|..]
  {
    if rs != [] {
      var rest, last := rs[..|rs| - 1], rs[|rs| - 1];
      if last.expiresAt <= now {
        AllExpired(rs, now);
      } else {
        ExpireRemovesAPrefix(rest, now);
        var kept := Keep(NotExpired(now), rest);
        var n := |rest| - |kept|;
        assert Keep(NotExpired(now), rs) == kept + [last] && rs[n..] == rest[n..] + [last];
      }
    }
  }

  // Nothing among these operations takes the entry away: neither its reactivation, nor an
  // expiry at or past its time.
  predicate Spares(ops: seq<Op>, r: Retained) {
    forall i :: 0 <= i < |ops| ==>
      match ops[i]
      case Load(_) => true
      case Activate(id, _) => id != r.manifest.manifestId
      case Expire(now) => now < r.expiresAt
  }

  // A demoted manifest stays retained through any operations that spare it, and no longer:
  // its reactivation, or an expiry at or past its time, removes it at once.
  lemma {:induction false} RetainedUntilTakenAway(who: Identity, before: seq<Op>, more: seq<Op>, r: Retained)
    requires r in Run(who, before).retained && Spares(more, r)
    ensures r in Run(who, before + more).retained
  {
    if more == [] {
      assert before + more == before;
    } else {
      var init, op := more[..|more| - 1], more[|more| - 1];
      RetainedUntilTakenAway(who, before, init, r);
      assert (before + more)[..|before + more| - 1] == before + init;
      var s := Run(who, before + init);
      match op {
        case Load(_) =>
        case Activate(id, t) => KeepSays(NotId(id), Demoted(s, t));
        case Expire(t) => KeepSays(NotExpired(t), s.retained);
      }
    }
  }

  lemma {:induction false} TakenAwayAtOnce(who: Identity, s: State, r: Retained, op: Op)
    requires Good(who, s) && r in s.retained && !Spares([op], r)
    ensures r !in Step(who, s, op).retained
    ensures op.Activate? ==> Step(who, s, op).current == Some(s.loaded[r.manifest.manifestId])
  {
    assert Spares([op], r) <==> match op
      case Load(_) => true
      case Activate(id, _) => id != r.manifest.manifestId
      case Expire(now) => now < r.expiresAt;
    var i :| 0 <= i < |s.retained| && s.retained[i] == r;
    match op
    case Load(_) =>
    case Activate(id, t) => KeepSays(NotId(id), Demoted(s, t));
    case Expire(t) => KeepSays(NotExpired(t), s.retained);
  }

  // A demotion: the manifest that was current is retained for the full period.
  lemma {:induction false} DemotionRetains(who: Identity, s: State, id: Text, now: int)
    requires s.current.Some? && id in s.loaded && !IsCurrent(s, id)
    ensures Retained(s.current.value, now + RETENTION) in Step(who, s, Activate(id, now)).retained
  {
    KeepSays(NotId(id), Demoted(s, now));
  }

  // ---------- the switcher ----------

  class Switcher {
    const clock: nat -> int    // what the clock shows, reading by reading
    const who: Identity
    var ticks: nat
    var loaded: map<Text, IndexManifest>
    var current: Option<IndexManifest>
    var buf: array<Retained>   // the first `count` entries are retained
    var count: nat

    ghost predicate Valid()
      reads this
    {
      count <= buf.Length
    }

    ghost function View(): State
      requires Valid()
      reads this, buf
    {
      State(loaded, current, buf[..count])
    }

    constructor (clock: nat -> int, who: Identity)
      ensures Valid() && View() == Run(who, []) && this.clock == clock && this.who == who && fresh(buf)
    {
      this.clock, this.who, this.ticks, this.loaded, this.current, this.count := clock, who, 0, map[], None, 0;
      this.buf := new Retained[0];
    }

    method LoadManifest(m: IndexManifest) returns (ok: bool)
      requires Valid()
      modifies this`loaded
      ensures Valid() && View() == Step(who, old(View()), Load(m)) && (ok <==> Loadable(who, m))
    {
      ok := Validate(m);
      if !ok || m.manifestId != who(m) {
        return false;
      }
      loaded := loaded[m.manifestId := m];
    }

    // Appending, into a larger buffer if this one is full.
    method Append(r: Retained)
      requires Valid()
      modifies this`buf, this`count, buf
      ensures Valid() && View() == old(View()).(retained := old(View()).retained + [r])
      ensures buf == old(buf) || fresh(buf)
    {
      if count == buf.Length {
        var larger := new Retained[2 * count + 1];
        for i := 0 to count
          invariant larger[..i] == buf[..i]
          modifies larger
        {
          larger[i] := buf[i];
        }
        buf := larger;
      }
      buf[count] := r;
      count := count + 1;
    }

    method ActivateManifest(id: Text) returns (ok: bool)
      requires Valid()
      modifies this`ticks, this`current, this`buf, this`count, buf
      ensures Valid() && View() == Step(who, old(View()), Activate(id, clock(old(ticks)))) && (ok <==> id in loaded)
      ensures buf == old(buf) || fresh(buf)
    {
      ok := id in loaded;
      if !ok || (current.Some? && current.value.manifestId == id) {
        return;
      }
      if current.Some? {
        Append(Retained(current.value, clock(ticks) + RETENTION));
        ticks := ticks + 1;
      }
      current := Some(loaded[id]);
      DropRetained(id);
    }

    // Filters the buffer in place.
    method DropRetained(id: Text)
      requires Valid()
      modifies this`count, buf
      ensures Valid() && View() == old(View()).(retained := Keep(NotId(id), old(View()).retained))
    {
      ghost var all := buf[..count];
      var out := 0;
      for i := 0 to count
        invariant out <= i && buf[..out] == Keep(NotId(id), all[..i])
        invariant forall k :: i <= k < count ==> buf[k] == all[k]
        modifies buf
      {
        hide Keep;
        KeepOneMore(NotId(id), all, i);
        if buf[i].manifest.manifestId != id {
          buf[out] := buf[i];
          assert buf[..out + 1] == buf[..out] + [all[i]];
          out := out + 1;
        }
      }
      assert all[..count] == all;
      count := out;
    }

    // Removes what has expired, in place, and counts it.
    method ExpireRetained(now: int) returns (removed: nat)
      requires Valid()
      modifies this`count, buf
      ensures Valid() && View() == Step(who, old(View()), Expire(now))
      ensures removed == old(count) - count
    {
      ghost var all := buf[..count];
      var kept := 0;
      removed := 0;
      for i := 0 to count
        invariant kept <= i && buf[..kept] == Keep(NotExpired(now), all[..i])
        invariant forall k :: i <= k < count ==> buf[k] == all[k]
        invariant removed == i - kept
        modifies buf
      {
        hide Keep;
        KeepOneMore(NotExpired(now), all, i);
        if buf[i].expiresAt <= now {
          removed := removed + 1;
        } else {
          buf[kept] := buf[i];
          assert buf[..kept + 1] == buf[..kept] + [all[i]];
          kept := kept + 1;
        }
      }
      assert all[..count] == all;
      count := kept;
    }

    // The retained manifests that have not expired by the clock, in order of demotion.
    method Visible() returns (out: seq<IndexManifest>)
      requires Valid()
      modifies this`ticks
      ensures View() == old(View())
      ensures var kept := Keep(NotExpired(clock(old(ticks))), View().retained);
              |out| == |kept| && forall i :: 0 <= i < |out| ==> out[i] == kept[i].manifest
    {
      var now := clock(ticks);
      ticks := ticks + 1;
      out := [];
      ghost var all := buf[..count];
      for i := 0 to count
        invariant |out| == |Keep(NotExpired(now), all[..i])|
        invariant forall k :: 0 <= k < |out| ==> out[k] == Keep(NotExpired(now), all[..i])[k].manifest
      {
        KeepOneMore(NotExpired(now), all, i);
        if buf[i].expiresAt > now {
          out := out + [buf[i].manifest];
        }
      }
      assert all[..count] == all;
    }

    method Current() returns (r: Option<IndexManifest>)
      requires Valid()
      ensures r == View().current
    {
      r := current;
    }
  }
}
