// The fact delivery worker, run against the world of module FactWorld while everybody
// else moves too.
module FactWorker {
  import opened Basics
  import opened FactWorld

  // `pick` settles what DC leaves open: the length of a read, the time of a receipt.
  datatype Turn = Turn(before: seq<Act>, pick: nat, answered: bool, after: seq<Act>)

  // The requests that ask an authority to change something.
  predicate Writes(m: Msg) {
    m.Append? || m.AckEvents?
  }

  function Asks(m: Msg): seq<Msg> {
    if Writes(m) then [m] else []
  }

  // What one worker has asked for in this way, in order.
  function AskedBy(acts: seq<Act>, me: nat): seq<Msg> {
    if acts == [] then []
    else
      var a := acts[|acts| - 1];
      AskedBy(acts[..|acts| - 1], me) + (if a.Send? && a.worker == me then Asks(a.m) else [])
  }

  // Moves of others: nobody moves in this worker's name.
  function Others(acts: seq<Act>, me: nat): seq<Act> {
    if acts == [] then []
    else
      var last := acts[|acts| - 1];
      Others(acts[..|acts| - 1], me) + (if last.Send? && last.worker == me then [] else [last])
  }

  // What happens during one call: others move, the request goes out, the authority serves it or
  // does not, and others move again.
  function Moves(turn: Turn, me: nat, m: Msg): seq<Act> {
    Others(turn.before, me) + [Send(me, m)] + (if turn.answered then [Act.Serve(m, turn.pick)] else [])
        + Others(turn.after, me)
  }

  lemma {:induction false} MovesThenOthers(turn: Turn, me: nat, m: Msg)
    ensures Moves(turn, me, m) == Moves(turn.(after := []), me, m) + Others(turn.after, me)
  {
  }

  // Some service of m takes `before` to `after` with answer r.
  ghost predicate Answers(before: World, m: Msg, after: World, r: Reply) {
    exists pick :: Exec(before, m, pick) == (after, r)
  }

  lemma {:induction false} BehaviorLength(trace: seq<World>, log: seq<Act>)
    requires Behavior(trace, log)
    ensures |trace| == |log| + 1
  {
  }

  lemma {:induction false} SamePrefix(known: seq<World>, trace: seq<World>)
    requires known <= trace
    ensures forall i :: 0 <= i < |known| ==> trace[i] == known[i]
  {
  }

  // The authorities are in the same state; what is on the wire may differ.
  ghost predicate SameState(a: World, b: World) {
    a.dc == b.dc && a.facts == b.facts && a.batchHash == b.batchHash
  }

  // The request was served once, with this answer.
  ghost predicate Performed(before: World, m: Msg, pick: nat, after: World, r: Reply) {
    r == Exec(before, m, pick).1 && SameState(after, Exec(before, m, pick).0)
  }

  lemma {:induction false} SameAnswers(a: World, b: World, m: Msg, pick: nat)
    requires SameState(a, b)
    ensures Exec(a, m, pick).1 == Exec(b, m, pick).1 && SameState(Exec(b, m, pick).0, Exec(a, m, pick).0)
  {
  }

  class Wire {
    const me: nat
    const turns: nat -> Turn
    var calls: nat
    var world: World
    ghost var trace: seq<World>  // the run so far
    ghost var log: seq<Act>      // its moves, by anybody
    ghost var asked: seq<Msg>    // what this worker has asked the authorities to change
    ghost var served: nat        // trace[served] follows the service of the latest answered call

    constructor (me: nat, start: World, turns: nat -> Turn)
      requires Initial(start)
      ensures Valid() && world == start && asked == []
      ensures this.me == me && this.turns == turns && calls == 0 && log == []
    {
      this.me, this.turns := me, turns;
      calls, world, trace, log := 0, start, [start], [];
      asked, served := [], 0;
    }

    ghost predicate Valid()
      reads this
    {
      Behavior(trace, log) && world == trace[|log|] && served <= |log| && asked == AskedBy(log, me)
    }

    // Nobody else moves, every request is served at once and answered, and DC reads this many.
    ghost predicate Undisturbed(pick: nat) {
      forall n: nat :: turns(n) == Turn([], pick, true, [])
    }

    // One move, by this worker or by another.
    method Step(a: Act)
      requires Valid()
      modifies this`world, this`trace, this`log, this`asked
      ensures Valid() && world == Apply(old(world), a)
      ensures log == old(log) + [a] && trace == old(trace) + [world]
      ensures asked == old(asked) + (if a.Send? && a.worker == me then Asks(a.m) else [])
    {
      world := Apply(world, a);
      assert (log + [a])[..|log|] == log;
      trace, log := trace + [world], log + [a];
      asked := AskedBy(log, me);
    }

    // Others move.
    method Drift(acts: seq<Act>)
      requires Valid()
      modifies this`world, this`trace, this`log, this`asked
      ensures Valid() && old(trace) <= trace && asked == old(asked) && (acts == [] ==> world == old(world))
      ensures log == old(log) + Others(acts, me)
    {
      for i := 0 to |acts|
        invariant Valid() && old(trace) <= trace && asked == old(asked) && (acts == [] ==> world == old(world))
        invariant log == old(log) + Others(acts[..i], me)
      {
        assert acts[..i + 1][..i] == acts[..i];
        if !(acts[i].Send? && acts[i].worker == me) {
          Step(acts[i]);
        }
      }
      assert acts[..|acts|] == acts;
    }

    // Others move, then this worker puts a request on the wire.
    method Post(m: Msg, acts: seq<Act>)
      requires Valid() && Justified(world, m)
      modifies this`world, this`trace, this`log, this`asked
      ensures Valid() && m in world.sent && old(trace) < trace && asked == old(asked) + Asks(m)
      ensures log == old(log) + Others(acts, me) + [Send(me, m)]
      ensures acts == [] ==> SameState(world, old(world))
    {
      ghost var n := |log|;
      Drift(acts);
      assert trace[n] == old(world);
      LaterWorldsEvolve(trace, log, n, |log|);
      JustifiedStays(old(world), world, m);
      Step(Send(me, m));
    }

    // The authority serves a request that is on the wire.
    method Serve(m: Msg, pick: nat) returns (r: Reply)
      requires Valid() && m in world.sent
      modifies this`world, this`trace, this`log, this`asked, this`served
      ensures Valid() && old(trace) <= trace && |old(log)| < served && asked == old(asked)
      ensures Answers(trace[served - 1], m, trace[served], r) && (world, r) == Exec(old(world), m, pick)
      ensures log == old(log) + [Act.Serve(m, pick)] && served == |log|
    {
      r := Exec(world, m, pick).1;
      Step(Act.Serve(m, pick));
      served := |log|;
    }

    // A request goes out after others moved, and is perhaps served later.
    method Offer(m: Msg, turn: Turn) returns (r: Reply)
      requires Valid() && Justified(world, m)
      modifies this`world, this`trace, this`log, this`asked, this`served
      ensures Valid() && old(trace) <= trace && asked == old(asked) + Asks(m)
      ensures r != NoReply ==> |old(log)| < served && Answers(trace[served - 1], m, trace[served], r)
      ensures log == old(log) + Moves(turn.(after := []), me, m)
      ensures if turn.answered then (world, r) == Exec(trace[|log| - 1], m, turn.pick) else r == NoReply
      ensures turn.before == [] && turn.answered ==> Performed(old(world), m, turn.pick, world, r)
    {
      hide Behavior, Answers, AskedBy, Justified, Exec;
      BehaviorLength(trace, log);
      Post(m, turn.before);
      BehaviorLength(trace, log);
      r := NoReply;
      ghost var posted := world;
      if turn.answered {
        r := Serve(m, turn.pick);
        if turn.before == [] {
          SameAnswers(old(world), posted, m, turn.pick);
        }
      }
    }

    // One remote call. An answer means the authority served the request once, taking
    // trace[served - 1] to trace[served] during this call; no answer means nothing.
    method Exchange(m: Msg) returns (r: Reply)
      requires Valid() && Justified(world, m)
      modifies this
      ensures Valid() && old(trace) <= trace && asked == old(asked) + Asks(m)
      ensures r != NoReply ==> |old(log)| < served && Answers(trace[served - 1], m, trace[served], r)
      ensures calls == old(calls) + 1 && log == old(log) + Moves(turns(old(calls)), me, m)
      ensures turns(old(calls)).answered || r == NoReply
      ensures forall pick :: Undisturbed(pick) ==> Performed(old(world), m, pick, world, r)
    {
      hide Behavior, Answers, AskedBy, Performed, Justified, Exec, Moves, Others;
      var turn := turns(calls);
      calls := calls + 1;
      MovesThenOthers(turn, me, m);
      r := Offer(m, turn);
      ghost var known := trace;
      BehaviorLength(trace, log);
      Drift(turn.after);
      SamePrefix(known, trace);
    }

    method Call(m: Msg) returns (r: Reply)
      requires Valid() && Justified(world, m)
      modifies this
      ensures Valid() && Evolves(old(world), world) && old(trace) <= trace && asked == old(asked) + Asks(m)
      ensures r != NoReply ==>
                && |old(log)| < served && Inv(trace[served - 1])
                && Evolves(old(world), trace[served - 1]) && Evolves(trace[served], world)
                && Answers(trace[served - 1], m, trace[served], r)
      ensures calls == old(calls) + 1 && log == old(log) + Moves(turns(old(calls)), me, m)
      ensures forall pick :: Undisturbed(pick) ==> Performed(old(world), m, pick, world, r)
    {
      hide Performed;
      ghost var k := |log|;
      r := Exchange(m);
      assert trace[k] == old(world);
      LaterWorldsEvolve(trace, log, k, |log|);
      if r != NoReply {
        LaterWorldsEvolve(trace, log, k, served - 1);
        LaterWorldsEvolve(trace, log, served, |log|);
        EveryWorldIsSafe(trace, log, served - 1);
      }
    }

    // ---------- the clients ----------

    // A read returns a stretch of DC's own log and never moves the cursor.
    method Read(limit: int) returns (r: Option<Batch>)
      requires Valid()
      modifies this
      ensures Valid() && old(trace) <= trace && asked == old(asked) && Keeps(old(world), world)
      ensures r.Some? ==> FromLog(world, r.value)
      ensures forall pick :: Undisturbed(pick) && Readable(old(world), limit, pick) ==>
                r == Some(FactWorld.Read(old(world), pick)) && SameState(world, old(world))
    {
      var reply := Call(ReadEvents(limit));
      r := if reply.BatchReply? then Some(reply.batch) else None;
    }

    method EventReceipt(eventId: string) returns (r: Option<EventReceipt>)
      requires Valid()
      modifies this
      ensures Valid() && old(trace) <= trace && asked == old(asked) && Keeps(old(world), world)
      ensures r.Some? ==> r.value.receivedAt == ReceivedAt(world.dc, r.value.offset)
      ensures forall pick :: Undisturbed(pick) && FindEvent(old(world).dc.items, eventId).Some? ==>
                SameState(world, old(world)) && r == Some(ReceiptOf(old(world).dc, eventId))
    {
      var reply := Call(GetReceipt(eventId));
      r := if reply.EventReply? then Some(reply.receipt) else None;
      if r.Some? {
        ReceiptTimeStays(trace[served - 1], eventId, trace[served], reply, world);
      }
    }

    method Acknowledge(ack: Acknowledge) returns (r: Option<(string, string, int)>)
      requires Valid() && Justified(world, AckEvents(ack))
      modifies this
      ensures Valid() && old(trace) <= trace && asked == old(asked) + [AckEvents(ack)] && Keeps(old(world), world)
      ensures r.Some? ==> ack.to <= world.dc.cursor
      ensures forall pick :: Undisturbed(pick) && AckFits(old(world), ack) ==>
                r == Some((old(world).dc.consumer, old(world).dc.producer, ack.to)) && world.dc.cursor == ack.to
                && world.facts == old(world).facts
    {
      var reply := Call(AckEvents(ack));
      r := if reply.AckReply? then Some((reply.consumer, reply.producer, reply.offset)) else None;
    }

    method AppendFact(fact: Fact) returns (r: Option<Receipt>)
      requires Valid()
      modifies this
      ensures Valid() && old(trace) <= trace && asked == old(asked) + [Append(fact)] && Keeps(old(world), world)
      ensures r.Some? ==> r.value.fact == fact
      ensures forall pick :: Undisturbed(pick) && Acceptable(old(world).facts, fact) ==>
                SameState(world, old(world).(facts := AppendServe(old(world).facts, fact).0))
                && r.Some? && AppendServe(old(world).facts, fact).1 == FactReply(r.value)
    {
      var reply := Call(Append(fact));
      r := if reply.FactReply? then Some(reply.fact) else None;
    }

    // The store's current word on a key; an accepted key has its Outbox row.
    method Current(subject: string, key: EventKey) returns (r: Option<Receipt>)
      requires Valid()
      modifies this
      ensures Valid() && old(trace) <= trace && asked == old(asked) && Keeps(old(world), world)
      ensures r.Some? && r.value.status.Committed? && r.value.key == key ==>
                key in world.facts.entries && world.facts.entries[key].fact == r.value.fact
                && world.facts.entries[key].now == r.value.status && key in world.facts.outbox
      ensures forall pick ::
                Undisturbed(pick) && key in old(world).facts.entries
                && old(world).facts.entries[key].fact.meaning.subject == subject ==>
                  SameState(world, old(world))
                  && r == Some(Receipt(subject, key, old(world).facts.entries[key].fact,
                                       old(world).facts.entries[key].now, false))
    {
      var reply := Call(CurrentReceipt(subject, key));
      r := if reply.FactReply? then Some(reply.fact) else None;
      if r.Some? && r.value.status.Committed? && r.value.key == key {
        EveryWorldIsSafe(trace, log, |log|);
      }
    }
  }

  // DC can answer a read of this many events.
  predicate Readable(w: World, limit: int, pick: nat) {
    0 <= w.dc.cursor && pick <= limit && w.dc.cursor + pick <= |w.dc.items|
  }

  function ReceiptOf(dc: Dc, eventId: string): EventReceipt
    requires FindEvent(dc.items, eventId).Some?
  {
    var item := FindEvent(dc.items, eventId).value;
    EventReceipt(eventId, dc.producer, item.offset, item.inputHash, "accepted", "receipt/" + eventId,
                 ReceivedAt(dc, item.offset))
  }

  predicate AckFits(w: World, a: Acknowledge) {
    a.from == w.dc.cursor + 1 && 1 <= a.from <= a.to <= |w.dc.items|
    && a.batchHash == w.batchHash(w.dc.items[a.from - 1..a.to])
  }

  // The store accepts this fact at once, or has already accepted exactly it.
  predicate Acceptable(f: Facts, fact: Fact) {
    if fact.key in f.entries then f.entries[fact.key].fact == fact && f.entries[fact.key].now.Committed?
    else
      fact.meaning.supersedes.None?
      || (fact.meaning.supersedes.value in f.entries && f.entries[fact.meaning.supersedes.value].now.Committed?)
  }

  lemma {:induction false} FindEventSays(items: seq<Item>, id: string)
    ensures FindEvent(items, id).Some? ==> FindEvent(items, id).value in items
  {
    if items != [] && items[0].event.eventId != id {
      FindEventSays(items[1..], id);
    }
  }

  // The time a receipt names is the one DC took the event in at, then and later.
  lemma {:induction false} ReceiptTimeStays(before: World, id: string, after: World, r: Reply, later: World)
    requires Inv(before) && Answers(before, GetReceipt(id), after, r) && r.EventReply? && Evolves(after, later)
    ensures r.receipt.receivedAt == ReceivedAt(later.dc, r.receipt.offset)
  {
    FindEventSays(before.dc.items, id);
  }

  // What the worker may carry from one call to the next.
  ghost predicate Keeps(a: World, b: World) {
    a.dc.items <= b.dc.items && a.dc.received <= b.dc.received && a.dc.producer == b.dc.producer
    && a.dc.cursor <= b.dc.cursor && a.batchHash == b.batchHash
  }

  // The batch is a stretch of DC's log, in place.
  ghost predicate FromLog(w: World, b: Batch) {
    b.producer == w.dc.producer && 1 <= b.from && b.to == b.from + |b.items| - 1 && b.to <= |w.dc.items|
    && (forall i :: 0 <= i < |b.items| ==> AtOffset(w, b.items[i], b.from + i))
    && b.batchHash == w.batchHash(b.items)
  }

  ghost predicate AtOffset(w: World, item: Item, offset: int) {
    1 <= offset <= |w.dc.items| && w.dc.items[offset - 1] == item && item.offset == offset
  }

  lemma {:induction false} FromLogStays(a: World, b: World, batch: Batch)
    requires FromLog(a, batch) && Keeps(a, b)
    ensures FromLog(b, batch)
    ensures forall i :: 0 <= i < |batch.items| ==> AtOffset(b, batch.items[i], batch.from + i)
  {
  }

  // ---------- what the worker compares ----------

  datatype Error = Contract | Pending | Unavailable

  datatype Binding = Binding(action: Option<Action>, allowed: seq<Action>)

  datatype Result = Result(count: int, newFacts: int, replayed: int, ackedOffset: int, empty: bool)

  predicate ValidHash(h: string) {
    |h| == 64 && forall i :: 0 <= i < |h| ==> '0' <= h[i] <= '9' || 'a' <= h[i] <= 'f'
  }

  predicate TokenStart(c: char) {
    'A' <= c <= 'Z' || 'a' <= c <= 'z' || '0' <= c <= '9'
  }

  predicate ValidToken(t: string) {
    1 <= |t| <= 192 && TokenStart(t[0])
    && forall i :: 1 <= i < |t| ==> TokenStart(t[i]) || t[i] in "_.:/@-"
  }

  predicate BindingAllows(b: Binding, a: Action) {
    if b.action.Some? then b.action.value == a else a in b.allowed
  }

  class FactWorker {
    const wire: Wire
    const consumer: string
    const producer: string
    const batchLimit: int
    const bindings: map<(string, int), Binding>
    const bind: nat -> Option<Meaning>     // what the trusted binder answers, call by call
    var binds: nat

    constructor (wire: Wire, consumer: string, producer: string, batchLimit: int,
                 bindings: map<(string, int), Binding>, bind: nat -> Option<Meaning>)
      ensures this.wire == wire && this.consumer == consumer && this.producer == producer
              && this.batchLimit == batchLimit && this.bindings == bindings && this.bind == bind && binds == 0
    {
      this.wire, this.consumer, this.producer := wire, consumer, producer;
      this.batchLimit, this.bindings, this.bind, this.binds := batchLimit, bindings, bind, 0;
    }

    predicate ValidItem(item: Item, offset: int) {
      item.offset == offset && ValidHash(item.inputHash) && item.event.producer == producer
      && ValidToken(item.event.eventId) && (item.event.eventType, item.event.schemaVersion) in bindings
      && item.event.operationId != "" && item.event.aggregateId != "" && item.event.aggregateVersion >= 1
      && item.event.occurredAt.Some?
    }

    predicate ValidBatch(b: Batch) {
      b.consumer == consumer && b.producer == producer && b.from >= 1 && |b.items| <= batchLimit
      && ValidHash(b.batchHash)
      && b.to == b.from + |b.items| - 1
      && forall i :: 0 <= i < |b.items| ==> ValidItem(b.items[i], b.from + i)
    }

    // The binding of this event allows this action: the one it fixes, or one it lists.
    predicate Permits(event: Event, action: Action) {
      (event.eventType, event.schemaVersion) in bindings
      && var b := bindings[(event.eventType, event.schemaVersion)];
         b.action == Some(action) || (b.action.None? && action in b.allowed)
    }

    // This request commits the event at this offset, which is valid, with this answer of the
    // binder, whose action the binding of the event allows.
    predicate IsAppendFor(m: Msg, dc: Dc, offset: int, meaning: Option<Meaning>) {
      m.Append? && IsFactOf(m.fact, dc, offset) && meaning == Some(m.fact.meaning)
      && ValidItem(dc.items[offset - 1], offset)
      && Permits(dc.items[offset - 1].event, m.fact.meaning.action)
    }

    lemma {:induction false} AppendStays(m: Msg, a: Dc, b: Dc, offset: int, meaning: Option<Meaning>)
      requires IsAppendFor(m, a, offset, meaning)
      requires a.items <= b.items && a.received <= b.received && a.producer == b.producer
      ensures IsAppendFor(m, b, offset, meaning)
    {
    }

    // One more request was asked: to commit the event at this offset.
    predicate AppendAsked(before: seq<Msg>, after: seq<Msg>, dc: Dc, offset: int, meaning: Option<Meaning>) {
      |after| == |before| + 1 && before == after[..|before|] && IsAppendFor(after[|before|], dc, offset, meaning)
    }

    // ---------- what an undisturbed pass finds ----------

    function FactFor(dc: Dc, item: Item, meaning: Meaning): Fact
      requires item.event.occurredAt.Some? && ReceivedAt(dc, item.offset).Some?
    {
      Fact(meaning, EventKey(dc.producer, item.event.eventId), item.inputHash, item.offset, item.event.occurredAt.value,
           ReceivedAt(dc, item.offset).value)
    }

    // Nothing stands in the way of this event: DC knows its ID as this one, the binder's
    // answer is allowed, and the store accepts the fact or has it already.
    predicate CanCommit(w: World, item: Item, meaning: Option<Meaning>) {
      item.event.occurredAt.Some? && FindEvent(w.dc.items, item.event.eventId) == Some(item)
      && ReceivedAt(w.dc, item.offset).Some? && meaning.Some? && Permits(item.event, meaning.value.action)
      && Acceptable(w.facts, FactFor(w.dc, item, meaning.value))
    }

    ghost function AfterItem(w: World, item: Item, meaning: Option<Meaning>): World {
      if CanCommit(w, item, meaning)
      then w.(facts := AppendServe(w.facts, FactFor(w.dc, item, meaning.value)).0)
      else w
    }

    // The world once the first k events behind the cursor are committed.
    ghost function AfterItems(w: World, k: nat, first: nat): (after: World)
      ensures after.dc == w.dc && after.batchHash == w.batchHash
    {
      if k == 0 || w.dc.cursor < 0 || |w.dc.items| < w.dc.cursor + k then w
      else AfterItem(AfterItems(w, k - 1, first), w.dc.items[w.dc.cursor + k - 1], bind(first + k - 1))
    }

    // Nothing stands in the way of these events, one after the other.
    ghost predicate CanDeliver(w: World, pick: nat, first: nat) {
      Readable(w, batchLimit, pick) && ValidBatch(FactWorld.Read(w, pick))
      && forall k: nat :: k < pick ==>
           CanCommit(AfterItems(w, k, first), w.dc.items[w.dc.cursor + k], bind(first + k))
    }

    // These events, as DC answers a read of them.
    ghost predicate CanCommitAll(w: World, batch: Batch, pick: nat, first: nat) {
      CanDeliver(w, pick, first) && batch == FactWorld.Read(w, pick)
    }

    lemma {:induction false} BatchIsSmall(batch: Batch)
      requires ValidBatch(batch)
      ensures |batch.items| <= batchLimit
    {
    }

    // A fact whose first answer was its acceptance still has that version.
    lemma {:induction false} VersionsAgree()
      requires wire.Valid()
      ensures forall k :: k in wire.world.facts.entries && wire.world.facts.entries[k].first.Committed? ==>
                wire.world.facts.entries[k].now == wire.world.facts.entries[k].first
    {
      EveryWorldIsSafe(wire.trace, wire.log, |wire.log|);
    }

    // Commits one event as a fact. Success means that it is accepted with its Outbox row, as a
    // fact of exactly this event with the binder's answer of this call; an event that is only
    // pending is an error.
    method ProcessItem(item: Item) returns (err: Option<Error>, replay: bool)
      requires wire.Valid() && wire.world.dc.producer == producer
      requires ValidItem(item, item.offset) && AtOffset(wire.world, item, item.offset)
      modifies wire, this`binds
      ensures wire.Valid() && old(wire.trace) <= wire.trace && Keeps(old(wire.world), wire.world)
      ensures wire.asked == old(wire.asked)
              || AppendAsked(old(wire.asked), wire.asked, wire.world.dc, item.offset, bind(old(binds)))
      ensures err.None? ==> Delivered(wire.world, item.offset)
      ensures err.None? ==>
                binds == old(binds) + 1 && |wire.asked| == |old(wire.asked)| + 1
                && AppendAsked(old(wire.asked), wire.asked, wire.world.dc, item.offset, bind(old(binds)))
                && var fact := wire.asked[|old(wire.asked)|].fact;
                   fact.key in wire.world.facts.entries && wire.world.facts.entries[fact.key].fact == fact
      ensures forall pick :: wire.Undisturbed(pick) && CanCommit(old(wire.world), item, bind(old(binds))) ==>
                err.None? && SameState(wire.world, AfterItem(old(wire.world), item, bind(old(binds))))
                && (replay <==> EventKey(producer, item.event.eventId) in old(wire.world).facts.entries)
    {
      hide Behavior, AskedBy, Inv, ValidHash, ValidToken, FindEvent, Evolves;
      VersionsAgree();
      replay := false;
      var receipt := wire.EventReceipt(item.event.eventId);
      if receipt.None? {
        return Some(Unavailable), replay;
      }
      var dc := receipt.value;
      if dc.eventId != item.event.eventId || dc.producer != producer || dc.offset != item.offset
         || dc.inputHash != item.inputHash || dc.status != "accepted" || dc.receiptId == "" || dc.receivedAt.None? {
        return Some(Contract), replay;
      }
      var meaning := bind(binds);
      binds := binds + 1;
      if meaning.None? {
        return Some(Unavailable), replay;
      }
      if !BindingAllows(bindings[(item.event.eventType, item.event.schemaVersion)], meaning.value.action) {
        return Some(Contract), replay;
      }
      var key := EventKey(producer, item.event.eventId);
      var fact := Fact(meaning.value, key, item.inputHash, item.offset, item.event.occurredAt.value,
                       dc.receivedAt.value);
      var appended := wire.AppendFact(fact);
      if appended.None? {
        return Some(Unavailable), replay;
      }
      if appended.value.subject != meaning.value.subject || appended.value.key != key {
        return Some(Contract), replay;
      }
      var current := wire.Current(meaning.value.subject, key);
      if current.None? {
        return Some(Unavailable), replay;
      }
      if current.value.subject != meaning.value.subject || current.value.key != key
         || current.value.fact != appended.value.fact {
        return Some(Contract), replay;
      }
      if current.value.status.Pending? {
        return Some(if appended.value.status.Pending? then Error.Pending else Contract), replay;
      }
      if appended.value.status.Committed? && appended.value.status != current.value.status {
        return Some(Contract), replay;
      }
      return None, appended.value.replay || appended.value.status.Pending?;
    }

    // The events from `from` on, each asked to be committed once and in order, with the
    // binder's answers.
    predicate Appends(mine: seq<Msg>, dc: Dc, from: int, first: nat) {
      forall i: nat :: i < |mine| ==> IsAppendFor(mine[i], dc, from + i, bind(first + i))
    }

    lemma {:induction false} OneMoreAppend(before: seq<Msg>, mid: seq<Msg>, after: seq<Msg>, a: Dc, b: Dc, from: int,
            first: nat)
      requires before <= mid && Appends(mid[|before|..], a, from, first)
      requires a.items <= b.items && a.received <= b.received && a.producer == b.producer
      requires after == mid || AppendAsked(mid, after, b, from + |mid| - |before|, bind(first + |mid| - |before|))
      ensures before <= after && Appends(after[|before|..], b, from, first)
    {
      forall i: nat | i < |after| - |before| ensures IsAppendFor(after[|before|..][i], b, from + i, bind(first + i)) {
        if i < |mid| - |before| {
          assert after[|before| + i] == mid[|before| + i] == mid[|before|..][i];
          AppendStays(mid[|before|..][i], a, b, from + i, bind(first + i));
        }
      }
    }

    // Commits the events of a batch, one after the other, up to the first that fails.
    method CommitAll(batch: Batch) returns (err: Option<Error>, result: Result)
      requires wire.Valid() && wire.world.dc.producer == producer && ValidBatch(batch) && FromLog(wire.world, batch)
      modifies wire, this`binds
      ensures wire.Valid() && wire.world.dc.producer == producer && FromLog(wire.world, batch)
      ensures old(wire.asked) <= wire.asked
      ensures Appends(wire.asked[|old(wire.asked)|..], wire.world.dc, batch.from, old(binds))
      ensures err.None? ==>
                |wire.asked| == |old(wire.asked)| + |batch.items|
                && result.count == |batch.items| && !result.empty && result.newFacts + result.replayed == result.count
                && forall o :: batch.from <= o <= batch.to ==> Delivered(wire.world, o)
      ensures forall pick ::
                wire.Undisturbed(pick) && CanCommitAll(old(wire.world), batch, pick, old(binds)) ==>
                  err.None? && SameState(wire.world, AfterItems(old(wire.world), pick, old(binds)))
                  && |wire.world.facts.entries| == |old(wire.world).facts.entries| + result.newFacts
    {
      hide Delivered, FactsEvolve, OneVersionEach, ValidHash, ValidToken, Behavior, AskedBy, CanCommit, AfterItem;
      hide CanCommitAll, Appends, AppendAsked, IsAppendFor, FromLog, ValidBatch, ValidItem, AtOffset, IsFactOf,
           AfterItems;
      BatchSays(old(wire.world), batch, binds);
      result := Result(0, 0, 0, 0, false);
      NoAppends(wire.world.dc, batch.from, binds);
      assert wire.asked[|wire.asked|..] == [];
      for i := 0 to |batch.items|
        invariant wire.Valid() && wire.world.dc.producer == producer && FromLog(wire.world, batch)
        invariant Keeps(old(wire.world), wire.world)
        invariant old(wire.asked) <= wire.asked && |wire.asked| == |old(wire.asked)| + i && binds == old(binds) + i
        invariant Appends(wire.asked[|old(wire.asked)|..], wire.world.dc, batch.from, old(binds))
        invariant forall o :: batch.from <= o < batch.from + i ==> Delivered(wire.world, o)
        invariant result.count == i && result.newFacts + result.replayed == i && !result.empty
        invariant forall pick ::
                    wire.Undisturbed(pick) && CanCommitAll(old(wire.world), batch, pick, old(binds)) ==>
                      SameState(wire.world, AfterItems(old(wire.world), i, old(binds)))
                      && |wire.world.facts.entries| == |old(wire.world).facts.entries| + result.newFacts
      {
        ghost var before, asked := wire.world, wire.asked;
        ItemInBatch(batch, i);
        FromLogStays(wire.world, wire.world, batch);
        BehaviorLength(wire.trace, wire.log);
        ghost var n := |wire.log|;
        var e, replay := ProcessItem(batch.items[i]);
        LaterDelivered(before, n, batch.from, batch.from + i);
        FromLogStays(before, wire.world, batch);
        OneMoreAppend(old(wire.asked), asked, wire.asked, before.dc, wire.world.dc, batch.from, old(binds));
        NextItem(old(wire.world), before, batch, i, old(binds));
        if e.Some? {
          return e, result;
        }
        result := result.(count := result.count + 1, replayed := result.replayed + (if replay then 1 else 0),
                          newFacts := result.newFacts + (if replay then 0 else 1));
      }
      err := None;
    }

    lemma {:induction false} BatchSays(w: World, batch: Batch, first: nat)
      ensures ValidBatch(batch) ==> batch.to == batch.from + |batch.items| - 1
      ensures AfterItems(w, 0, first) == w
      ensures forall pick :: CanCommitAll(w, batch, pick, first) ==> |batch.items| == pick
    {
    }

    lemma {:induction false} NoAppends(dc: Dc, from: int, first: nat)
      ensures Appends([], dc, from, first)
    {
    }

    lemma {:induction false} ItemInBatch(batch: Batch, i: nat)
      requires ValidBatch(batch) && i < |batch.items|
      ensures ValidItem(batch.items[i], batch.items[i].offset) && batch.items[i].offset == batch.from + i
    {
    }

    lemma {:induction false} LaterDelivered(before: World, n: nat, from: int, to: int)
      requires wire.Valid() && n < |wire.trace| && wire.trace[n] == before
      requires forall o :: from <= o < to ==> Delivered(before, o)
      ensures forall o :: from <= o < to ==> Delivered(wire.world, o)
    {
      LaterWorldsEvolve(wire.trace, wire.log, n, |wire.log|);
      forall o | from <= o < to ensures Delivered(wire.world, o) {
        DeliveredStays(before, wire.world, o);
      }
    }

    // Committing the next event of the batch is the next step of an undisturbed pass.
    lemma {:induction false} NextItem(w: World, now: World, batch: Batch, i: nat, first: nat)
      requires i < |batch.items|
      ensures forall pick :: CanCommitAll(w, batch, pick, first) ==>
                SameState(now, AfterItems(w, i, first)) ==>
                  CanCommit(now, batch.items[i], bind(first + i))
                  && SameState(AfterItem(now, batch.items[i], bind(first + i)), AfterItems(w, i + 1, first))
                  && |AfterItems(w, i + 1, first).facts.entries|
                     == |now.facts.entries|
                        + (if EventKey(w.dc.producer, batch.items[i].event.eventId) in now.facts.entries then 0 else 1)
    {
      forall pick | CanCommitAll(w, batch, pick, first) && SameState(now, AfterItems(w, i, first))
        ensures CanCommit(now, batch.items[i], bind(first + i))
                && SameState(AfterItem(now, batch.items[i], bind(first + i)), AfterItems(w, i + 1, first))
                && |AfterItems(w, i + 1, first).facts.entries|
                   == |now.facts.entries|
                      + (if EventKey(w.dc.producer, batch.items[i].event.eventId) in now.facts.entries then 0 else 1)
      {
        assert batch.items[i] == w.dc.items[w.dc.cursor + i];
        assert CanCommit(AfterItems(w, i, first), w.dc.items[w.dc.cursor + i], bind(first + i));
      }
    }

    // The acknowledgement of exactly this stretch of DC's log.
    ghost predicate IsAckOf(m: Msg, w: World, from: int, to: int) {
      m.AckEvents? && 1 <= from <= to <= |w.dc.items| && m.ack.from == from && m.ack.to == to
      && m.ack.batchHash == w.batchHash(w.dc.items[from - 1..to])
    }

    // The commits of one batch, in order; at the end perhaps the acknowledgement of exactly
    // the events committed.
    ghost predicate OneBatch(mine: seq<Msg>, w: World, from: int, first: nat) {
      Appends(mine, w.dc, from, first)
      || (mine != [] && Appends(mine[..|mine| - 1], w.dc, from, first)
          && IsAckOf(mine[|mine| - 1], w, from, from + |mine| - 2))
    }

    // One batch. It is acknowledged only when every event in it is delivered, and then
    // exactly once; any error before that leaves the cursor to a later read.
    method RunOnce() returns (err: Option<Error>, result: Result, ghost from: int)
      requires wire.Valid() && wire.world.dc.producer == producer
      modifies wire, this`binds
      ensures wire.Valid()
      ensures old(wire.asked) <= wire.asked
      ensures OneBatch(wire.asked[|old(wire.asked)|..], wire.world, from, old(binds))
      ensures err == Some(Error.Pending) ==> Appends(wire.asked[|old(wire.asked)|..], wire.world.dc, from, old(binds))
      ensures err.None? ==> (result.empty <==> result.count == 0)
      ensures err.None? && result.empty ==> wire.asked == old(wire.asked)
      ensures err.None? && !result.empty ==>
                0 < result.count <= batchLimit && |wire.asked| == |old(wire.asked)| + result.count + 1
                && IsAckOf(wire.asked[|wire.asked| - 1], wire.world, from, result.ackedOffset)
                && result.ackedOffset <= wire.world.dc.cursor
                && result.newFacts + result.replayed == result.count
                && forall o :: 1 <= o <= result.ackedOffset ==> Delivered(wire.world, o)
      ensures forall pick :: wire.Undisturbed(pick) && CanDeliver(old(wire.world), pick, old(binds)) ==>
                err.None? && result.count == pick
                && wire.world.dc.cursor == old(wire.world).dc.cursor + pick
                && |wire.world.facts.entries| == |old(wire.world).facts.entries| + result.newFacts
    {
      hide Delivered, FactsEvolve, OneVersionEach, ValidHash, ValidToken, Behavior, AskedBy, Appends, FromLog, OneBatch;
      hide CanDeliver, CanCommitAll, ValidBatch, AfterItems, AckFits, Inv, IsAckOf;
      result, from := Result(0, 0, 0, 0, false), 0;
      ghost var start := wire.world;
      DeliverReads(start, binds);
      var read := wire.Read(batchLimit);
      assert wire.asked[|old(wire.asked)|..] == [];
      if read.None? {
        NothingAsked(wire.world, from, old(binds));
        return Some(Unavailable), result, from;
      }
      var batch := read.value;
      ReadSays(start, batch, binds);
      if !ValidBatch(batch) {
        NothingAsked(wire.world, from, old(binds));
        return Some(Contract), result, from;
      }
      if batch.items == [] {
        NothingAsked(wire.world, from, old(binds));
        return None, result.(empty := true), from;
      }
      BatchIsSmall(batch);
      from := batch.from;
      SamePasses(start, wire.world, batch, binds);
      err, result := CommitAll(batch);
      ghost var mine := wire.asked[|old(wire.asked)|..];
      assert wire.asked == old(wire.asked) + mine;
      AppendsOnly(mine, wire.world, from, old(binds));
      if err.Some? {
        return;
      }
      var fit := FactWorld.Acknowledge(batch.from, batch.to, batch.batchHash);
      AckOfBatch(start, wire.world, batch, fit, old(binds));
      ghost var before := wire.world;
      var ack := wire.Acknowledge(fit);
      assert wire.asked[|old(wire.asked)|..] == mine + [AckEvents(fit)];
      AppendsAndAck(mine, before, wire.world, batch, fit, old(binds));
      if ack.None? {
        return Some(Unavailable), result, from;
      }
      if ack.value != (batch.consumer, batch.producer, batch.to) {
        return Some(Contract), result, from;
      }
      PassedAreDelivered(batch.to);
      return None, result.(ackedOffset := batch.to), from;
    }

    lemma {:induction false} NothingAsked(w: World, from: int, first: nat)
      ensures OneBatch([], w, from, first) && Appends([], w.dc, from, first)
    {
    }

    lemma {:induction false} AppendsOnly(mine: seq<Msg>, w: World, from: int, first: nat)
      requires Appends(mine, w.dc, from, first)
      ensures OneBatch(mine, w, from, first)
    {
    }

    // What is on the wire makes no difference to a pass.
    lemma {:induction false} SamePass(a: World, b: World, k: nat, first: nat)
      requires SameState(a, b)
      ensures SameState(AfterItems(a, k, first), AfterItems(b, k, first))
    {
      if k > 0 {
        SamePass(a, b, k - 1, first);
      }
    }

    lemma {:induction false} SamePasses(a: World, b: World, batch: Batch, first: nat)
      ensures SameState(b, a) ==>
                forall pick :: CanCommitAll(a, batch, pick, first) ==>
                  CanCommitAll(b, batch, pick, first)
                  && SameState(AfterItems(b, pick, first), AfterItems(a, pick, first))
    {
      if SameState(b, a) {
        forall k: nat ensures SameState(AfterItems(a, k, first), AfterItems(b, k, first)) {
          SamePass(a, b, k, first);
        }
      }
    }

    lemma {:induction false} DeliverReads(w: World, first: nat)
      ensures forall pick :: CanDeliver(w, pick, first) ==> Readable(w, batchLimit, pick)
    {
    }

    // What an undisturbed pass reads is a valid batch.
    lemma {:induction false} ReadSays(w: World, batch: Batch, first: nat)
      ensures forall pick :: CanDeliver(w, pick, first) ==>
                Readable(w, batchLimit, pick) && |FactWorld.Read(w, pick).items| == pick
                && ValidBatch(FactWorld.Read(w, pick))
                && (batch == FactWorld.Read(w, pick) ==> CanCommitAll(w, batch, pick, first))
    {
    }

    lemma {:induction false} AckOfBatch(start: World, w: World, batch: Batch, fit: Acknowledge, first: nat)
      requires ValidBatch(batch) && FromLog(w, batch) && batch.items != []
      requires fit == FactWorld.Acknowledge(batch.from, batch.to, batch.batchHash)
      ensures IsAckOf(AckEvents(fit), w, batch.from, batch.to) && batch.to == batch.from + |batch.items| - 1
      ensures forall pick :: CanCommitAll(start, batch, pick, first)
                             && SameState(w, AfterItems(start, pick, first)) ==>
                AckFits(w, fit) && fit.to == start.dc.cursor + pick && batch.consumer == w.dc.consumer
                && batch.producer == w.dc.producer
    {
      assert batch.items == w.dc.items[batch.from - 1..batch.to];
    }

    lemma {:induction false} AppendsAndAck(mine: seq<Msg>, before: World, w: World, batch: Batch, fit: Acknowledge,
            first: nat)
      requires Appends(mine, before.dc, batch.from, first) && IsAckOf(AckEvents(fit), before, batch.from, batch.to)
      requires |mine| == |batch.items| && batch.to == batch.from + |batch.items| - 1
      requires Keeps(before, w)
      ensures OneBatch(mine + [AckEvents(fit)], w, batch.from, first)
              && IsAckOf(AckEvents(fit), w, batch.from, batch.to)
    {
      var all := mine + [AckEvents(fit)];
      assert all[..|all| - 1] == mine;
      forall i: nat | i < |mine| ensures IsAppendFor(mine[i], w.dc, batch.from + i, bind(first + i)) {
        AppendStays(mine[i], before.dc, w.dc, batch.from + i, bind(first + i));
      }
      assert w.dc.items[batch.from - 1..batch.to] == before.dc.items[batch.from - 1..batch.to];
    }

    lemma {:induction false} PassedAreDelivered(to: int)
      requires wire.Valid() && to <= wire.world.dc.cursor
      ensures forall o :: 1 <= o <= to ==> Delivered(wire.world, o)
    {
      EveryWorldIsSafe(wire.trace, wire.log, |wire.log|);
    }
  }
}
