// User fact delivery: DC keeps an append-only event log and one consumer cursor, the fact
// store accepts facts together with their Outbox row. As in module IndexWorld, a request
// once on the wire may be served never, once or many times, at any later moment.
module FactWorld {
  import opened Basics

  datatype Event = Event(
    producer: string, eventId: string, eventType: string, schemaVersion: int, operationId: string,
    aggregateId: string, aggregateVersion: int, occurredAt: Option<int>, payload: string)

  datatype Item = Item(offset: int, inputHash: string, event: Event)

  datatype Batch = Batch(consumer: string, producer: string, from: int, to: int, items: seq<Item>, batchHash: string)

  datatype EventReceipt = EventReceipt(
    eventId: string, producer: string, offset: int, inputHash: string, status: string, receiptId: string,
    receivedAt: Option<int>)

  datatype EventKey = EventKey(producer: string, eventId: string)

  datatype Action = Assert | Correct | Retract

  // What a trusted source adapter returns for one event.
  datatype Meaning = Meaning(subject: string, action: Action, supersedes: Option<EventKey>, content: string)

  // The event the store is asked to commit; it doubles as its own normalized hash.
  datatype Fact = Fact(
    meaning: Meaning, key: EventKey, evidenceHash: string, sequence: int, occurredAt: int, observedAt: int)

  datatype FactStatus = Pending | Committed(version: int)

  // `first` is how the append was answered the first time; replays repeat that answer.
  datatype Entry = Entry(fact: Fact, first: FactStatus, now: FactStatus)

  // received[o - 1] is when DC took in the event at offset o, if that time is readable.
  datatype Dc = Dc(consumer: string, producer: string, items: seq<Item>, received: seq<Option<int>>, cursor: int)

  // outbox[v - 1] is the key that was accepted as version v, in the same transaction.
  datatype Facts = Facts(entries: map<EventKey, Entry>, outbox: seq<EventKey>)

  datatype Acknowledge = Acknowledge(from: int, to: int, batchHash: string)

  datatype Msg =
    | ReadEvents(limit: int)
    | GetReceipt(eventId: string)
    | AckEvents(ack: Acknowledge)
    | Append(fact: Fact)
    | CurrentReceipt(subject: string, key: EventKey)

  datatype Receipt = Receipt(subject: string, key: EventKey, fact: Fact, status: FactStatus, replay: bool)

  datatype Reply =
    | NoReply
    | BatchReply(batch: Batch)
    | EventReply(receipt: EventReceipt)
    | AckReply(consumer: string, producer: string, offset: int)
    | FactReply(fact: Receipt)

  // `batchHash` is DC's digest of a stretch of its log.
  datatype World = World(dc: Dc, facts: Facts, batchHash: seq<Item> -> string, sent: set<Msg>)

  // ---------- the authorities ----------

  function Read(w: World, n: nat): Batch
    requires 0 <= w.dc.cursor && w.dc.cursor + n <= |w.dc.items|
  {
    var items := w.dc.items[w.dc.cursor..w.dc.cursor + n];
    Batch(w.dc.consumer, w.dc.producer, w.dc.cursor + 1, w.dc.cursor + n, items, w.batchHash(items))
  }

  function FindEvent(items: seq<Item>, id: string): Option<Item> {
    if items == [] then None
    else if items[0].event.eventId == id then Some(items[0])
    else FindEvent(items[1..], id)
  }

  function ReceivedAt(dc: Dc, offset: int): Option<int> {
    if 1 <= offset <= |dc.received| then dc.received[offset - 1] else None
  }

  // DC moves the cursor over exactly the stretch that follows it, if its digest matches.
  function AckServe(w: World, a: Acknowledge): (World, Reply) {
    if a.from == w.dc.cursor + 1 && a.from <= a.to <= |w.dc.items| && 1 <= a.from
       && a.batchHash == w.batchHash(w.dc.items[a.from - 1..a.to])
    then (w.(dc := w.dc.(cursor := a.to)), AckReply(w.dc.consumer, w.dc.producer, a.to))
    else (w, NoReply)
  }

  // A new key is accepted with its Outbox row, or kept pending while what it supersedes is
  // not accepted. A known key is answered as the first time; other content is refused.
  function AppendServe(f: Facts, fact: Fact): (Facts, Reply) {
    if fact.key in f.entries then
      var e := f.entries[fact.key];
      if e.fact != fact then (f, NoReply)
      else (f, FactReply(Receipt(e.fact.meaning.subject, fact.key, e.fact, e.first, true)))
    else
      var ready := fact.meaning.supersedes.None?
                   || (fact.meaning.supersedes.value in f.entries
                        && f.entries[fact.meaning.supersedes.value].now.Committed?);
      var status := if ready then Committed(|f.outbox| + 1) else Pending;
      (Facts(f.entries[fact.key := Entry(fact, status, status)], if ready then f.outbox + [fact.key] else f.outbox),
       FactReply(Receipt(fact.meaning.subject, fact.key, fact, status, false)))
  }

  // A pending fact is accepted later, with its Outbox row, at most once.
  function Promote(f: Facts, key: EventKey): Facts {
    if key in f.entries && f.entries[key].now.Pending?
    then Facts(f.entries[key := f.entries[key].(now := Committed(|f.outbox| + 1))], f.outbox + [key])
    else f
  }

  function Exec(w: World, m: Msg, pick: nat): (World, Reply) {
    match m
    case ReadEvents(limit) =>
      if 0 <= w.dc.cursor && pick <= limit && w.dc.cursor + pick <= |w.dc.items|
      then (w, BatchReply(Read(w, pick)))
      else (w, NoReply)
    case GetReceipt(id) =>
      var i := FindEvent(w.dc.items, id);
      if i.None? then (w, NoReply)
      else (w, EventReply(EventReceipt(id, w.dc.producer, i.value.offset, i.value.inputHash, "accepted",
                                       "receipt/" + id, ReceivedAt(w.dc, i.value.offset))))
    case AckEvents(a) => AckServe(w, a)
    case Append(fact) =>
      var (f, y) := AppendServe(w.facts, fact); (w.(facts := f), y)
    case CurrentReceipt(subject, key) =>
      if key in w.facts.entries && w.facts.entries[key].fact.meaning.subject == subject
      then var e := w.facts.entries[key]; (w, FactReply(Receipt(subject, key, e.fact, e.now, false)))
      else (w, NoReply)
  }

  // ---------- what each request may rest on ----------

  // The fact names exactly this event: its key, its position and input, its own time and the
  // time DC received it.
  predicate IsFactOf(fact: Fact, dc: Dc, offset: int) {
    1 <= offset <= |dc.items|
    && var item := dc.items[offset - 1];
       fact.key == EventKey(dc.producer, item.event.eventId) && fact.sequence == offset
       && fact.evidenceHash == item.inputHash && Some(fact.occurredAt) == item.event.occurredAt
       && Some(fact.observedAt) == ReceivedAt(dc, offset)
  }

  // The event at this offset has an accepted version and an Outbox row, as a fact of exactly
  // this event.
  predicate Delivered(w: World, offset: int) {
    1 <= offset <= |w.dc.items|
    && var key := EventKey(w.dc.producer, w.dc.items[offset - 1].event.eventId);
       key in w.facts.entries && w.facts.entries[key].now.Committed? && key in w.facts.outbox
       && IsFactOf(w.facts.entries[key].fact, w.dc, offset)
  }

  predicate Justified(w: World, m: Msg) {
    m.AckEvents? ==> forall o :: m.ack.from <= o <= m.ack.to ==> Delivered(w, o)
  }

  // ---------- runs ----------

  datatype Outside =
    | DcReceives(inputHash: string, event: Event, receivedAt: Option<int>)
    | StorePromotes(key: EventKey)

  datatype Act =
    | Send(worker: nat, m: Msg)
    | Serve(m: Msg, pick: nat)
    | Elsewhere(o: Outside)

  function Apply(w: World, a: Act): World {
    match a
    case Send(_, m) => if Justified(w, m) then w.(sent := w.sent + {m}) else w
    case Serve(m, pick) => if m in w.sent then Exec(w, m, pick).0 else w
    case Elsewhere(DcReceives(h, event, receivedAt)) =>
      w.(dc := w.dc.(items := w.dc.items + [Item(|w.dc.items| + 1, h, event)],
                     received := w.dc.received + [receivedAt]))
    case Elsewhere(StorePromotes(key)) => w.(facts := Promote(w.facts, key))
  }

  // ---------- what every move keeps ----------

  ghost predicate FactsEvolve(a: Facts, b: Facts) {
    a.outbox <= b.outbox
    && forall k :: k in a.entries ==>
         k in b.entries && b.entries[k].fact == a.entries[k].fact && b.entries[k].first == a.entries[k].first
         && (a.entries[k].now.Committed? ==> b.entries[k] == a.entries[k])
  }

  ghost predicate Evolves(a: World, b: World) {
    a.dc.items <= b.dc.items && a.dc.received <= b.dc.received && a.dc.cursor <= b.dc.cursor
    && a.dc.producer == b.dc.producer
    && a.dc.consumer == b.dc.consumer
    && a.batchHash == b.batchHash && FactsEvolve(a.facts, b.facts) && a.sent <= b.sent
  }

  ghost predicate Numbered(dc: Dc) {
    |dc.received| == |dc.items| && forall i :: 0 <= i < |dc.items| ==> dc.items[i].offset == i + 1
  }

  // Outbox rows and accepted versions correspond one to one.
  ghost predicate OneVersionEach(f: Facts) {
    (forall k :: k in f.entries && f.entries[k].now.Committed? ==>
       1 <= f.entries[k].now.version <= |f.outbox| && f.outbox[f.entries[k].now.version - 1] == k)
    && (forall i :: 0 <= i < |f.outbox| ==> f.outbox[i] in f.entries && f.entries[f.outbox[i]].now == Committed(i + 1))
    && (forall k :: k in f.entries ==> f.entries[k].fact.key == k)
    && (forall k :: k in f.entries && f.entries[k].first.Committed? ==> f.entries[k].now == f.entries[k].first)
  }

  ghost predicate CursorIsBacked(w: World) {
    0 <= w.dc.cursor <= |w.dc.items| && forall o :: 1 <= o <= w.dc.cursor ==> Delivered(w, o)
  }

  ghost predicate WireIsJustified(w: World) {
    forall m :: m in w.sent ==> Justified(w, m)
  }

  ghost predicate Inv(w: World) {
    Numbered(w.dc) && OneVersionEach(w.facts) && CursorIsBacked(w) && WireIsJustified(w)
  }

  ghost predicate Initial(w: World) {
    Numbered(w.dc) && OneVersionEach(w.facts) && w.dc.cursor == 0 && w.sent == {}
  }

  lemma {:induction false} EvolvesTransitive(a: World, b: World, c: World)
    requires Evolves(a, b) && Evolves(b, c)
    ensures Evolves(a, c)
  {
  }

  lemma {:induction false} DeliveredStays(a: World, b: World, offset: int)
    requires Evolves(a, b) && Delivered(a, offset)
    ensures Delivered(b, offset)
  {
  }

  lemma {:induction false} JustifiedStays(a: World, b: World, m: Msg)
    requires Evolves(a, b) && Justified(a, m)
    ensures Justified(b, m)
  {
    if m.AckEvents? {
      forall o | m.ack.from <= o <= m.ack.to ensures Delivered(b, o) {
        DeliveredStays(a, b, o);
      }
    }
  }

  lemma {:induction false} InvStays(a: World, b: World)
    requires Inv(a) && Evolves(a, b) && Numbered(b.dc) && OneVersionEach(b.facts)
    requires b.sent == a.sent && b.dc.cursor == a.dc.cursor
    ensures Inv(b)
  {
    forall o | 1 <= o <= b.dc.cursor ensures Delivered(b, o) {
      DeliveredStays(a, b, o);
    }
    forall x | x in b.sent ensures Justified(b, x) {
      JustifiedStays(a, b, x);
    }
  }

  // Accepting one key that has no version yet.
  lemma {:induction false} NewVersionKeeps(f: Facts, key: EventKey, e: Entry)
    requires OneVersionEach(f) && (key in f.entries ==> f.entries[key].now.Pending?)
    requires e.fact.key == key && e.now == Committed(|f.outbox| + 1) && (e.first.Pending? || e.first == e.now)
    ensures OneVersionEach(Facts(f.entries[key := e], f.outbox + [key]))
  {
    assert key !in f.outbox;
  }

  lemma {:induction false} NewPendingKeeps(f: Facts, key: EventKey, e: Entry)
    requires OneVersionEach(f) && key !in f.entries && e.fact.key == key && e.now.Pending? && e.first.Pending?
    ensures OneVersionEach(Facts(f.entries[key := e], f.outbox))
  {
  }

  lemma {:induction false} AppendKeeps(f: Facts, fact: Fact)
    requires OneVersionEach(f)
    ensures OneVersionEach(AppendServe(f, fact).0)
  {
    if fact.key !in f.entries {
      var f' := AppendServe(f, fact).0;
      var e := f'.entries[fact.key];
      if e.now.Committed? {
        NewVersionKeeps(f, fact.key, e);
      } else {
        NewPendingKeeps(f, fact.key, e);
      }
    }
  }

  lemma {:induction false} AppendEvolves(f: Facts, fact: Fact)
    ensures FactsEvolve(f, AppendServe(f, fact).0)
  {
  }

  lemma {:induction false} PromoteKeeps(f: Facts, key: EventKey)
    requires OneVersionEach(f)
    ensures OneVersionEach(Promote(f, key)) && FactsEvolve(f, Promote(f, key))
  {
    if key in f.entries && f.entries[key].now.Pending? {
      NewVersionKeeps(f, key, Promote(f, key).entries[key]);
    }
  }

  lemma {:induction false} AckKeeps(w: World, a: Acknowledge)
    requires Inv(w) && Justified(w, AckEvents(a))
    ensures Inv(AckServe(w, a).0) && Evolves(w, AckServe(w, a).0)
  {
    var w' := AckServe(w, a).0;
    forall o | 1 <= o <= w'.dc.cursor ensures Delivered(w', o) {
      DeliveredStays(w, w', o);
    }
    forall x | x in w'.sent ensures Justified(w', x) {
      JustifiedStays(w, w', x);
    }
  }

  lemma {:induction false} ExecKeepsInv(w: World, m: Msg, pick: nat)
    requires Inv(w) && Justified(w, m)
    ensures Inv(Exec(w, m, pick).0) && Evolves(w, Exec(w, m, pick).0)
  {
    if m.AckEvents? {
      AckKeeps(w, m.ack);
    } else if m.Append? {
      AppendKeeps(w.facts, m.fact);
      AppendEvolves(w.facts, m.fact);
      InvStays(w, Exec(w, m, pick).0);
    }
  }

  lemma {:induction false} SendKeepsInv(w: World, m: Msg)
    requires Inv(w) && Justified(w, m)
    ensures Inv(w.(sent := w.sent + {m})) && Evolves(w, w.(sent := w.sent + {m}))
  {
    var w' := w.(sent := w.sent + {m});
    forall o | 1 <= o <= w'.dc.cursor ensures Delivered(w', o) {
      DeliveredStays(w, w', o);
    }
    forall x | x in w'.sent ensures Justified(w', x) {
      JustifiedStays(w, w', if x in w.sent then x else m);
    }
  }

  lemma {:induction false} ApplyKeepsInv(w: World, a: Act)
    requires Inv(w)
    ensures Inv(Apply(w, a)) && Evolves(w, Apply(w, a))
  {
    match a
    case Send(_, m) =>
      if Justified(w, m) {
        SendKeepsInv(w, m);
      }
    case Serve(m, pick) =>
      if m in w.sent {
        ExecKeepsInv(w, m, pick);
      }
    case Elsewhere(o) =>
      if o.StorePromotes? {
        PromoteKeeps(w.facts, o.key);
      }
      InvStays(w, Apply(w, a));
  }

  ghost predicate Behavior(trace: seq<World>, acts: seq<Act>) {
    |trace| == |acts| + 1 && Initial(trace[0])
    && forall i {:trigger acts[i]} :: 0 <= i < |acts| ==> trace[i + 1] == Apply(trace[i], acts[i])
  }

  lemma {:induction false} EveryWorldIsSafe(trace: seq<World>, acts: seq<Act>, n: nat)
    requires Behavior(trace, acts) && n < |trace|
    ensures Inv(trace[n])
  {
    if n > 0 {
      EveryWorldIsSafe(trace, acts, n - 1);
      ApplyKeepsInv(trace[n - 1], acts[n - 1]);
    }
  }

  lemma {:induction false} NextWorldEvolves(trace: seq<World>, acts: seq<Act>, n: nat)
    requires Behavior(trace, acts) && n < |acts|
    ensures Evolves(trace[n], trace[n + 1])
  {
    EveryWorldIsSafe(trace, acts, n);
    ApplyKeepsInv(trace[n], acts[n]);
  }

  lemma {:induction false} LaterWorldsEvolve(trace: seq<World>, acts: seq<Act>, m: nat, n: nat)
    requires Behavior(trace, acts) && m <= n < |trace|
    ensures Evolves(trace[m], trace[n])
  {
    if m < n {
      LaterWorldsEvolve(trace, acts, m, n - 1);
      NextWorldEvolves(trace, acts, n - 1);
      EvolvesTransitive(trace[m], trace[n - 1], trace[n]);
    }
  }

  // ---------- main results over every run ----------

  // The cursor never passes an event without an accepted version and its Outbox row, and
  // what it has passed stays delivered.
  lemma {:induction false} CursorNeverPassesUncommitted(trace: seq<World>, acts: seq<Act>, m: nat, n: nat, offset: int)
    requires Behavior(trace, acts) && m <= n < |trace|
    requires 1 <= offset <= trace[m].dc.cursor
    ensures Delivered(trace[m], offset) && Delivered(trace[n], offset) && trace[m].dc.cursor <= trace[n].dc.cursor
    ensures var w := trace[n]; var item := w.dc.items[offset - 1];
            var key := EventKey(w.dc.producer, item.event.eventId);
            key in w.facts.entries && w.facts.entries[key].now.Committed? && key in w.facts.outbox
            && var fact := w.facts.entries[key].fact;
               fact.key == key && fact.sequence == offset && fact.evidenceHash == item.inputHash
               && Some(fact.occurredAt) == item.event.occurredAt && offset <= |w.dc.received|
               && Some(fact.observedAt) == w.dc.received[offset - 1]
  {
    EveryWorldIsSafe(trace, acts, m);
    LaterWorldsEvolve(trace, acts, m, n);
    DeliveredStays(trace[m], trace[n], offset);
  }

  // However often an event is appended, its key is accepted as one version with one Outbox
  // row, and that version never changes.
  lemma {:induction false} AtMostOneVersion(trace: seq<World>, acts: seq<Act>, m: nat, n: nat, i: nat, j: nat)
    requires Behavior(trace, acts) && m <= n < |trace|
    requires i < |trace[m].facts.outbox| && j < |trace[n].facts.outbox|
    requires trace[m].facts.outbox[i] == trace[n].facts.outbox[j]
    ensures i == j && trace[n].facts.outbox[j] in trace[n].facts.entries
    ensures trace[n].facts.entries[trace[n].facts.outbox[j]].now == Committed(i + 1)
  {
    EveryWorldIsSafe(trace, acts, m);
    EveryWorldIsSafe(trace, acts, n);
    LaterWorldsEvolve(trace, acts, m, n);
  }

  lemma {:induction false} PassedIsDelivered(w: World, offset: int)
    requires Inv(w) && 1 <= offset <= w.dc.cursor
    ensures Delivered(w, offset)
  {
  }

  // While the event at an offset is only pending, the cursor is before it.
  lemma {:induction false} PendingBlocksTheCursor(trace: seq<World>, acts: seq<Act>, n: nat, offset: int)
    requires Behavior(trace, acts) && n < |trace| && 1 <= offset <= |trace[n].dc.items|
    requires var key := EventKey(trace[n].dc.producer, trace[n].dc.items[offset - 1].event.eventId);
             key in trace[n].facts.entries ==> trace[n].facts.entries[key].now.Pending?
    ensures trace[n].dc.cursor < offset
  {
    EveryWorldIsSafe(trace, acts, n);
    if offset <= trace[n].dc.cursor {
      PassedIsDelivered(trace[n], offset);
    }
  }
}
