// What the two authorities of the fact worker answer, and that an ordinary batch can be
// delivered.
module FactLaws {
  import opened Basics
  import opened FactWorld
  import opened FactWorker

  // ---------- the log ----------

  ghost predicate OneEventEach(items: seq<Item>) {
    forall i, j :: 0 <= i < j < |items| ==> items[i].event.eventId != items[j].event.eventId
  }

  // An event is found under its ID, and nothing under an ID the log does not have.
  lemma {:induction false} FindsItsEvent(items: seq<Item>, id: string)
    requires OneEventEach(items)
    ensures forall i :: 0 <= i < |items| && items[i].event.eventId == id ==> FindEvent(items, id) == Some(items[i])
    ensures (forall i :: 0 <= i < |items| ==> items[i].event.eventId != id) ==> FindEvent(items, id).None?
  {
    if items != [] && items[0].event.eventId != id {
      FindsItsEvent(items[1..], id);
      assert forall i :: 0 < i < |items| ==> items[i] == items[1..][i - 1];
    }
  }

  // DC moves the cursor only over the stretch right behind it, under that stretch's digest, and
  // then to its end.
  lemma {:induction false} WhatIsAcknowledged(w: World, a: Acknowledge, pick: nat)
    ensures var (after, r) := Exec(w, AckEvents(a), pick);
            if a.from == w.dc.cursor + 1 && 1 <= a.from <= a.to <= |w.dc.items|
               && a.batchHash == w.batchHash(w.dc.items[a.from - 1..a.to])
            then after.dc.cursor == a.to && after.dc.items == w.dc.items
                 && r == AckReply(w.dc.consumer, w.dc.producer, a.to)
            else after == w && r == NoReply
  {
  }

  // A fact is accepted at once, with its Outbox row, exactly if it is new and what it
  // supersedes is accepted; else it waits, or is answered as the first time, or is refused.
  lemma {:induction false} WhatIsAppended(f: Facts, fact: Fact)
    ensures var (after, r) := AppendServe(f, fact);
            var free := fact.meaning.supersedes.None?
                        || (fact.meaning.supersedes.value in f.entries
                            && f.entries[fact.meaning.supersedes.value].now.Committed?);
            if fact.key !in f.entries then
              after.entries.Keys == f.entries.Keys + {fact.key} && after.entries[fact.key].fact == fact
              && r.FactReply? && r.fact.fact == fact && !r.fact.replay && r.fact.status == after.entries[fact.key].now
              && (if free then after.outbox == f.outbox + [fact.key]
                               && after.entries[fact.key].now == Committed(|after.outbox|)
                  else after.outbox == f.outbox && after.entries[fact.key].now.Pending?)
              && forall k :: k in f.entries ==> after.entries[k] == f.entries[k]
            else
              after == f && (r.FactReply? <==> f.entries[fact.key].fact == fact)
              && (r.FactReply? ==> r.fact.replay && r.fact.fact == fact && r.fact.status == f.entries[fact.key].first)
  {
  }

  // DC goes on receiving events, and a waiting fact may be accepted later, with its Outbox row.
  lemma {:induction false} OthersMove(w: World, h: string, event: Event, at: Option<int>, key: EventKey)
    ensures var dc := Apply(w, Elsewhere(DcReceives(h, event, at))).dc;
            dc.items == w.dc.items + [Item(|w.dc.items| + 1, h, event)] && dc.received == w.dc.received + [at]
            && dc.cursor == w.dc.cursor
    ensures key in w.facts.entries && w.facts.entries[key].now.Pending? ==>
              var f := Apply(w, Elsewhere(StorePromotes(key))).facts;
              f.outbox == w.facts.outbox + [key] && f.entries[key].now == Committed(|f.outbox|)
              && f.entries[key].fact == w.facts.entries[key].fact
  {
  }

  // ---------- an ordinary batch ----------

  ghost predicate IsDigest(h: string) {
    |h| == 64 && forall i :: 0 <= i < |h| ==> '0' <= h[i] <= '9' || 'a' <= h[i] <= 'f'
  }

  // What the worker takes as a valid item, character by character.
  lemma {:induction false} WhatIsValid(fw: FactWorker, item: Item, offset: int)
    ensures fw.ValidItem(item, offset) <==>
              item.offset == offset && IsDigest(item.inputHash) && item.event.producer == fw.producer
              && IsName(item.event.eventId) && (item.event.eventType, item.event.schemaVersion) in fw.bindings
              && item.event.operationId != "" && item.event.aggregateId != "" && item.event.aggregateVersion >= 1
              && item.event.occurredAt.Some?
  {
    forall i | 0 <= i < |item.event.eventId|
      ensures item.event.eventId[i] in "_.:/@-" <==> item.event.eventId[i] in ['_', '.', ':', '/', '@', '-']
    {
      assert "_.:/@-" == ['_', '.', ':', '/', '@', '-'];
    }
  }

  // Letters and digits of ASCII, and inside also some punctuation.
  ghost predicate IsName(t: string) {
    1 <= |t| <= 192 && IsAlphanumeric(t[0] as int)
    && forall i :: 1 <= i < |t| ==> IsAlphanumeric(t[i] as int) || t[i] in ['_', '.', ':', '/', '@', '-']
  }

  ghost predicate IsAlphanumeric(code: int) {
    48 <= code <= 57 || 65 <= code <= 90 || 97 <= code <= 122
  }

  // An event as DC logs it: in place, received, of this producer, with all its parts.
  ghost predicate Ordinary(fw: FactWorker, dc: Dc, i: nat)
    requires i < |dc.items|
  {
    var item := dc.items[i];
    item.offset == i + 1 && IsDigest(item.inputHash) && item.event.producer == fw.producer == dc.producer
    && 1 <= |item.event.eventId| <= 192
    && (forall k :: 0 <= k < |item.event.eventId| ==> TokenStart(item.event.eventId[k]))
    && item.event.operationId != "" && item.event.aggregateId != "" && item.event.aggregateVersion >= 1
    && item.event.occurredAt.Some? && i < |dc.received| && dc.received[i].Some?
  }

  // What the binder answers for it: an action its binding fixes or lists, superseding nothing.
  ghost predicate Bound(fw: FactWorker, event: Event, meaning: Option<Meaning>) {
    meaning.Some? && meaning.value.supersedes.None? && (event.eventType, event.schemaVersion) in fw.bindings
    && var b := fw.bindings[(event.eventType, event.schemaVersion)];
       match b.action
       case Some(action) => meaning.value.action == action
       case None => meaning.value.action in b.allowed
  }

  // The next events are ordinary, bound, and new to the store.
  ghost predicate FreshBatch(fw: FactWorker, w: World, pick: nat, first: nat) {
    0 <= w.dc.cursor && w.dc.cursor + pick <= |w.dc.items| && pick <= fw.batchLimit && OneEventEach(w.dc.items)
    && w.dc.consumer == fw.consumer && w.dc.producer == fw.producer
    && IsDigest(w.batchHash(w.dc.items[w.dc.cursor..w.dc.cursor + pick]))
    && forall i :: w.dc.cursor <= i < w.dc.cursor + pick ==>
         Ordinary(fw, w.dc, i) && Bound(fw, w.dc.items[i].event, fw.bind(first + i - w.dc.cursor))
         && EventKey(fw.producer, w.dc.items[i].event.eventId) !in w.facts.entries
  }

  // Only the events committed so far add keys to the store.
  lemma {:induction false} KeysSoFar(fw: FactWorker, w: World, k: nat, first: nat, key: EventKey)
    requires 0 <= w.dc.cursor && w.dc.cursor + k <= |w.dc.items|
    requires key in fw.AfterItems(w, k, first).facts.entries && key !in w.facts.entries
    ensures exists i ::
              w.dc.cursor <= i < w.dc.cursor + k && key == EventKey(w.dc.producer, w.dc.items[i].event.eventId)
  {
    if k > 0 && key !in fw.AfterItems(w, k - 1, first).facts.entries {
      assert key == EventKey(w.dc.producer, w.dc.items[w.dc.cursor + k - 1].event.eventId);
    }
    if k > 0 && key in fw.AfterItems(w, k - 1, first).facts.entries {
      KeysSoFar(fw, w, k - 1, first, key);
    }
  }

  lemma {:induction false} FreshItemCanBeCommitted(fw: FactWorker, w: World, pick: nat, first: nat, k: nat)
    requires FreshBatch(fw, w, pick, first) && k < pick
    ensures fw.CanCommit(fw.AfterItems(w, k, first), w.dc.items[w.dc.cursor + k], fw.bind(first + k))
  {
    var i := w.dc.cursor + k;
    var item := w.dc.items[i];
    assert Ordinary(fw, w.dc, i) && Bound(fw, item.event, fw.bind(first + k));
    FindsItsEvent(w.dc.items, item.event.eventId);
    var key := EventKey(fw.producer, item.event.eventId);
    if key in fw.AfterItems(w, k, first).facts.entries {
      KeysSoFar(fw, w, k, first, key);
    }
  }

  // So an ordinary batch can be delivered.
  lemma {:induction false} FreshBatchCanBeDelivered(fw: FactWorker, w: World, pick: nat, first: nat)
    requires FreshBatch(fw, w, pick, first)
    ensures fw.CanDeliver(w, pick, first)
  {
    var batch := FactWorld.Read(w, pick);
    forall k: nat | k < pick
      ensures fw.CanCommit(fw.AfterItems(w, k, first), w.dc.items[w.dc.cursor + k], fw.bind(first + k))
    {
      FreshItemCanBeCommitted(fw, w, pick, first, k);
    }
    forall k | 0 <= k < |batch.items| ensures fw.ValidItem(batch.items[k], batch.from + k) {
      assert Ordinary(fw, w.dc, w.dc.cursor + k) && batch.items[k] == w.dc.items[w.dc.cursor + k];
    }
  }
}
