// Runs that get somewhere: every prepared build can be brought to a live dispatch, and every
// live dispatch with time left can be delivered.
module IndexRun {
  import opened Basics
  import opened IndexWorld

  // The worlds after each of these moves.
  function RunOf(w: World, acts: seq<Act>): (trace: seq<World>)
    ensures |trace| == |acts| + 1 && trace[0] == w
  {
    if acts == [] then [w]
    else
      var before := RunOf(w, acts[..|acts| - 1]);
      before + [Apply(before[|before| - 1], acts[|acts| - 1])]
  }

  function After(w: World, acts: seq<Act>): World {
    RunOf(w, acts)[|acts|]
  }

  lemma {:induction false} RunIsBehavior(w: World, acts: seq<Act>)
    requires Initial(w)
    ensures Behavior(RunOf(w, acts), acts)
  {
    if acts != [] {
      RunIsBehavior(w, acts[..|acts| - 1]);
    }
  }

  lemma {:induction false} RunPrefix(w: World, a: seq<Act>, b: seq<Act>)
    requires a <= b
    ensures RunOf(w, b)[|a|] == After(w, a)
  {
    if a == b {
    } else {
      RunPrefix(w, a, b[..|b| - 1]);
    }
  }

  lemma {:induction false} AfterOneMore(w: World, acts: seq<Act>, a: Act)
    ensures After(w, acts + [a]) == Apply(After(w, acts), a)
  {
    assert (acts + [a])[..|acts|] == acts;
  }

  // The world in which a request is served right after it was sent.
  function OnWire(w: World, m: Msg): World {
    w.(sent := w.sent + {m})
  }

  // A request put on the wire and served at once.
  lemma {:induction false} AfterRequest(w: World, acts: seq<Act>, m: Msg, t: int)
    requires Justified(After(w, acts), m)
    ensures var before, after := After(w, acts), After(w, acts + [Send(0, m), Serve(m, t)]);
            after == Exec(OnWire(before, m), m, t).0
  {
    AfterOneMore(w, acts, Send(0, m));
    AfterOneMore(w, acts + [Send(0, m)], Serve(m, t));
    assert (acts + [Send(0, m)]) + [Serve(m, t)] == acts + [Send(0, m), Serve(m, t)];
  }

  // A build that was prepared for index work, and a queued job for it.
  ghost predicate Prepared(w: World, jobId: string) {
    Initial(w) && w.rtw.build.state == BUILDING && w.rtw.build.ident == w.pg.content.ident && w.pg.content.chunks.Some?
    && w.rtw.build.cancelVersion == w.pg.content.fence.cancelVersion >= 0
    && w.pg.content.fence.leaseEpoch <= w.rtw.build.leaseEpoch
    && jobId != "" && jobId in w.jobs && w.jobs[jobId].state == Queued && w.jobs[jobId].jobType == INDEX_JOB_TYPE
    && w.jobs[jobId].leaseEpoch >= 0 && w.jobs[jobId].cancelVersion >= 0
  }

  // What a worker and its runtime bring: an attempt leased by DC, a result, and its lanes.
  predicate Supplied(w: World, worker: string, attempt: string, lanes: map<string, Ref>) {
    worker != "" && attempt != "" && attempt != w.rtw.build.attemptId && |lanes| == 3
  }

  // Lease, claim, attach and commit.
  function Prologue(w: World, jobId: string, worker: string, attempt: string, r: Ref, lanes: map<string, Ref>,
          until: int): seq<Act>
    requires jobId in w.jobs
  {
    var b, j := w.rtw.build, w.jobs[jobId];
    var fence := Fence(b.ident.buildId, attempt, b.leaseEpoch + 1, b.cancelVersion, until);
    var dc := TechnicalFence(attempt, j.leaseEpoch + 1, j.cancelVersion, until);
    var claim := RtwClaim(ClaimReq(b.ident.buildId, b.ident.generation, b.ident.manifestHash, b.cancelVersion, attempt,
                                   0, until));
    var attach := PgAttach(jobId, worker, dc, fence);
    var commit := PgReady(fence, r, lanes);
    [Elsewhere(DcLeases(jobId, worker, attempt, until))]
    + [Send(0, claim), Serve(claim, 0)] + [Send(0, attach), Serve(attach, 0)] + [Send(0, commit), Serve(commit, 0)]
  }

  lemma {:induction false} BuildBecomesDeliverable(w: World, jobId: string, worker: string, attempt: string, r: Ref,
          lanes: map<string, Ref>, until: int)
    requires Prepared(w, jobId) && Supplied(w, worker, attempt, lanes) && until > 250
    ensures var last := After(w, Prologue(w, jobId, worker, attempt, r, lanes, until));
            Deliverable(last, w.pg.content.ident.buildId, 0) && last.pg.content.result == Some(r)
            && last.pg.content.ident == w.pg.content.ident
  {
    var acts := Prologue(w, jobId, worker, attempt, r, lanes, until);
    var claim, attach, commit := acts[1].m, acts[3].m, acts[5].m;
    var a1 := acts[..1];
    var a2 := a1 + [Send(0, claim), Serve(claim, 0)];
    var a3 := a2 + [Send(0, attach), Serve(attach, 0)];
    assert acts == a3 + [Send(0, commit), Serve(commit, 0)];
    AfterOneMore(w, [], acts[0]);
    assert [] + [acts[0]] == a1 && After(w, []) == w;
    AfterRequest(w, a1, claim, 0);
    AfterRequest(w, a2, attach, 0);
    AfterRequest(w, a3, commit, 0);
    PrologueSteps(w, jobId, worker, attempt, r, lanes, until);
  }

  // The same, world by world.
  lemma {:induction false} PrologueSteps(w: World, jobId: string, worker: string, attempt: string, r: Ref,
          lanes: map<string, Ref>, until: int)
    requires Prepared(w, jobId) && Supplied(w, worker, attempt, lanes) && until > 250
    ensures var acts := Prologue(w, jobId, worker, attempt, r, lanes, until);
            var claim, attach, commit := acts[1].m, acts[3].m, acts[5].m;
            var w1 := Apply(w, acts[0]);
            var w2 := Exec(OnWire(w1, claim), claim, 0).0;
            var w3 := Exec(OnWire(w2, attach), attach, 0).0;
            var w4 := Exec(OnWire(w3, commit), commit, 0).0;
            Deliverable(w4, w.pg.content.ident.buildId, 0) && w4.pg.content.result == Some(r)
            && w4.pg.content.ident == w.pg.content.ident
  {
    var b, j, c := w.rtw.build, w.jobs[jobId], w.pg.content;
    var acts := Prologue(w, jobId, worker, attempt, r, lanes, until);
    var claim, attach, commit := acts[1].m, acts[3].m, acts[5].m;
    var w1 := Apply(w, acts[0]);
    var jobs := w.jobs[jobId := j.(state := Running, workerId := worker, attemptId := attempt, attempt := j.attempt + 1,
                                   leaseEpoch := j.leaseEpoch + 1, leaseExpiresAt := until)];
    assert w1 == w.(jobs := jobs);
    var w2 := Exec(OnWire(w1, claim), claim, 0).0;
    var granted := b.(attemptId := attempt, leaseEpoch := b.leaseEpoch + 1, leaseExpiresAt := until);
    assert w2.rtw == Rtw(granted, w.rtw.grants + [attempt]) && w2.pg == w.pg && w2.jobs == jobs;
    var w3 := Exec(OnWire(w2, attach), attach, 0).0;
    var row := Row(jobId, worker, attach.fence, attach.dc, Pending, 0, None, false);
    assert w3.pg == w.pg.(row := Some(row)) && w3.rtw == w2.rtw && w3.jobs == jobs;
    var w4 := Exec(OnWire(w3, commit), commit, 0).0;
    assert w4.pg == w3.pg.(content := c.(state := READY, fence := attach.fence, result := Some(r), lanes := lanes))
           && w4.rtw == w2.rtw && w4.jobs == jobs;
  }

  // ---------- reopening a deferred row ----------

  // RTW still builds, no earlier than the row's fence, or holds the committed result under a
  // fence that may follow the row's.
  predicate RtwRecovers(b: RtwBuild, c: Content, p: Fence) {
    c.result.Some? && p.cancelVersion == b.cancelVersion == c.fence.cancelVersion >= 0 && p.leaseEpoch <= b.leaseEpoch
    && ((b.state == BUILDING && b.ident == c.ident && b.leaseEpoch >= 0)
        || (SameAcceptedIndex(b, c, c.result.value) && b.attemptId != "" && b.leaseEpoch >= 1
            && (p.leaseEpoch == b.leaseEpoch ==> p.attemptId == b.attemptId && p.expiresAt <= b.leaseExpiresAt)))
  }

  // A READY build whose row was deferred, and a job that DC can still lease to a new attempt.
  predicate Deferred(w: World, jobId: string) {
    w.pg.content.state == READY && |w.pg.content.lanes| == 3
    && w.pg.row.Some? && w.pg.row.value.stage in {NeedsNewAttempt, Manual}
    && RtwRecovers(w.rtw.build, w.pg.content, w.pg.row.value.fence)
    && jobId != "" && jobId in w.jobs
    && var j := w.jobs[jobId];
       j.id == jobId && j.jobType == INDEX_JOB_TYPE && j.state in {Queued, Running} && j.leaseEpoch >= 0
       && j.cancelVersion >= 0 && (w.pg.row.value.jobId == jobId ==> w.pg.row.value.dc.leaseEpoch <= j.leaseEpoch)
  }

  // The fence of the new attempt: a fresh grant, or the one RTW accepted the result under.
  function NextFence(b: RtwBuild, attempt: string, until: int): Fence {
    if b.state == BUILDING then Fence(b.ident.buildId, attempt, b.leaseEpoch + 1, b.cancelVersion, until)
    else Fence(b.ident.buildId, b.attemptId, b.leaseEpoch, b.cancelVersion, b.leaseExpiresAt)
  }

  function AttachFor(w: World, jobId: string, worker: string, attempt: string, until: int): Msg
    requires jobId in w.jobs
  {
    var j := w.jobs[jobId];
    PgAttach(jobId, worker, TechnicalFence(attempt, j.leaseEpoch + 1, j.cancelVersion, until),
             NextFence(w.rtw.build, attempt, until))
  }

  function ClaimFor(b: RtwBuild, attempt: string, until: int): Msg {
    RtwClaim(ClaimReq(b.ident.buildId, b.ident.generation, b.ident.manifestHash, b.cancelVersion, attempt, 0, until))
  }

  // Lease, claim if RTW still builds, attach.
  function Reopening(w: World, jobId: string, worker: string, attempt: string, until: int): seq<Act>
    requires jobId in w.jobs
  {
    var claim := ClaimFor(w.rtw.build, attempt, until);
    var attach := AttachFor(w, jobId, worker, attempt, until);
    [Elsewhere(DcLeases(jobId, worker, attempt, until))]
    + (if w.rtw.build.state == BUILDING then [Send(0, claim), Serve(claim, 0)] else [])
    + [Send(0, attach), Serve(attach, 0)]
  }

  // The world once DC has leased the job, and RTW has granted the new fence.
  function Leased(w: World, jobId: string, worker: string, attempt: string, until: int): World {
    Apply(w, Elsewhere(DcLeases(jobId, worker, attempt, until)))
  }

  function Granted(w: World, attempt: string, until: int): World {
    if w.rtw.build.state == BUILDING
    then Exec(OnWire(w, ClaimFor(w.rtw.build, attempt, until)), ClaimFor(w.rtw.build, attempt, until), 0).0
    else w
  }

  lemma {:induction false} GrantGiven(w: World, attempt: string, until: int)
    requires w.pg.row.Some? && RtwRecovers(w.rtw.build, w.pg.content, w.pg.row.value.fence)
    requires attempt != "" && attempt != w.rtw.build.attemptId && until > 250
    ensures var g := Granted(w, attempt, until);
            g.jobs == w.jobs && g.pg == w.pg
            && RtwWilling(g.rtw.build, w.pg.content, NextFence(w.rtw.build, attempt, until))
            && (g.rtw.build.state == BUILDING ==> w.rtw.build.state == BUILDING)
  {
  }

  // From a deferred row, a lease, a grant and an attach lead to a deliverable one.
  lemma {:induction false} AttachedIsDeliverable(w: World, jobId: string, worker: string, attempt: string, until: int)
    requires Deferred(w, jobId) && worker != "" && attempt != "" && attempt != w.rtw.build.attemptId && until > 250
    ensures var g := Granted(Leased(w, jobId, worker, attempt, until), attempt, until);
            var attach := AttachFor(w, jobId, worker, attempt, until);
            var last := Exec(OnWire(g, attach), attach, 0).0;
            Deliverable(last, w.pg.content.ident.buildId, 0) && last.pg.content == w.pg.content
  {
    var leased := Leased(w, jobId, worker, attempt, until);
    var j := w.jobs[jobId];
    assert leased.rtw == w.rtw && leased.pg == w.pg;
    assert leased.jobs == w.jobs[jobId := j.(state := Running, workerId := worker, attemptId := attempt,
                                             attempt := j.attempt + 1, leaseEpoch := j.leaseEpoch + 1,
                                             leaseExpiresAt := until)];
    GrantGiven(leased, attempt, until);
    var g := Granted(leased, attempt, until);
    var attach := AttachFor(w, jobId, worker, attempt, until);
    AttachReopens(g.pg, attach, 0);
    AttachAnswered(w.pg, attach, 0);
  }

  lemma {:induction false} DeferredIsReopened(w: World, acts: seq<Act>, jobId: string, worker: string, attempt: string,
          until: int)
    requires Deferred(After(w, acts), jobId) && worker != "" && until > 250
    requires attempt != "" && attempt != After(w, acts).rtw.build.attemptId
    ensures var now := After(w, acts);
            var last := After(w, acts + Reopening(now, jobId, worker, attempt, until));
            Deliverable(last, now.pg.content.ident.buildId, 0) && last.pg.content == now.pg.content
  {
    var now := After(w, acts);
    assert jobId in now.jobs;
    hide After, Deferred, Deliverable, AttachFor, ClaimFor;
    var lease := Elsewhere(DcLeases(jobId, worker, attempt, until));
    var claim := ClaimFor(now.rtw.build, attempt, until);
    var attach := AttachFor(now, jobId, worker, attempt, until);
    var a1 := acts + [lease];
    AfterOneMore(w, acts, lease);
    LeaseLeavesRtw(now, jobId, worker, attempt, until);
    ClaimAndAttachAreJustified(now, jobId, worker, attempt, until);
    var a2 := a1;
    if now.rtw.build.state == BUILDING {
      AfterRequest(w, a1, claim, 0);
      a2 := a1 + [Send(0, claim), Serve(claim, 0)];
    }
    assert After(w, a2) == Granted(Leased(now, jobId, worker, attempt, until), attempt, until);
    AfterRequest(w, a2, attach, 0);
    assert acts + Reopening(now, jobId, worker, attempt, until) == a2 + [Send(0, attach), Serve(attach, 0)];
    AttachedIsDeliverable(now, jobId, worker, attempt, until);
  }

  lemma {:induction false} LeaseLeavesRtw(w: World, jobId: string, worker: string, attempt: string, until: int)
    ensures Leased(w, jobId, worker, attempt, until).rtw == w.rtw
  {
  }

  lemma {:induction false} ClaimAndAttachAreJustified(w: World, jobId: string, worker: string, attempt: string,
          until: int)
    requires jobId in w.jobs
    ensures forall v :: Justified(v, ClaimFor(w.rtw.build, attempt, until))
    ensures forall v :: Justified(v, AttachFor(w, jobId, worker, attempt, until))
  {
  }

  // ---------- delivering a live row ----------

  function ClaimOf(w: World, now: int): IndexDispatch
    requires Deliverable(w, w.pg.content.ident.buildId, now)
  {
    LiveRowIsClaimed(w, w.pg.content.ident.buildId, now);
    ClaimRow(w.pg, w.pg.content.ident.buildId, now).1.dispatch
  }

  lemma {:induction false} ClaimStep(w: World, now: int)
    requires Deliverable(w, w.pg.content.ident.buildId, now)
    ensures ClaimedBy(Exec(w, PgClaim(w.pg.content.ident.buildId), now).0, ClaimOf(w, now), now)
  {
    LiveRowIsClaimed(w, w.pg.content.ident.buildId, now);
    var w1 := Exec(w, PgClaim(w.pg.content.ident.buildId), now).0;
    assert w1 == w.(pg := ClaimRow(w.pg, w.pg.content.ident.buildId, now).0);
  }

  function AcceptFor(w: World, c: IndexDispatch): Msg {
    RtwAccept(AcceptReq(c.buildId, w.pg.content.ident.generation, w.pg.content.ident.manifestHash, c.fence.attemptId,
                        c.fence.leaseEpoch, c.fence.cancelVersion, c.result))
  }

  function CompleteFor(c: IndexDispatch): Msg {
    DcComplete(c.jobId, Lease(c.workerId, c.dc.attemptId, c.dc.leaseEpoch, c.dc.cancelVersion),
               Success(IndexResultRef(c.result)))
  }

  // The row is claimed, RTW holds the result.
  ghost predicate Held(w: World, c: IndexDispatch, now: int) {
    ClaimedBy(w, c, now) && AcceptedAs(w, c.result)
  }

  lemma {:induction false} AcceptStep(w: World, c: IndexDispatch, now: int)
    requires ClaimedBy(w, c, now)
    ensures Justified(w, AcceptFor(w, c)) && Held(Exec(w, AcceptFor(w, c), now).0, c, now)
  {
  }

  lemma {:induction false} NoteStep(w: World, c: IndexDispatch, now: int)
    requires Held(w, c, now)
    ensures Justified(w, PgNote(c))
    ensures var w' := Exec(w, PgNote(c), now).0; Held(w', c, now) && w'.pg.row.value.rtwAccepted
  {
  }

  lemma {:induction false} CompleteStep(w: World, c: IndexDispatch, now: int)
    requires Held(w, c, now)
    ensures Justified(w, CompleteFor(c))
    ensures var w' := Exec(w, CompleteFor(c), now).0; Held(w', c, now) && SucceededFor(w', c) && w'.pg == w.pg
  {
  }

  lemma {:induction false} DeliverStep(w: World, c: IndexDispatch, now: int)
    requires Held(w, c, now) && SucceededFor(w, c) && w.pg.row.value.rtwAccepted
    ensures Justified(w, PgDeliver(c)) && Exec(w, PgDeliver(c), now).0.pg.delivered
  {
  }

  // Who sent what makes no difference to a claim.
  lemma {:induction false} OnWireSame(w: World, m: Msg)
    ensures forall id, now :: Deliverable(w, id, now) <==> Deliverable(OnWire(w, m), id, now)
    ensures forall c, now :: ClaimedBy(w, c, now) <==> ClaimedBy(OnWire(w, m), c, now)
    ensures forall c, now :: Held(w, c, now) <==> Held(OnWire(w, m), c, now)
    ensures forall c :: SucceededFor(w, c) <==> SucceededFor(OnWire(w, m), c)
  {
  }

  // One more request, served at once.
  lemma {:induction false} Request(w: World, acts: seq<Act>, m: Msg, now: int) returns (next: seq<Act>)
    requires Justified(After(w, acts), m)
    ensures acts <= next && After(w, next) == Exec(OnWire(After(w, acts), m), m, now).0
  {
    next := acts + [Send(0, m), Serve(m, now)];
    AfterRequest(w, acts, m, now);
  }

  lemma {:induction false} ClaimIsJustified(w: World)
    ensures Justified(w, PgClaim(w.pg.content.ident.buildId))
  {
  }

  // Claim, accept, note, complete and deliver.
  lemma {:induction false} DeliverableIsDelivered(w: World, acts: seq<Act>, now: int) returns (all: seq<Act>)
    requires Deliverable(After(w, acts), After(w, acts).pg.content.ident.buildId, now)
    ensures acts <= all && After(w, all).pg.delivered
  {
    hide Deliverable, ClaimedBy, Held, SucceededFor, After, Exec, Justified;
    var start := After(w, acts);
    var claim := PgClaim(start.pg.content.ident.buildId);
    OnWireSame(start, claim);
    ClaimIsJustified(start);
    var a1 := Request(w, acts, claim, now);
    ClaimStep(OnWire(start, claim), now);
    var c := ClaimOf(OnWire(start, claim), now);
    var w1 := After(w, a1);
    OnWireSame(w1, AcceptFor(w1, c));
    AcceptStep(w1, c, now);
    var a2 := Request(w, a1, AcceptFor(w1, c), now);
    AcceptStep(OnWire(w1, AcceptFor(w1, c)), c, now);
    var w2 := After(w, a2);
    OnWireSame(w2, PgNote(c));
    NoteStep(w2, c, now);
    var a3 := Request(w, a2, PgNote(c), now);
    NoteStep(OnWire(w2, PgNote(c)), c, now);
    var w3 := After(w, a3);
    OnWireSame(w3, CompleteFor(c));
    CompleteStep(w3, c, now);
    var a4 := Request(w, a3, CompleteFor(c), now);
    CompleteStep(OnWire(w3, CompleteFor(c)), c, now);
    var w4 := After(w, a4);
    OnWireSame(w4, PgDeliver(c));
    DeliverStep(w4, c, now);
    all := Request(w, a4, PgDeliver(c), now);
    DeliverStep(OnWire(w4, PgDeliver(c)), c, now);
  }

  // Every prepared build can be brought, by moves of the protocol alone, to a delivered
  // dispatch: the safety results do not hold for want of anything happening.
  lemma {:induction false} EveryPreparedBuildCanBeDelivered(w: World, jobId: string, worker: string, attempt: string,
          r: Ref, lanes: map<string, Ref>)
    returns (acts: seq<Act>)
    requires Prepared(w, jobId) && Supplied(w, worker, attempt, lanes)
    ensures Behavior(RunOf(w, acts), acts) && After(w, acts).pg.delivered && After(w, acts).pg.content.result == Some(r)
  {
    var first := Prologue(w, jobId, worker, attempt, r, lanes, 1000);
    BuildBecomesDeliverable(w, jobId, worker, attempt, r, lanes, 1000);
    acts := DeliverableIsDelivered(w, first, 0);
    RunIsBehavior(w, acts);
    RunPrefix(w, first, acts);
    LaterWorldsEvolve(RunOf(w, acts), acts, |first|, |acts|);
  }

  // Whatever happened before, a READY build whose dispatch was deferred can be delivered once
  // DC leases its job to a new attempt: deferring loses nothing.
  lemma {:induction false} EveryDeferredBuildCanBeDelivered(w: World, past: seq<Act>, jobId: string, worker: string,
          attempt: string)
    returns (acts: seq<Act>)
    requires Initial(w) && Deferred(After(w, past), jobId)
    requires worker != "" && attempt != "" && attempt != After(w, past).rtw.build.attemptId
    ensures past <= acts && Behavior(RunOf(w, acts), acts)
    ensures After(w, acts).pg.delivered && After(w, acts).pg.content == After(w, past).pg.content
  {
    var now := After(w, past);
    var more := past + Reopening(now, jobId, worker, attempt, 1000);
    DeferredIsReopened(w, past, jobId, worker, attempt, 1000);
    acts := DeliverableIsDelivered(w, more, 0);
    RunIsBehavior(w, acts);
    RunPrefix(w, past, acts);
    LaterWorldsEvolve(RunOf(w, acts), acts, |past|, |acts|);
  }
}
