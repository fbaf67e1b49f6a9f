// The index worker itself: fence recovery, the two-authority dispatch, and the
// processing of one claimed job, run against the world of module IndexWorld while
// everybody else moves too.
module IndexWorker {
  import opened Basics
  import opened IndexWorld

  // What happens around one call of this worker: moves of others before and after
  // it, whether the authority serves it, at which clock reading, and whether the answer
  // gets back.
  datatype Turn = Turn(before: seq<Act>, served: bool, at: int, answered: bool, after: seq<Act>)

  // The requests whose answer the worker can do without: it reads back what they did.
  predicate ReadBack(m: Msg) {
    m.RtwClaim? || m.RtwAccept? || m.DcComplete?
  }

  // A request that reports a failed attempt to DC.
  predicate Reports(m: Msg) {
    m.DcComplete? && m.result.Failure?
  }

  // A request with which a worker enters a dispatch.
  predicate Dispatches(m: Msg) {
    m.PgClaim?
  }

  // How many reports, or dispatches, one worker has put on the wire.
  function Count(acts: seq<Act>, me: nat, reports: bool): nat {
    if acts == [] then 0
    else
      var a := acts[|acts| - 1];
      Count(acts[..|acts| - 1], me, reports)
      + (if a.Send? && a.worker == me && (if reports then Reports(a.m) else Dispatches(a.m)) then 1 else 0)
  }

  // Moves of others: nobody moves in this worker's name.
  function Others(acts: seq<Act>, me: nat): seq<Act> {
    if acts == [] then []
    else
      var last := acts[|acts| - 1];
      Others(acts[..|acts| - 1], me) + (if last.Send? && last.worker == me then [] else [last])
  }

  // What happens during one call: others move, the request goes out, the authority serves it or
  // does not, and others move again.
  function Moves(turn: Turn, me: nat, m: Msg): seq<Act> {
    Others(turn.before, me) + [Send(me, m)] + (if turn.served then [Act.Serve(m, turn.at)] else [])
        + Others(turn.after, me)
  }

  lemma {:induction false} MovesThenOthers(turn: Turn, me: nat, m: Msg)
    ensures Moves(turn, me, m) == Moves(turn.(after := []), me, m) + Others(turn.after, me)
  {
  }

  // Some service of m takes `before` to `after` with answer r.
  ghost predicate Answers(before: World, m: Msg, after: World, r: Reply) {
    exists t :: Exec(before, m, t) == (after, r)
  }

  lemma {:induction false} BehaviorLength(trace: seq<World>, log: seq<Act>)
    requires Behavior(trace, log)
    ensures |trace| == |log| + 1
  {
  }

  lemma {:induction false} SamePrefix(known: seq<World>, trace: seq<World>)
    requires known <= trace
    ensures forall i :: 0 <= i < |known| ==> trace[i] == known[i]
  {
  }

  // The authorities are in the same state; what is on the wire may differ.
  predicate SameState(a: World, b: World) {
    a.rtw == b.rtw && a.jobs == b.jobs && a.pg == b.pg
  }

  // One worker's connection to the three authorities.
  class Wire {
    const me: nat
    const turns: (nat, Msg) -> Turn
    const clocks: nat -> int
    var calls: nat
    var ticks: nat
    var world: World
    ghost var trace: seq<World>  // the run so far
    ghost var log: seq<Act>      // its moves, by anybody
    ghost var reports: nat       // failures this worker has reported
    ghost var dispatches: nat    // dispatches this worker has entered
    ghost var served: nat        // trace[served] follows the service of the latest answered call

    constructor (me: nat, start: World, turns: (nat, Msg) -> Turn, clocks: nat -> int)
      requires Initial(start)
      ensures Valid() && world == start && reports == dispatches == 0
      ensures this.me == me && this.turns == turns && this.clocks == clocks && calls == ticks == 0 && log == []
    {
      this.me, this.turns, this.clocks := me, turns, clocks;
      calls, ticks, world, trace, log := 0, 0, start, [start], [];
      reports, dispatches, served := 0, 0, 0;
    }

    ghost predicate Valid()
      reads this
    {
      Behavior(trace, log) && world == trace[|log|] && served <= |log|
      && reports == Count(log, me, true) && dispatches == Count(log, me, false)
    }

    // Nobody else moves, every request is served at once, and all clocks show `now`. Answers
    // get back, except perhaps those that can be read back.
    ghost predicate Undisturbed(now: int) {
      (forall n: nat :: clocks(n) == now)
      && forall n: nat, m :: turns(n, m) == Turn([], true, now, turns(n, m).answered || !ReadBack(m), [])
    }

    // One move, by this worker or by another.
    method Step(a: Act)
      requires Valid()
      modifies this`world, this`trace, this`log, this`reports, this`dispatches
      ensures Valid() && world == Apply(old(world), a)
      ensures log == old(log) + [a] && trace == old(trace) + [world]
      ensures reports == old(reports) + (if a.Send? && a.worker == me && Reports(a.m) then 1 else 0)
      ensures dispatches == old(dispatches) + (if a.Send? && a.worker == me && Dispatches(a.m) then 1 else 0)
    {
      world := Apply(world, a);
      assert (log + [a])[..|log|] == log;
      trace, log := trace + [world], log + [a];
      reports, dispatches := Count(log, me, true), Count(log, me, false);
    }

    // Others move.
    method Drift(acts: seq<Act>)
      requires Valid()
      modifies this`world, this`trace, this`log, this`reports, this`dispatches
      ensures Valid() && old(trace) <= trace && (acts == [] ==> world == old(world))
      ensures reports == old(reports) && dispatches == old(dispatches) && log == old(log) + Others(acts, me)
    {
      for i := 0 to |acts|
        invariant Valid() && old(trace) <= trace && (acts == [] ==> world == old(world))
        invariant log == old(log) + Others(acts[..i], me)
        invariant reports == old(reports) && dispatches == old(dispatches)
      {
        assert acts[..i + 1][..i] == acts[..i];
        if !(acts[i].Send? && acts[i].worker == me) {
          Step(acts[i]);
        }
      }
      assert acts[..|acts|] == acts;
    }

    // Others move, then this worker puts a request on the wire.
    method Post(m: Msg, acts: seq<Act>)
      requires Valid() && Justified(world, m)
      modifies this`world, this`trace, this`log, this`reports, this`dispatches
      ensures Valid() && m in world.sent && old(trace) < trace && (acts == [] ==> SameState(world, old(world)))
      ensures log == old(log) + Others(acts, me) + [Send(me, m)]
      ensures reports == old(reports) + (if Reports(m) then 1 else 0)
      ensures dispatches == old(dispatches) + (if Dispatches(m) then 1 else 0)
    {
      ghost var n := |log|;
      Drift(acts);
      assert trace[n] == old(world);
      LaterWorldsEvolve(trace, log, n, |log|);
      JustifiedStays(old(world), world, m);
      Step(Send(me, m));
    }

    // The authority serves a request that is on the wire.
    method Serve(m: Msg, t: int) returns (r: Reply)
      requires Valid() && m in world.sent
      modifies this`world, this`trace, this`log, this`reports, this`dispatches, this`served
      ensures Valid() && old(trace) <= trace && |old(log)| < served
      ensures Answers(trace[served - 1], m, trace[served], r) && (world, r) == Exec(old(world), m, t)
      ensures log == old(log) + [Act.Serve(m, t)] && served == |log|
      ensures reports == old(reports) && dispatches == old(dispatches)
    {
      r := Exec(world, m, t).1;
      Step(Act.Serve(m, t));
      served := |log|;
    }

    // The request was served once, at this time, with this answer; an answer that can be read
    // back may be lost.
    static predicate Performed(before: World, m: Msg, at: int, after: World, r: Reply, answered: bool) {
      SameState(after, Exec(before, m, at).0)
      && if answered then r == Exec(before, m, at).1 else r == NoReply && ReadBack(m)
    }

    // A request goes out after others moved, and is perhaps served later.
    method Offer(m: Msg, turn: Turn) returns (r: Reply)
      requires Valid() && Justified(world, m)
      modifies this`world, this`trace, this`log, this`reports, this`dispatches, this`served
      ensures Valid() && old(trace) <= trace
      ensures reports == old(reports) + (if Reports(m) then 1 else 0)
      ensures dispatches == old(dispatches) + (if Dispatches(m) then 1 else 0)
      ensures r != NoReply ==> |old(log)| < served && Answers(trace[served - 1], m, trace[served], r)
      ensures m in world.sent
      ensures log == old(log) + Moves(turn.(after := []), me, m)
      ensures if turn.served && turn.answered then (world, r) == Exec(trace[|log| - 1], m, turn.at) else r == NoReply
      ensures turn.served ==> |old(log)| < served
      ensures turn.served && turn.answered ==> Answers(trace[served - 1], m, trace[served], r)
      ensures turn.before == [] && turn.served && (turn.answered || ReadBack(m)) ==>
                Performed(old(world), m, turn.at, world, r, turn.answered)
    {
      hide Behavior, Answers, Justified, Count, Reports, Dispatches;
      BehaviorLength(trace, log);
      Post(m, turn.before);
      BehaviorLength(trace, log);
      r := NoReply;
      if turn.served {
        var reply := Serve(m, turn.at);
        if turn.answered {
          r := reply;
        }
      }
    }

    // One remote call. An answer means the authority served the request once, taking
    // trace[served - 1] to trace[served] during this call; no answer means nothing.
    method Exchange(m: Msg) returns (r: Reply)
      requires Valid() && Justified(world, m)
      modifies this
      ensures Valid() && old(trace) <= trace
      ensures reports == old(reports) + (if Reports(m) then 1 else 0)
      ensures dispatches == old(dispatches) + (if Dispatches(m) then 1 else 0)
      ensures r != NoReply ==> |old(log)| < served && Answers(trace[served - 1], m, trace[served], r)
      ensures m in world.sent && calls == old(calls) + 1 && log == old(log) + Moves(turns(old(calls), m), me, m)
      ensures var turn := turns(old(calls), m);
              if turn.served && turn.answered
              then |old(log)| < served && Answers(trace[served - 1], m, trace[served], r)
              else r == NoReply
      ensures forall now :: Undisturbed(now) ==>
                Performed(old(world), m, now, world, r, turns(old(calls), m).answered)
    {
      hide Behavior, Answers, Performed, Count, Reports, Dispatches, Exec, Justified, Moves, Others, Evolves;
      var turn := turns(calls, m);
      calls := calls + 1;
      MovesThenOthers(turn, me, m);
      r := Offer(m, turn);
      ghost var known, n := trace, |log|;
      BehaviorLength(trace, log);
      Drift(turn.after);
      BehaviorLength(trace, log);
      SamePrefix(known, trace);
      LaterWorldsEvolve(trace, log, n, |log|);
    }

    method Call(m: Msg) returns (r: Reply)
      requires Valid() && Justified(world, m)
      modifies this
      ensures Valid() && old(trace) <= trace && Evolves(old(world), world)
      ensures reports == old(reports) + (if Reports(m) then 1 else 0)
      ensures dispatches == old(dispatches) + (if Dispatches(m) then 1 else 0)
      ensures r != NoReply ==>
                && |old(log)| < served && Inv(trace[served - 1])
                && Evolves(old(world), trace[served - 1]) && Evolves(trace[served], world)
                && Answers(trace[served - 1], m, trace[served], r)
      ensures m in world.sent && calls == old(calls) + 1 && log == old(log) + Moves(turns(old(calls), m), me, m)
      ensures var turn := turns(old(calls), m);
              if turn.served && turn.answered
              then |old(log)| < served && Answers(trace[served - 1], m, trace[served], r)
              else r == NoReply
      ensures forall now :: Undisturbed(now) ==>
                Performed(old(world), m, now, world, r, turns(old(calls), m).answered)
    {
      hide Performed, Answers, Reports, Dispatches, Exec, Undisturbed;
      ghost var k := |log|;
      BehaviorLength(trace, log);
      r := Exchange(m);
      assert trace[k] == old(world);
      LaterWorldsEvolve(trace, log, k, |log|);
      if r != NoReply {
        LaterWorldsEvolve(trace, log, k, served - 1);
        LaterWorldsEvolve(trace, log, served, |log|);
        EveryWorldIsSafe(trace, log, served - 1);
      }
    }

    // This worker reads its own clock.
    method Now() returns (t: int)
      requires Valid()
      modifies this`ticks
      ensures Valid() && t == clocks(old(ticks)) && ticks == old(ticks) + 1
      ensures forall now :: Undisturbed(now) ==> t == now
    {
      t := clocks(ticks);
      ticks := ticks + 1;
    }

    // ---------- the clients of the three authorities ----------

    method GetBuild() returns (r: Option<RtwBuild>)
      requires Valid()
      modifies this
      ensures Valid() && Keeps(old(world), world) && Quiet(old(reports), old(dispatches)) && old(trace) <= trace
      ensures r.Some? && r.value.state != BUILDING ==> world.rtw.build == r.value
      ensures r.Some? ==> |old(log)| < served && r.value == trace[served].rtw.build
      ensures forall now :: Undisturbed(now) ==> SameState(world, old(world)) && r == Some(old(world).rtw.build)
    {
      var reply := Call(RtwGet);
      r := if reply.BuildReply? then Some(reply.build) else None;
    }

    method ClaimBuild(q: ClaimReq) returns (r: Option<RtwBuild>)
      requires Valid()
      modifies this
      ensures Valid() && Keeps(old(world), world) && Quiet(old(reports), old(dispatches)) && old(trace) <= trace
      ensures r.Some? ==> |old(log)| < served && r.value == trace[served].rtw.build
      ensures forall now :: Undisturbed(now) && Grant(old(world).rtw.build, q, now).Some? ==>
                world.rtw.build == Grant(old(world).rtw.build, q, now).value
                && r == (if turns(old(calls), RtwClaim(q)).answered then Some(world.rtw.build) else None)
                && world.jobs == old(world).jobs && world.pg == old(world).pg
    {
      var reply := Call(RtwClaim(q));
      r := if reply.BuildReply? then Some(reply.build) else None;
    }

    method AcceptBuild(q: AcceptReq) returns (r: Option<RtwBuild>)
      requires Valid() && ReadyWith(world, q.index)
      modifies this
      ensures Valid() && Keeps(old(world), world) && Quiet(old(reports), old(dispatches))
      ensures r.Some? && r.value.state != BUILDING ==> world.rtw.build == r.value
      ensures forall now :: Undisturbed(now) ==>
                r == (if turns(old(calls), RtwAccept(q)).answered then Accept(old(world).rtw.build, q, now) else None)
                && SameState(world, Exec(old(world), RtwAccept(q), now).0)
    {
      var reply := Call(RtwAccept(q));
      r := if reply.BuildReply? then Some(reply.build) else None;
    }

    method GetJob(id: string) returns (r: Option<Job>)
      requires Valid()
      modifies this
      ensures Valid() && Keeps(old(world), world) && Quiet(old(reports), old(dispatches))
      ensures r.Some? ==> r.value.id == id
      ensures r.Some? && r.value.jobType == INDEX_JOB_TYPE ==> IsIndexJob(world, id)
      ensures r.Some? && r.value.jobType == INDEX_JOB_TYPE && r.value.state == Succeeded ==> world.jobs[id] == r.value
      ensures forall now :: Undisturbed(now) ==>
                SameState(world, old(world)) && r == if id in old(world).jobs then Some(old(world).jobs[id]) else None
    {
      var reply := Call(DcGet(id));
      r := if reply.JobReply? then Some(reply.job) else None;
    }

    // Success needs both halves of the rule; a failure may always be reported.
    method CompleteJob(id: string, lease: Lease, result: JobResult) returns (ok: bool)
      requires Valid()
      requires result.Success? ==> IsIndexJob(world, id) && Justified(world, DcComplete(id, lease, result))
      modifies this
      ensures Valid() && Keeps(old(world), world) && dispatches == old(dispatches)
      ensures reports == old(reports) + (if result.Failure? then 1 else 0)
      ensures ok && result.Success? ==>
                IsIndexJob(world, id) && world.jobs[id].id == id && world.jobs[id].state == Succeeded
                && world.jobs[id].result == Some(result) && HoldsLease(world.jobs[id], lease)
      ensures DcComplete(id, lease, result) in world.sent
      ensures forall now :: Undisturbed(now) ==>
                SameState(world, Exec(old(world), DcComplete(id, lease, result), now).0)
      ensures forall now :: Undisturbed(now) ==>
                (ok <==> Exec(old(world), DcComplete(id, lease, result), now).1 == Done
                         && turns(old(calls), DcComplete(id, lease, result)).answered)
    {
      var reply := Call(DcComplete(id, lease, result));
      ok := reply != NoReply;
      if ok && result.Success? {
        assert reply == Done;
        CompletionSticks(trace[served - 1], trace[served], world, id, lease, result);
      }
    }

    method GetContent() returns (r: Option<Content>)
      requires Valid()
      modifies this
      ensures Valid() && Keeps(old(world), world) && Quiet(old(reports), old(dispatches)) && old(trace) <= trace
      ensures r.Some? && r.value.state != BUILDING ==> world.pg.content == r.value
      ensures r.Some? ==> r.value.ident == world.pg.content.ident
      ensures forall now :: Undisturbed(now) ==> SameState(world, old(world)) && r == Some(old(world).pg.content)
    {
      var reply := Call(PgGet);
      r := if reply.ContentReply? then Some(reply.content) else None;
    }

    method AttachIndexDispatch(jobId: string, workerId: string, dc: TechnicalFence, fence: Fence) returns (ok: bool)
      requires Valid()
      modifies this
      ensures Valid() && Keeps(old(world), world) && Quiet(old(reports), old(dispatches)) && old(trace) <= trace
      ensures ok ==>
                |old(log)| < served && Attached(trace[served].pg.row, jobId, workerId, dc, fence)
                && OpenedBy(trace[served - 1].pg, trace[served].pg)
      ensures forall now :: Undisturbed(now) ==>
                var (pg, answer) := Attach(old(world).pg, PgAttach(jobId, workerId, dc, fence), now);
                SameState(world, old(world).(pg := pg)) && (ok <==> answer != NoReply)
    {
      var reply := Call(PgAttach(jobId, workerId, dc, fence));
      if reply != NoReply {
        AttachOpened(trace[served - 1], PgAttach(jobId, workerId, dc, fence), trace[served], reply);
      }
      ok := reply != NoReply;
    }

    // No dispatch and no failure: the scan found nothing.
    method ClaimIndexDispatch(buildId: string) returns (r: Option<IndexDispatch>, failed: bool)
      requires Valid()
      modifies this
      ensures Valid() && Keeps(old(world), world) && Quiet(old(reports), old(dispatches) + 1)
      ensures r.Some? ==> ReadyWith(world, r.value.result)
      ensures failed ==> r.None? && forall now :: !Undisturbed(now)
      ensures var turn := turns(old(calls), PgClaim(buildId)); failed <==> !turn.served || !turn.answered
      ensures forall now :: Undisturbed(now) ==>
                SameState(world, old(world).(pg := ClaimRow(old(world).pg, buildId, now).0))
                && r == if ClaimRow(old(world).pg, buildId, now).1.ClaimReply?
                     then Some(ClaimRow(old(world).pg, buildId, now).1.dispatch) else None
    {
      var reply := Call(PgClaim(buildId));
      r := if reply.ClaimReply? then Some(reply.dispatch) else None;
      failed := reply == NoReply;
    }

    method NoteIndexRTWAccepted(c: IndexDispatch) returns (ok: bool)
      requires Valid() && AcceptedAs(world, c.result)
      modifies this
      ensures Valid() && Keeps(old(world), world) && Quiet(old(reports), old(dispatches))
      ensures ok ==> |old(log)| < served && trace[served].pg.row.Some? && trace[served].pg.row.value.rtwAccepted
      ensures forall now :: Undisturbed(now) ==>
                (ok <==> RowHeld(old(world).pg.row, c, now))
                && (ClaimedBy(old(world), c, now) ==> ok && ClaimedBy(world, c, now) && world.pg.row.value.rtwAccepted)
    {
      hide Behavior, Count, Inv, ClaimedBy;
      ghost var w0 := world;
      var reply := Call(PgNote(c));
      ok := reply != NoReply;
      NoteKeepsClaim(w0, world, c);
    }

    method DeferIndexDispatch(c: IndexDispatch, stage: Stage, code: string) returns (ok: bool)
      requires Valid()
      requires stage == Manual && code == "rtw_terminal_mismatch" ==>
                 world.rtw.build.state != BUILDING && world.pg.content.state == READY && !AcceptedAs(world, c.result)
      modifies this
      ensures Valid() && Keeps(old(world), world) && Quiet(old(reports), old(dispatches))
      ensures ok ==> |old(log)| < served && LeftAs(stage)
      ensures PgDefer(c, stage, code) in world.sent
      ensures forall now ::
                Undisturbed(now) && RowHeld(old(world).pg.row, c, now) && stage != Delivered && 1 <= |code| <= 80 ==>
                  ok && world.pg.row.Some? && world.pg.row.value.stage == stage
    {
      var reply := Call(PgDefer(c, stage, code));
      ok := reply != NoReply;
    }

    method DeliverIndexDispatch(c: IndexDispatch) returns (ok: bool)
      requires Valid() && AcceptedAs(world, c.result) && SucceededFor(world, c)
      modifies this
      ensures Valid() && Keeps(old(world), world) && Quiet(old(reports), old(dispatches))
      ensures AcceptedAs(world, c.result) && SucceededFor(world, c)
      ensures ok ==> |old(log)| < served && trace[served].pg.delivered
      ensures forall now :: Undisturbed(now) ==>
                (ok <==>
                   RowHeld(old(world).pg.row, c, now) && old(world).pg.row.value.rtwAccepted
                   && !old(world).pg.delivered)
    {
      ghost var w0 := world;
      var reply := Call(PgDeliver(c));
      ok := reply != NoReply;
      JustifiedStays(w0, world, PgDeliver(c));
    }

    // The latest answered call left the dispatch row at this stage.
    ghost predicate LeftAs(stage: Stage)
      reads this`trace, this`served
    {
      served < |trace| && trace[served].pg.row.Some? && trace[served].pg.row.value.stage == stage
    }

    // This failure was reported, once, if the clock left the job's lease time when it was read for
    // the n-th time, and not otherwise.
    ghost predicate ReportedBy(n: nat, before: nat, workerId: string, job: Job, cause: Error)
      reads this`world, this`reports
    {
      if clocks(n) + 250 < job.leaseExpiresAt
      then reports == before + 1
           && DcComplete(job.id, Lease(workerId, job.attemptId, job.leaseEpoch, job.cancelVersion),
                         FailureResult(cause))
              in world.sent
      else reports == before
    }

    // This worker's counts.
    ghost predicate Quiet(r: nat, d: nat)
      reads this`reports, this`dispatches
    {
      reports == r && dispatches == d
    }
  }

  // Noting the acceptance keeps the claim.
  lemma {:induction false} NoteKeepsClaim(w: World, v: World, c: IndexDispatch)
    ensures forall now :: ClaimedBy(w, c, now) ==> RowHeld(w.pg.row, c, now)
    ensures forall now :: ClaimedBy(w, c, now) && SameState(v, Exec(w, PgNote(c), now).0) ==>
              ClaimedBy(v, c, now) && v.pg.row.Some? && v.pg.row.value.rtwAccepted
  {
  }

  lemma {:induction false} CompletionSticks(before: World, after: World, later: World, id: string, lease: Lease,
          result: JobResult)
    requires JobsNamed(before.jobs) && IsIndexJob(before, id) && result.Success? && Evolves(after, later)
    requires Answers(before, DcComplete(id, lease, result), after, Done)
    ensures IsIndexJob(later, id) && later.jobs[id].id == id && later.jobs[id].state == Succeeded
    ensures later.jobs[id].result == Some(result) && HoldsLease(later.jobs[id], lease)
  {
    assert after.jobs[id].state == Succeeded;
  }

  // What a worker may carry from one call to the next.
  ghost predicate Keeps(a: World, b: World) {
    (a.rtw.build.state != BUILDING ==> b.rtw.build == a.rtw.build)
    && (a.pg.content.state != BUILDING ==> b.pg.content == a.pg.content)
    && b.pg.content.ident == a.pg.content.ident
  }

  // The attach reopened the row, or found it already saying the same.
  predicate OpenedBy(before: Pg, after: Pg) {
    Reopened(before, after) || after == before
  }

  lemma {:induction false} AttachOpened(before: World, m: Msg, after: World, r: Reply)
    requires m.PgAttach? && Answers(before, m, after, r) && r != NoReply
    ensures Attached(after.pg.row, m.jobId, m.workerId, m.dc, m.fence) && OpenedBy(before.pg, after.pg)
  {
    var t :| Exec(before, m, t) == (after, r);
    AttachReopens(before.pg, m, t);
  }

  ghost predicate ReadyWith(w: World, r: Ref) {
    w.pg.content.state == READY && w.pg.content.result == Some(r)
  }

  ghost predicate IsIndexJob(w: World, id: string) {
    id in w.jobs && w.jobs[id].jobType == INDEX_JOB_TYPE
  }

  // ---------- what the worker compares ----------

  datatype Error = InvalidJob | ExpiredLease | Conflict | GraphOutput | Unavailable

  datatype IndexManifest = IndexManifest(
    schemaVersion: int, ident: Ident, chunkManifest: Ref, lanes: seq<LaneManifest>)

  datatype LaneManifest = LaneManifest(lane: string, artifact: Ref, probePassed: bool)

  datatype Receipt = Receipt(
    buildId: string, releaseId: string, generation: int, chunkManifest: Ref, lanes: map<string, Ref>,
    indexManifest: Ref, ready: bool, attemptId: string, leaseEpoch: int, cancelVersion: int)

  // What the project runtime hands back; nothing about it is trusted.
  datatype RunOutcome = RunFailed | Ran(completed: bool, completions: nat, receipt: Receipt)

  const LANES := ["dense", "sparse", "multivector"]

  predicate IsLane(name: string) {
    name == "dense" || name == "sparse" || name == "multivector"
  }

  predicate ValidHash(h: string) {
    |h| == 64 && forall i :: 0 <= i < |h| ==> '0' <= h[i] <= '9' || 'a' <= h[i] <= 'f'
  }

  function DecodeIndexClaim(job: Job, workerId: string, resourceProfile: string,
                            now: int): (r: (Option<Error>, IndexJobInput, Fence))
    ensures r.0.None? ==> r.2.attemptId == job.attemptId && r.2.leaseEpoch == job.leaseEpoch && r.2.attemptId != ""
                          && r.2.cancelVersion == job.cancelVersion && now < r.2.expiresAt && r.2.leaseEpoch > 0
  {
    var noInput := IndexJobInput("", "", 0, "", map[]);
    var noFence := Fence("", "", 0, 0, 0);
    if workerId == "" || resourceProfile == "" || job.id == "" || !ValidHash(job.inputHash) || job.state != Running
       || job.workerId != workerId || job.jobType != INDEX_JOB_TYPE || job.resourceProfile != resourceProfile
       || job.producer == "" || job.operationId == "" || job.attemptId == "" || job.leaseEpoch <= 0
       || job.cancelVersion < 0
       || job.input.None?
    then (Some(InvalidJob), noInput, noFence)
    else
      var input := job.input.value;
      if input.buildId == "" || input.releaseId == "" || input.generation <= 0 || !ValidHash(input.inputManifestHash)
         || (exists lane :: lane in input.resume
              && (!IsLane(lane) || !ValidHash(input.resume[lane].sha256)
                  || input.resume[lane].key != "sha256/" + input.resume[lane].sha256))
      then (Some(InvalidJob), noInput, noFence)
      else if job.leaseExpiresAt <= now then (Some(ExpiredLease), noInput, noFence)
      else (None, input, Fence(input.buildId, job.attemptId, job.leaseEpoch, job.cancelVersion, job.leaseExpiresAt))
  }

  predicate SameIndexBuild(c: Content, input: IndexJobInput) {
    c.ident.buildId == input.buildId && c.ident.releaseId == input.releaseId && c.ident.generation == input.generation
    && c.ident.manifestHash == input.inputManifestHash && c.ident.moduleId != "" && c.operationId != ""
    && c.chunks.Some?
  }

  predicate SameLanes(a: map<string, Ref>, b: map<string, Ref>) {
    forall lane | lane in LANES :: (lane in a) == (lane in b) && (lane in a ==> a[lane] == b[lane])
  }

  predicate ManifestMatches(m: IndexManifest, fixed: Content, r: Receipt) {
    m.schemaVersion == 1 && m.ident.buildId == fixed.ident.buildId && m.ident.releaseId == fixed.ident.releaseId
    && m.ident.generation == fixed.ident.generation && m.ident.manifestHash == fixed.ident.manifestHash
    && m.chunkManifest == r.chunkManifest && |m.lanes| == 3
    && (forall i, j :: 0 <= i < j < |m.lanes| ==> m.lanes[i].lane != m.lanes[j].lane)
    && (forall i :: 0 <= i < |m.lanes| ==>
          IsLane(m.lanes[i].lane) && m.lanes[i].lane in r.lanes && m.lanes[i].artifact == r.lanes[m.lanes[i].lane]
          && m.lanes[i].probePassed)
  }

  // No later attempt of this job can come.
  predicate JobIsOver(j: Job) {
    j.state in {Failed, Cancelled, Succeeded} || (j.maxAttempts <= j.attempt && j.state != Queued)
  }

  // The local result is READY and RTW already holds exactly it.
  predicate AlreadyAccepted(remote: RtwBuild, fixed: Content) {
    fixed.state == READY && fixed.result.Some? && SameAcceptedIndex(remote, fixed, fixed.result.value)
  }

  function AcceptedReceipt(fixed: Content, fence: Fence): Receipt
    requires fixed.result.Some? && fixed.chunks.Some?
  {
    Receipt(fixed.ident.buildId, fixed.ident.releaseId, fixed.ident.generation, fixed.chunks.value, fixed.lanes,
            fixed.result.value, true, fence.attemptId, fence.leaseEpoch, fence.cancelVersion)
  }

  predicate SoundRun(run: RunOutcome, fixed: Content, fence: Fence) {
    run.Ran? && run.completed && run.completions == 1
    && run.receipt.buildId == fixed.ident.buildId && run.receipt.releaseId == fixed.ident.releaseId
    && run.receipt.generation == fixed.ident.generation && Some(run.receipt.chunkManifest) == fixed.chunks
    && run.receipt.attemptId == fence.attemptId && run.receipt.leaseEpoch == fence.leaseEpoch
    && run.receipt.cancelVersion == fence.cancelVersion && run.receipt.ready
  }

  // The store committed what the receipt says: under this fence, or earlier and untouched since.
  predicate Committed(committed: Content, fixed: Content, input: IndexJobInput, r: Receipt, fence: Fence) {
    SameIndexBuild(committed, input) && committed.state == READY && committed.result == Some(r.indexManifest)
    && committed.chunks == Some(r.chunkManifest) && |committed.lanes| == 3
    && (if fixed.state == READY
        then fixed.result == committed.result && fixed.chunks == committed.chunks && fixed.fence == committed.fence
             && |fixed.lanes| == |committed.lanes| && SameLanes(fixed.lanes, committed.lanes)
        else committed.fence.attemptId == fence.attemptId && committed.fence.leaseEpoch == fence.leaseEpoch
             && committed.fence.cancelVersion == fence.cancelVersion && committed.fence.expiresAt == fence.expiresAt)
    && SameLanes(committed.lanes, r.lanes)
  }

  function Technical(dc: Fence): TechnicalFence {
    TechnicalFence(dc.attemptId, dc.leaseEpoch, dc.cancelVersion, dc.expiresAt)
  }

  // The stored manifest describes the committed result: its build, its chunks, and three
  // different lanes, each probed and with the artifact that was committed.
  ghost predicate SoundIndex(objects: Ref -> Option<IndexManifest>, c: Content) {
    c.result.Some? && c.chunks.Some? && objects(c.result.value).Some?
    && var m := objects(c.result.value).value;
       m.schemaVersion == 1 && m.ident.buildId == c.ident.buildId && m.ident.releaseId == c.ident.releaseId
       && m.ident.generation == c.ident.generation && m.ident.manifestHash == c.ident.manifestHash
       && m.chunkManifest == c.chunks.value && |m.lanes| == 3
       && (forall i, j :: 0 <= i < j < |m.lanes| ==> m.lanes[i].lane != m.lanes[j].lane)
       && (forall i :: 0 <= i < |m.lanes| ==>
             IsLane(m.lanes[i].lane) && m.lanes[i].lane in c.lanes && m.lanes[i].artifact == c.lanes[m.lanes[i].lane]
             && m.lanes[i].probePassed)
  }

  // RTW holds the committed result, or still builds under this fence.
  ghost predicate CurrentBuild(b: RtwBuild, c: Content, fence: Fence) {
    b.ident == c.ident && c.result.Some?
    && ((b.state == READY && b.indexRef == c.result.value && b.errorCode == "")
        || (b.state == BUILDING && b.attemptId == fence.attemptId && b.leaseEpoch == fence.leaseEpoch
            && b.cancelVersion == fence.cancelVersion && b.leaseExpiresAt == fence.expiresAt))
  }

  lemma {:induction false} CommittedIsSound(objects: Ref -> Option<IndexManifest>, committed: Content, fixed: Content,
          input: IndexJobInput, r: Receipt, fence: Fence)
    requires SameIndexBuild(fixed, input) && Committed(committed, fixed, input, r, fence)
             && objects(r.indexManifest).Some?
    requires ManifestMatches(objects(r.indexManifest).value, fixed, r)
    ensures committed.state == READY && SameIndexBuild(committed, input) && committed.result == Some(r.indexManifest)
    ensures SoundIndex(objects, committed)
  {
  }

  function FailureResult(e: Error): JobResult {
    match e
    case InvalidJob => Failure("content_index_invalid", false)
    case ExpiredLease => Failure("content_index_conflict", true)
    case Conflict => Failure("content_index_conflict", true)
    case _ => Failure("content_index_failed", true)
  }

  // DC still runs this attempt.
  predicate Failing(jobs: Jobs, job: Job, workerId: string, now: int) {
    job.id in jobs && HoldsLease(jobs[job.id], Lease(workerId, job.attemptId, job.leaseEpoch, job.cancelVersion))
    && jobs[job.id].state == Running && now < jobs[job.id].leaseExpiresAt
  }

  // An attempt whose job is invalid fails for good; any other failure puts the job back in
  // the queue while it has attempts left.
  predicate AfterFailure(before: Job, after: Job, cause: Error) {
    if cause != InvalidJob && before.attempt < before.maxAttempts then after == before.(state := Queued)
    else
      after == before.(state := Failed, result := after.result)
      && after.result.Some? && after.result.value.Failure?
      && after.result.value.errorCode
         == "content_index_" + (if cause == InvalidJob then "invalid"
                                else if cause in {Conflict, ExpiredLease} then "conflict" else "failed")
  }

  lemma {:induction false} ReportTakesEffect(w: World, job: Job, workerId: string, cause: Error)
    ensures var m := DcComplete(job.id, Lease(workerId, job.attemptId, job.leaseEpoch, job.cancelVersion),
                                FailureResult(cause));
            forall now, v: World :: Failing(w.jobs, job, workerId, now) && SameState(v, Exec(w, m, now).0) ==>
              job.id in v.jobs && AfterFailure(w.jobs[job.id], v.jobs[job.id], cause)
  {
    assert "content_index_" + "invalid" == "content_index_invalid";
    assert "content_index_" + "conflict" == "content_index_conflict";
    assert "content_index_" + "failed" == "content_index_failed";
  }

  // ---------- what a claim of a live row can count on ----------

  lemma {:induction false} ClaimedContent(w: World, c: IndexDispatch)
    ensures forall now :: ClaimedBy(w, c, now) ==>
              ReadyWith(w, c.result) && |w.pg.content.lanes| == 3 && RowHeld(w.pg.row, c, now) && !w.pg.delivered
              && (c.rtwAccepted ==> w.pg.row.value.rtwAccepted)
    ensures forall b, now :: SameState(w, b) && ClaimedBy(w, c, now) ==> ClaimedBy(b, c, now)
  {
  }

  // The acceptance a claim would ask RTW for.
  function AcceptFor(c: IndexDispatch, fixed: Content): AcceptReq {
    AcceptReq(c.buildId, fixed.ident.generation, fixed.ident.manifestHash, c.fence.attemptId, c.fence.leaseEpoch,
              c.fence.cancelVersion, c.result)
  }

  lemma {:induction false} ClaimedBuild(w: World, c: IndexDispatch)
    ensures forall now :: ClaimedBy(w, c, now) && w.rtw.build.state != BUILDING ==>
              SameAcceptedIndex(w.rtw.build, w.pg.content, c.result)
    ensures forall now :: ClaimedBy(w, c, now) && w.rtw.build.state == BUILDING ==>
              SameRTWIndexBuild(w.rtw.build, w.pg.content, c.fence) && now + 250 < c.fence.expiresAt
              && var q := AcceptFor(c, w.pg.content); var b := Accept(w.rtw.build, q, now);
                 b.Some? && SameAcceptedIndex(b.value, w.pg.content, c.result)
                 && forall v :: SameState(v, Exec(w, RtwAccept(q), now).0) ==> ClaimedBy(v, c, now)
  {
  }

  // The completion a claim would ask DC for.
  function CompletionOf(c: IndexDispatch): Msg {
    DcComplete(c.jobId, Lease(c.workerId, c.dc.attemptId, c.dc.leaseEpoch, c.dc.cancelVersion),
               Success(IndexResultRef(c.result)))
  }

  lemma {:induction false} ClaimedJob(w: World, c: IndexDispatch)
    ensures forall now :: ClaimedBy(w, c, now) ==>
              c.jobId in w.jobs && SameIndexJobAttempt(w.jobs[c.jobId], c)
              && (SameIndexJobSuccess(w.jobs[c.jobId], c)
                  || (w.jobs[c.jobId].state == Running && now + 250 < c.dc.expiresAt
                      && forall v: World :: SameState(v, Exec(w, CompletionOf(c), now).0) ==>
                           c.jobId in v.jobs && SameIndexJobSuccess(v.jobs[c.jobId], c)))
  {
    forall now, v: World
      | ClaimedBy(w, c, now) && w.jobs[c.jobId].state == Running && SameState(v, Exec(w, CompletionOf(c), now).0)
      ensures c.jobId in v.jobs && SameIndexJobSuccess(v.jobs[c.jobId], c)
    {
      var j := Complete(w.jobs[c.jobId], CompletionOf(c).lease, CompletionOf(c).result, now);
      assert j.Some? && v.jobs == w.jobs[c.jobId := j.value];
    }
  }

  // A new attempt that RTW can grant a fence to.
  predicate Grantable(b: RtwBuild, dc: Fence, now: int) {
    b.state == BUILDING && b.ident.buildId != "" && b.ident.buildId == dc.buildId && b.ident.generation >= 1
    && b.ident.manifestHash != "" && b.cancelVersion == dc.cancelVersion && b.leaseEpoch >= 0
    && dc.attemptId != "" && dc.attemptId != b.attemptId && dc.leaseEpoch >= 1 && now < dc.expiresAt
  }

  predicate SameRtw(b: RtwBuild, w: World) {
    w.rtw.build == b
  }

  lemma {:induction false} GrantableIsGranted(b: RtwBuild, dc: Fence)
    ensures forall now :: Grantable(b, dc, now) ==>
              b.state == BUILDING && b.ident.buildId != "" && b.ident.buildId == dc.buildId && b.ident.generation >= 1
              && b.ident.manifestHash != "" && b.cancelVersion == dc.cancelVersion && dc.attemptId != ""
              && dc.leaseEpoch >= 1 && now < dc.expiresAt
              && var q := ClaimReq(b.ident.buildId, b.ident.generation, b.ident.manifestHash, b.cancelVersion,
                                   dc.attemptId, 0, dc.expiresAt);
                 var g := Grant(b, q, now);
                 g.Some?
                 && g.value == b.(attemptId := dc.attemptId, leaseEpoch := b.leaseEpoch + 1,
                                  leaseExpiresAt := dc.expiresAt)
                 && FenceFrom(b, dc, g.value)
                    == Some(Fence(dc.buildId, dc.attemptId, b.leaseEpoch + 1, b.cancelVersion, dc.expiresAt))
  {
  }

  // RTW already holds the committed result, or can grant a fence to this attempt.
  predicate Acquirable(b: RtwBuild, c: Content, dc: Fence, now: int) {
    b.ident == c.ident && b.cancelVersion == c.fence.cancelVersion
    && ((AlreadyAccepted(b, c) && b.attemptId != "" && b.leaseEpoch >= 1) || Grantable(b, dc, now))
  }

  // The fence the attempt then works under.
  function FenceOf(b: RtwBuild, dc: Fence): Fence {
    if b.state == BUILDING then Fence(dc.buildId, dc.attemptId, b.leaseEpoch + 1, b.cancelVersion, dc.expiresAt)
    else Fence(b.ident.buildId, b.attemptId, b.leaseEpoch, b.cancelVersion, b.leaseExpiresAt)
  }

  // RTW holds the result, or builds under this fence; nothing else changed.
  predicate Acquired(a: World, b: World, c: Content, fence: Fence) {
    b.jobs == a.jobs && b.pg == a.pg
    && (if a.rtw.build.state != BUILDING then b.rtw.build == a.rtw.build && AlreadyAccepted(b.rtw.build, c)
        else SameRTWIndexBuild(b.rtw.build, c, fence) && b.rtw.build.cancelVersion == c.fence.cancelVersion)
  }

  lemma {:induction false} AcquirableSays(b: RtwBuild, c: Content, dc: Fence)
    ensures forall now :: Acquirable(b, c, dc, now) ==>
              b.ident == c.ident && b.cancelVersion == c.fence.cancelVersion
              && (if b.state == BUILDING then !AlreadyAccepted(b, c) && Grantable(b, dc, now)
                  else AlreadyAccepted(b, c) && b.attemptId != "" && b.leaseEpoch >= 1)
  {
  }

  lemma {:induction false} AcquiredSays(a: World, c: Content, dc: Fence)
    ensures FenceOf(a.rtw.build, dc) ==
              if a.rtw.build.state == BUILDING
              then Fence(dc.buildId, dc.attemptId, a.rtw.build.leaseEpoch + 1, a.rtw.build.cancelVersion, dc.expiresAt)
              else Fence(a.rtw.build.ident.buildId, a.rtw.build.attemptId, a.rtw.build.leaseEpoch,
                         a.rtw.build.cancelVersion, a.rtw.build.leaseExpiresAt)
    ensures forall b: World ::
              b.jobs == a.jobs && b.pg == a.pg && a.rtw.build.state != BUILDING && b.rtw.build == a.rtw.build
              && AlreadyAccepted(b.rtw.build, c) ==>
                Acquired(a, b, c, FenceOf(a.rtw.build, dc))
    ensures forall b: World, now ::
              b.jobs == a.jobs && b.pg == a.pg && Acquirable(a.rtw.build, c, dc, now) && Grantable(a.rtw.build, dc, now)
              && GrantsNext(a, b, dc) ==>
                Acquired(a, b, c, FenceOf(a.rtw.build, dc))
  {
  }

  // DC runs this attempt, with time left.
  predicate HeldBy(jobs: Jobs, id: string, workerId: string, dc: Fence, now: int) {
    id in jobs
    && var j := jobs[id];
       j.id == id && j.workerId == workerId && j.attemptId == dc.attemptId && j.leaseEpoch == dc.leaseEpoch
       && j.cancelVersion == dc.cancelVersion && j.jobType == INDEX_JOB_TYPE && j.state == Running
       && now < j.leaseExpiresAt
  }

  // The row, whatever its stage, gives way to this attempt under this fence.
  predicate Yields(p: Row, id: string, dc: Fence, f: Fence) {
    (p.jobId == id ==> p.dc.leaseEpoch < dc.leaseEpoch) && p.fence.cancelVersion == f.cancelVersion
    && (p.fence.leaseEpoch < f.leaseEpoch
        || (p.fence.leaseEpoch == f.leaseEpoch && p.fence.attemptId == f.attemptId && p.fence.expiresAt <= f.expiresAt))
  }

  // A READY build that this attempt of its job can take up: DC runs the attempt, RTW holds
  // the result or can grant a fence, and the row gives way.
  predicate TakesUp(w: World, id: string, workerId: string, dc: Fence, now: int) {
    var c := w.pg.content;
    c.state == READY && c.result.Some? && |c.lanes| == 3 && id != "" && workerId != ""
    && dc.buildId == c.ident.buildId && dc.attemptId != "" && dc.leaseEpoch > 0 && dc.cancelVersion >= 0
    && now + 1000 < dc.expiresAt && c.fence.cancelVersion >= 0
    && HeldBy(w.jobs, id, workerId, dc, now) && Acquirable(w.rtw.build, c, dc, now)
    && w.pg.row.Some? && Yields(w.pg.row.value, id, dc, FenceOf(w.rtw.build, dc))
  }

  lemma {:induction false} SameDeliverable(a: World, b: World)
    requires SameState(a, b)
    ensures forall id, now :: Deliverable(a, id, now) <==> Deliverable(b, id, now)
  {
  }

  // The fence acquired and the row attached, the build can be delivered.
  lemma {:induction false} TakenUpIsDeliverable(w: World, g: World, v: World, id: string, workerId: string, dc: Fence)
    ensures forall now ::
              TakesUp(w, id, workerId, dc, now) && Acquired(w, g, w.pg.content, FenceOf(w.rtw.build, dc)) ==>
                var (pg, r) := Attach(g.pg, PgAttach(id, workerId, Technical(dc), FenceOf(w.rtw.build, dc)), now);
                r == Done && pg.content == w.pg.content
                && (SameState(v, g.(pg := pg)) ==> Deliverable(v, dc.buildId, now))
  {
    forall now | TakesUp(w, id, workerId, dc, now) && Acquired(w, g, w.pg.content, FenceOf(w.rtw.build, dc))
      ensures var (pg, r) := Attach(g.pg, PgAttach(id, workerId, Technical(dc), FenceOf(w.rtw.build, dc)), now);
              r == Done && pg.content == w.pg.content
              && (SameState(v, g.(pg := pg)) ==> Deliverable(v, dc.buildId, now))
    {
      var m := PgAttach(id, workerId, Technical(dc), FenceOf(w.rtw.build, dc));
      AttachReopens(g.pg, m, now);
      AttachAnswered(g.pg, m, now);
    }
  }

  // The build after that: deliverable, its content as before, and RTW current.
  predicate TakenUp(w: World, v: World, dc: Fence, now: int) {
    Deliverable(v, dc.buildId, now) && v.pg.content == w.pg.content
    && (if AlreadyAccepted(w.rtw.build, w.pg.content) then v.rtw.build == w.rtw.build
        else SameRTWIndexBuild(v.rtw.build, w.pg.content, FenceOf(w.rtw.build, dc)))
  }

  lemma {:induction false} TakesUpSays(w: World, id: string, workerId: string, dc: Fence)
    ensures forall now :: TakesUp(w, id, workerId, dc, now) ==>
              Acquirable(w.rtw.build, w.pg.content, dc, now) && w.pg.content.state == READY
  {
  }

  // What is on the wire makes no difference.
  lemma {:induction false} SameTakes(a: World, b: World, id: string, workerId: string, dc: Fence)
    ensures SameState(b, a) ==>
              (forall now :: TakesUp(a, id, workerId, dc, now) <==> TakesUp(b, id, workerId, dc, now))
              && forall v, now :: TakenUp(b, v, dc, now) <==> TakenUp(a, v, dc, now)
  {
  }

  lemma {:induction false} AcquiredIsCurrent(w: World, g: World, v: World, dc: Fence)
    ensures forall now :: Acquired(w, g, w.pg.content, FenceOf(w.rtw.build, dc)) && v.rtw == g.rtw
                          && Acquirable(w.rtw.build, w.pg.content, dc, now) && v.pg.content == w.pg.content
                          && Deliverable(v, dc.buildId, now) ==>
              TakenUp(w, v, dc, now)
  {
  }

  // RTW granted the next epoch to this attempt.
  predicate GrantsNext(a: World, b: World, dc: Fence) {
    b.rtw.build == a.rtw.build.(attemptId := dc.attemptId, leaseEpoch := a.rtw.build.leaseEpoch + 1,
                                leaseExpiresAt := dc.expiresAt)
  }

  // RTW builds under another fence than this claim's, or the claim's has no time left.
  predicate StaleAtRtw(w: World, c: IndexDispatch, now: int) {
    w.rtw.build.state == BUILDING
    && (!SameRTWIndexBuild(w.rtw.build, w.pg.content, c.fence) || c.fence.expiresAt <= now + 250)
  }

  // RTW closed the build without this result.
  predicate ClosedOtherwise(w: World, c: IndexDispatch) {
    w.rtw.build.state != BUILDING && !SameAcceptedIndex(w.rtw.build, w.pg.content, c.result)
  }

  // DC no longer runs this claim's attempt with time left, and has no success of it.
  predicate StaleAtDc(w: World, c: IndexDispatch, now: int) {
    c.jobId in w.jobs && !SameIndexJobSuccess(w.jobs[c.jobId], c)
    && (!SameIndexJobAttempt(w.jobs[c.jobId], c) || w.jobs[c.jobId].state != Running || c.dc.expiresAt <= now + 250)
  }

  predicate StageIs(w: World, stage: Stage) {
    w.pg.row.Some? && w.pg.row.value.stage == stage
  }

  // ---------- the worker ----------

  class IndexWorker {
    const wire: Wire
    const workerId: string
    const resourceProfile: string
    const objects: Ref -> Option<IndexManifest>   // content-addressed, decoded; None when unreadable

    constructor (wire: Wire, workerId: string, resourceProfile: string, objects: Ref -> Option<IndexManifest>)
      ensures this.wire == wire && this.workerId == workerId && this.resourceProfile == resourceProfile
              && this.objects == objects
    {
      this.wire, this.workerId, this.resourceProfile, this.objects := wire, workerId, resourceProfile, objects;
    }

    // Asks RTW for a build fence. `prior` is this worker's earlier read of the build.
    // After a lost reply the grant is read back and must be exactly the one expected.
    method ClaimAllocatedRTWBuildFence(prior: RtwBuild, dc: Fence) returns (r: Option<Fence>)
      requires wire.Valid()
      modifies wire
      ensures wire.Valid() && Keeps(old(wire.world), wire.world) && wire.Quiet(old(wire.reports), old(wire.dispatches))
      ensures old(wire.trace) <= wire.trace
      ensures r.Some? ==> |old(wire.log)| < wire.served && r == FenceFrom(prior, dc, wire.trace[wire.served].rtw.build)
      ensures r.Some? ==> GrantedTo(wire.world, r.value.leaseEpoch, dc.attemptId) && r.value.attemptId == dc.attemptId
      ensures r.Some? ==>
                prior.state == BUILDING && prior.ident.buildId == dc.buildId != "" && prior.ident.generation >= 1
                && prior.ident.manifestHash != "" && prior.cancelVersion == dc.cancelVersion && dc.attemptId != ""
                && dc.leaseEpoch >= 1 && wire.clocks(old(wire.ticks)) < dc.expiresAt
      ensures forall now ::
                wire.Undisturbed(now) && SameRtw(prior, old(wire.world)) && Grantable(prior, dc, now) ==>
                  r == Some(Fence(dc.buildId, dc.attemptId, prior.leaseEpoch + 1, prior.cancelVersion, dc.expiresAt))
                  && wire.world.jobs == old(wire.world).jobs && wire.world.pg == old(wire.world).pg
                  && GrantsNext(old(wire.world), wire.world, dc)
    {
      hide Grantable, Behavior, Grant, Inv, Evolves, GrantedTo;
      BehaviorLength(wire.trace, wire.log);
      GrantableIsGranted(prior, dc);
      r := None;
      var now := wire.Now();
      if prior.ident.buildId == "" || prior.ident.buildId != dc.buildId || prior.state != BUILDING
         || prior.ident.generation < 1 || prior.ident.manifestHash == "" || prior.cancelVersion != dc.cancelVersion
         || dc.attemptId == "" || dc.leaseEpoch < 1 || dc.expiresAt <= now {
        return;
      }
      var request := ClaimReq(prior.ident.buildId, prior.ident.generation, prior.ident.manifestHash,
                              prior.cancelVersion, dc.attemptId, 0, dc.expiresAt);
      var claimed := wire.ClaimBuild(request);
      if claimed.None? {
        BehaviorLength(wire.trace, wire.log);
        claimed := wire.GetBuild();
        if claimed.None? {
          return;
        }
      }
      r := FenceFrom(prior, dc, claimed.value);
      FenceIsGranted(prior, dc);
    }

    // A fence read off a build RTW showed is recorded there, then and later.
    lemma {:induction false} FenceIsGranted(prior: RtwBuild, dc: Fence)
      requires wire.Valid()
      ensures wire.served < |wire.trace|
      ensures var f := FenceFrom(prior, dc, wire.trace[wire.served].rtw.build);
              f.Some? ==> GrantedTo(wire.world, f.value.leaseEpoch, dc.attemptId) && f.value.attemptId == dc.attemptId
    {
      EveryWorldIsSafe(wire.trace, wire.log, wire.served);
      if FenceFrom(prior, dc, wire.trace[wire.served].rtw.build).Some? {
        FenceIsTheGrant(prior, wire.trace[wire.served], dc);
        LaterWorldsEvolve(wire.trace, wire.log, wire.served, |wire.log|);
      }
    }

    // The RTW half of a dispatch: on success RTW is READY with exactly the claimed result.
    method AcceptOnce(claim: IndexDispatch, fixed: Content) returns (err: Option<Error>, deferred: bool)
      requires wire.Valid() && fixed == wire.world.pg.content && ReadyWith(wire.world, claim.result)
      modifies wire
      ensures wire.Valid() && Keeps(old(wire.world), wire.world) && wire.Quiet(old(wire.reports), old(wire.dispatches))
      ensures err.None? ==> AcceptedAs(wire.world, claim.result)
      ensures deferred && err == Some(ExpiredLease) ==> wire.LeftAs(NeedsNewAttempt)
      ensures deferred && err == Some(Conflict) ==>
                wire.LeftAs(Manual) && wire.world.rtw.build.state != BUILDING && !AcceptedAs(wire.world, claim.result)
      ensures forall now :: wire.Undisturbed(now) && ClaimedBy(old(wire.world), claim, now) ==>
                err.None? && ClaimedBy(wire.world, claim, now)
      ensures deferred ==> err.Some? && exists stage, code :: PgDefer(claim, stage, code) in wire.world.sent
      ensures forall now :: wire.Undisturbed(now) && RowHeld(old(wire.world).pg.row, claim, now) ==>
                (StaleAtRtw(old(wire.world), claim, now) ==>
                   err == Some(ExpiredLease) && deferred && StageIs(wire.world, NeedsNewAttempt))
                && (ClosedOtherwise(old(wire.world), claim) ==>
                      err == Some(Conflict) && deferred && StageIs(wire.world, Manual))
    {
      hide ClaimedBy, Accept, RowHeld, Behavior, Count, Deliverable;
      ClaimedBuild(wire.world, claim);
      ClaimedContent(wire.world, claim);
      deferred := false;
      var remote := wire.GetBuild();
      if remote.None? {
        return Some(Unavailable), deferred;
      }
      if remote.value.state == BUILDING {
        var now := wire.Now();
        if !SameRTWIndexBuild(remote.value, fixed, claim.fence) || claim.fence.expiresAt <= now + 250 {
          deferred := true;
          var ok := wire.DeferIndexDispatch(claim, NeedsNewAttempt, "rtw_claim_stale");
          return Some(if ok then ExpiredLease else Unavailable), deferred;
        }
        var request := AcceptFor(claim, fixed);
        ClaimedBuild(wire.world, claim);
        remote := wire.AcceptBuild(request);
        if remote.None? {
          remote := wire.GetBuild();
          if remote.None? {
            return Some(Unavailable), deferred;
          }
        }
      }
      if !SameAcceptedIndex(remote.value, fixed, claim.result) {
        if remote.value.state != BUILDING {
          deferred := true;
          var ok := wire.DeferIndexDispatch(claim, Manual, "rtw_terminal_mismatch");
          if !ok {
            return Some(Unavailable), deferred;
          }
        }
        return Some(Conflict), deferred;
      }
      return None, deferred;
    }

    // The DC half: on success DC holds success for the claim's own attempt and result. An
    // attempt that can no longer be completed is left for a person once the job is over.
    method CompleteOnce(claim: IndexDispatch) returns (err: Option<Error>, deferred: bool, ghost seen: Option<Job>)
      requires wire.Valid() && AcceptedAs(wire.world, claim.result)
      modifies wire
      ensures wire.Valid() && Keeps(old(wire.world), wire.world) && wire.Quiet(old(wire.reports), old(wire.dispatches))
      ensures err.None? ==> SucceededFor(wire.world, claim)
      ensures deferred && err == Some(Conflict) ==>
                seen.Some? && !SameIndexJobSuccess(seen.value, claim)
                && var j := seen.value;
                   wire.LeftAs(if j.state == Failed || j.state == Cancelled || j.state == Succeeded
                                  || (j.attempt >= j.maxAttempts && j.state != Queued)
                               then Manual else NeedsNewAttempt)
      ensures forall now :: wire.Undisturbed(now) && ClaimedBy(old(wire.world), claim, now) ==>
                err.None? && wire.world.pg == old(wire.world).pg
      ensures deferred ==> err.Some? && exists stage, code :: PgDefer(claim, stage, code) in wire.world.sent
      ensures forall now ::
                wire.Undisturbed(now) && RowHeld(old(wire.world).pg.row, claim, now)
                && StaleAtDc(old(wire.world), claim, now) ==>
                  var j := old(wire.world).jobs[claim.jobId];
                  err == Some(Conflict) && deferred
                  && StageIs(wire.world, if j.state in {Failed, Cancelled, Succeeded}
                                            || (j.attempt >= j.maxAttempts && j.state != Queued)
                                         then Manual else NeedsNewAttempt)
    {
      hide ClaimedBy, Complete, RowHeld, Behavior, Count, Deliverable;
      ClaimedJob(wire.world, claim);
      deferred := false;
      var job := wire.GetJob(claim.jobId);
      seen := job;
      if job.None? {
        return Some(Unavailable), deferred, seen;
      }
      if SameIndexJobSuccess(job.value, claim) {
        return None, deferred, seen;
      }
      var now := wire.Now();
      if !SameIndexJobAttempt(job.value, claim) || job.value.state != Running || claim.dc.expiresAt <= now + 250 {
        var stage := if JobIsOver(job.value) then Manual else NeedsNewAttempt;
        deferred := true;
        var ok := wire.DeferIndexDispatch(claim, stage, "dc_attempt_unavailable");
        return Some(if ok then Conflict else Unavailable), deferred, seen;
      }
      var lease := Lease(claim.workerId, claim.dc.attemptId, claim.dc.leaseEpoch, claim.dc.cancelVersion);
      var ok := wire.CompleteJob(claim.jobId, lease, Success(IndexResultRef(claim.result)));
      if !ok {
        job := wire.GetJob(claim.jobId);
        if job.None? || !SameIndexJobSuccess(job.value, claim) {
          return Some(Unavailable), deferred, seen;
        }
      }
      return None, deferred, seen;
    }

    method Dispatch(claim: IndexDispatch) returns (err: Option<Error>, deferred: bool)
      requires wire.Valid() && ReadyWith(wire.world, claim.result)
      modifies wire
      ensures wire.Valid() && Keeps(old(wire.world), wire.world) && wire.Quiet(old(wire.reports), old(wire.dispatches))
      ensures err.None? ==>
                wire.trace[wire.served].pg.delivered && AcceptedAs(wire.world, claim.result)
                && SucceededFor(wire.world, claim)
      ensures forall now :: wire.Undisturbed(now) && ClaimedBy(old(wire.world), claim, now) ==> err.None?
      ensures deferred && err.Some? ==> exists stage, code :: PgDefer(claim, stage, code) in wire.world.sent
    {
      hide ClaimedBy, SucceededFor, RowHeld, Live;
      ClaimedContent(wire.world, claim);
      deferred := false;
      var fixed := wire.GetContent();
      if fixed.None? {
        return Some(Unavailable), deferred;
      }
      if fixed.value.state != READY || fixed.value.result != Some(claim.result) || |fixed.value.lanes| != 3 {
        return Some(Conflict), deferred;
      }
      err, deferred := AcceptOnce(claim, fixed.value);
      if err.Some? {
        return;
      }
      ClaimedContent(wire.world, claim);
      if !claim.rtwAccepted {
        var ok := wire.NoteIndexRTWAccepted(claim);
        if !ok {
          return Some(Unavailable), deferred;
        }
      }
      ClaimedContent(wire.world, claim);
      ghost var seen;
      err, deferred, seen := CompleteOnce(claim);
      if err.Some? {
        return;
      }
      var ok := wire.DeliverIndexDispatch(claim);
      if !ok {
        return Some(Unavailable), deferred;
      }
    }

    // Leases the pending dispatch of a READY build and carries it to both authorities.
    // Success means that the local delivery was committed, after both receipts. A live row
    // whose leases have time left is delivered if nobody interferes.
    method DispatchReadyOnce(buildId: string) returns (worked: bool, err: Option<Error>)
      requires wire.Valid()
      modifies wire
      ensures wire.Valid() && Keeps(old(wire.world), wire.world)
      ensures wire.Quiet(old(wire.reports), old(wire.dispatches) + 1)
      ensures worked && err.None? ==> wire.trace[wire.served].pg.delivered
      ensures forall now :: wire.Undisturbed(now) && Deliverable(old(wire.world), buildId, now) ==> worked && err.None?
      ensures forall now ::
                wire.Undisturbed(now) && ClaimRow(old(wire.world).pg, buildId, now).1 == NothingPending ==>
                  !worked && err.None?
      ensures worked && err.Some? ==> exists c, stage, code :: PgDefer(c, stage, code) in wire.world.sent
    {
      hide Wire.Undisturbed, Behavior, Count;
      var claim, failed := wire.ClaimIndexDispatch(buildId);
      if claim.None? {
        return false, if failed then Some(Unavailable) else None;
      }
      var deferred;
      err, deferred := Dispatch(claim.value);
      if err.Some? && !deferred {
        var _ := wire.DeferIndexDispatch(claim.value, Pending, "dispatch_retry");
      }
      return true, err;
    }

    // The fence to build under: RTW's own if it already accepted the local result, else a
    // fresh grant. Either way RTW recorded it.
    method AcquireFence(fixed: Content, remote: RtwBuild, dc: Fence) returns (err: Option<Error>, fence: Fence)
      requires wire.Valid()
      requires remote.state != BUILDING ==> remote == wire.world.rtw.build
      modifies wire
      ensures wire.Valid() && Keeps(old(wire.world), wire.world) && wire.Quiet(old(wire.reports), old(wire.dispatches))
      ensures old(wire.trace) <= wire.trace
      ensures err.None? ==> GrantedTo(wire.world, fence.leaseEpoch, fence.attemptId)
      ensures forall now ::
                wire.Undisturbed(now) && SameRtw(remote, old(wire.world)) && Acquirable(remote, fixed, dc, now) ==>
                  err.None? && fence == FenceOf(remote, dc) && Acquired(old(wire.world), wire.world, fixed, fence)
    {
      hide Acquired, Acquirable, Grantable, FenceOf;
      AcquirableSays(remote, fixed, dc);
      AcquiredSays(wire.world, fixed, dc);
      fence := dc;
      if AlreadyAccepted(remote, fixed) {
        if remote.attemptId == "" || remote.leaseEpoch < 1 {
          return Some(Conflict), fence;
        }
        EveryWorldIsSafe(wire.trace, wire.log, |wire.log|);
        var recorded := Fence(fixed.ident.buildId, remote.attemptId, remote.leaseEpoch, remote.cancelVersion,
                              remote.leaseExpiresAt);
        return None, recorded;
      }
      if remote.state != BUILDING || remote.ident != fixed.ident || remote.cancelVersion != fixed.fence.cancelVersion {
        return Some(Conflict), fence;
      }
      var granted := ClaimAllocatedRTWBuildFence(remote, dc);
      if granted.None? {
        return Some(Conflict), fence;
      }
      return None, granted.value;
    }

    // The store committed what the receipt says, the stored manifest describes it, and RTW is
    // current.
    predicate Confirmable(w: World, fixed: Content, input: IndexJobInput, r: Receipt, f: Fence) {
      Committed(w.pg.content, fixed, input, r, f) && objects(r.indexManifest).Some?
      && ManifestMatches(objects(r.indexManifest).value, fixed, r)
      && (SameRTWIndexBuild(w.rtw.build, fixed, f) || SameAcceptedIndex(w.rtw.build, fixed, r.indexManifest))
    }

    // Where RTW does not hold the result yet, the run hands back what the store committed.
    predicate RunFits(w: World, input: IndexJobInput, dc: Fence, run: RunOutcome) {
      var c, f := w.pg.content, FenceOf(w.rtw.build, dc);
      SameIndexBuild(c, input) && c.result.Some?
      && (if AlreadyAccepted(w.rtw.build, c)
          then objects(c.result.value).Some?
               && ManifestMatches(objects(c.result.value).value, c, AcceptedReceipt(c, f))
          else SoundRun(run, c, f) && Committed(c, c, input, run.receipt, f) && objects(run.receipt.indexManifest).Some?
               && ManifestMatches(objects(run.receipt.indexManifest).value, c, run.receipt))
    }

    // What a receipt says against the store, the stored manifest, and RTW.
    method ConfirmBuilt(fixed: Content, input: IndexJobInput, receipt: Receipt, acquired: Fence)
      returns (err: Option<Error>)
      requires wire.Valid() && SameIndexBuild(fixed, input) && fixed.ident == wire.world.pg.content.ident
      modifies wire
      ensures wire.Valid() && wire.Quiet(old(wire.reports), old(wire.dispatches)) && old(wire.trace) <= wire.trace
      ensures err.None? ==> wire.world.pg.content.state == READY && SameIndexBuild(wire.world.pg.content, input)
      ensures err.None? ==> SoundIndex(objects, wire.world.pg.content)
                            && CurrentBuild(wire.trace[wire.served].rtw.build, wire.world.pg.content, acquired)
      ensures forall now :: wire.Undisturbed(now) && Confirmable(old(wire.world), fixed, input, receipt, acquired) ==>
                err.None? && SameState(wire.world, old(wire.world))
    {
      hide SoundIndex, ManifestMatches, Committed, SameLanes;
      var committed := wire.GetContent();
      if committed.None? {
        return Some(Unavailable);
      }
      if !Committed(committed.value, fixed, input, receipt, acquired) {
        return Some(Conflict);
      }
      var manifest := objects(receipt.indexManifest);
      if manifest.None? {
        return Some(Unavailable);
      }
      if !ManifestMatches(manifest.value, fixed, receipt) {
        return Some(GraphOutput);
      }
      CommittedIsSound(objects, committed.value, fixed, input, receipt, acquired);
      var remote := wire.GetBuild();
      if remote.None? {
        return Some(Unavailable);
      }
      if !SameRTWIndexBuild(remote.value, fixed, acquired)
         && !SameAcceptedIndex(remote.value, fixed, receipt.indexManifest) {
        return Some(Conflict);
      }
      return None;
    }

    // Everything between decoding a claimed job and entering dispatch. The runtime's receipt
    // counts only if the local store committed exactly it. On success the dispatch row was
    // attached to this attempt under a fence RTW granted, the stored manifest describes what
    // was committed, and RTW is still building under that fence or holds the result.
    method BuildOnce(job: Job, input: IndexJobInput, dc: Fence, run: RunOutcome)
      returns (err: Option<Error>, ghost fence: Fence, ghost at: nat)
      requires wire.Valid()
      modifies wire
      ensures wire.Valid() && wire.Quiet(old(wire.reports), old(wire.dispatches))
      ensures err.None? ==> wire.world.pg.content.state == READY && SameIndexBuild(wire.world.pg.content, input)
      ensures err.None? ==> GrantedTo(wire.world, fence.leaseEpoch, fence.attemptId)
      ensures err.None? ==>
                |old(wire.log)| < at < |wire.trace|
                && Attached(wire.trace[at].pg.row, job.id, workerId, Technical(dc), fence)
                && OpenedBy(wire.trace[at - 1].pg, wire.trace[at].pg)
      ensures err.None? ==> SoundIndex(objects, wire.world.pg.content)
                            && CurrentBuild(wire.trace[wire.served].rtw.build, wire.world.pg.content, fence)
      ensures forall now ::
                wire.Undisturbed(now) && TakesUp(old(wire.world), job.id, workerId, dc, now)
                && RunFits(old(wire.world), input, dc, run) ==>
                  err.None? && Deliverable(wire.world, dc.buildId, now)
    {
      hide SoundIndex, CurrentBuild, Attached, OpenedBy, Deliverable, Confirmable, Committed, ManifestMatches, FenceOf;
      hide Behavior, Evolves, TakesUp, TakenUp, RunFits, Exec;
      TakesUpSays(wire.world, job.id, workerId, dc);
      FitsSays(wire.world, input, dc, run);
      fence, at := dc, 0;
      BehaviorLength(wire.trace, wire.log);
      var fixed := wire.GetContent();
      if fixed.None? {
        return Some(Unavailable), fence, at;
      }
      if !SameIndexBuild(fixed.value, input) || fixed.value.state !in {BUILDING, READY} {
        return Some(Conflict), fence, at;
      }
      var remote := wire.GetBuild();
      if remote.None? {
        return Some(Unavailable), fence, at;
      }
      BehaviorLength(wire.trace, wire.log);
      SameTakes(old(wire.world), wire.world, job.id, workerId, dc);
      var acquired;
      err, acquired, at := TakeUp(job.id, fixed.value, remote.value, dc);
      fence := acquired;
      if err.Some? {
        return;
      }
      ghost var taken, attached := wire.world, |wire.log|;
      FitsIsConfirmable(old(wire.world), wire.world, input, dc, run);
      BehaviorLength(wire.trace, wire.log);
      var accepted := AlreadyAccepted(remote.value, fixed.value);
      if !accepted && !SoundRun(run, fixed.value, acquired) {
        return Some(if run.RunFailed? then Unavailable else GraphOutput), fence, at;
      }
      var receipt := if accepted then AcceptedReceipt(fixed.value, acquired) else run.receipt;
      err := ConfirmBuilt(fixed.value, input, receipt, acquired);
      LaterGrant(taken, attached, fence);
      if SameState(taken, wire.world) {
        SameDeliverable(taken, wire.world);
      }
    }

    // Acquires a fence and puts the row under it.
    method TakeUp(id: string, fixed: Content, remote: RtwBuild, dc: Fence)
      returns (err: Option<Error>, fence: Fence, ghost at: nat)
      requires wire.Valid()
      requires remote.state != BUILDING ==> remote == wire.world.rtw.build
      modifies wire
      ensures wire.Valid() && Keeps(old(wire.world), wire.world) && wire.Quiet(old(wire.reports), old(wire.dispatches))
      ensures old(wire.trace) <= wire.trace
      ensures err.None? ==> GrantedTo(wire.world, fence.leaseEpoch, fence.attemptId)
      ensures err.None? ==>
                |old(wire.log)| < at < |wire.trace|
                && Attached(wire.trace[at].pg.row, id, workerId, Technical(dc), fence)
                && OpenedBy(wire.trace[at - 1].pg, wire.trace[at].pg)
      ensures forall now ::
                wire.Undisturbed(now) && SameRtw(remote, old(wire.world)) && fixed == old(wire.world).pg.content
                && TakesUp(old(wire.world), id, workerId, dc, now) ==>
                  err.None? && fence == FenceOf(remote, dc) && TakenUp(old(wire.world), wire.world, dc, now)
    {
      hide Attached, OpenedBy, TakesUp, Acquired, Acquirable, FenceOf, Attach, Deliverable, TakenUp, Behavior, Evolves;
      fence, at := dc, 0;
      ghost var w := wire.world;
      BehaviorLength(wire.trace, wire.log);
      TakesUpSays(w, id, workerId, dc);
      err, fence := AcquireFence(fixed, remote, dc);
      if err.Some? {
        return;
      }
      BehaviorLength(wire.trace, wire.log);
      ghost var g, n := wire.world, |wire.log|;
      var ok := wire.AttachIndexDispatch(id, workerId, Technical(dc), fence);
      TakenUpIsDeliverable(w, g, wire.world, id, workerId, dc);
      AcquiredIsCurrent(w, g, wire.world, dc);
      BehaviorLength(wire.trace, wire.log);
      LaterGrant(g, n, fence);
      if !ok {
        return Some(Unavailable), fence, at;
      }
      at := wire.served;
    }

    lemma {:induction false} LaterGrant(g: World, n: nat, f: Fence)
      requires wire.Valid() && n < |wire.trace| && wire.trace[n] == g
      ensures GrantedTo(g, f.leaseEpoch, f.attemptId) ==> GrantedTo(wire.world, f.leaseEpoch, f.attemptId)
    {
      LaterWorldsEvolve(wire.trace, wire.log, n, |wire.log|);
    }

    lemma {:induction false} FitsSays(w: World, input: IndexJobInput, dc: Fence, run: RunOutcome)
      ensures RunFits(w, input, dc, run) ==> SameIndexBuild(w.pg.content, input)
    {
    }

    // After taking up, what the run or the acceptance names can be confirmed.
    lemma {:induction false} FitsIsConfirmable(w: World, v: World, input: IndexJobInput, dc: Fence, run: RunOutcome)
      ensures forall now :: TakenUp(w, v, dc, now) ==> Deliverable(v, dc.buildId, now)
      ensures forall now :: TakenUp(w, v, dc, now) && RunFits(w, input, dc, run) ==>
                var c, f := w.pg.content, FenceOf(w.rtw.build, dc);
                if AlreadyAccepted(w.rtw.build, c)
                then Confirmable(v, c, input, AcceptedReceipt(c, f), f)
                else SoundRun(run, c, f) && Confirmable(v, c, input, run.receipt, f)
    {
    }

    // A new attempt of this job finds a READY build, whatever stage its row was deferred to,
    // and nothing stands in its way.
    predicate CanDeliver(w: World, job: Job, run: RunOutcome, now: int) {
      var (bad, input, dc) := DecodeIndexClaim(job, workerId, resourceProfile, now);
      bad.None? && now + 1000 < dc.expiresAt && TakesUp(w, job.id, workerId, dc, now) && RunFits(w, input, dc, run)
    }

    // One claimed job. It reports a failed attempt to DC or enters a dispatch, never both.
    method ProcessClaim(job: Job, run: RunOutcome, parentAlive: bool) returns (err: Option<Error>)
      requires wire.Valid()
      modifies wire
      ensures wire.Valid()
      ensures wire.reports - old(wire.reports) + wire.dispatches - old(wire.dispatches) <= 1
      ensures err.None? ==> wire.trace[wire.served].pg.delivered && wire.reports == old(wire.reports)
      ensures var bad := DecodeIndexClaim(job, workerId, resourceProfile, wire.clocks(old(wire.ticks))).0;
              if bad.Some? then err == bad && wire.Quiet(old(wire.reports), old(wire.dispatches))
              else if !parentAlive then wire.reports == old(wire.reports)
              else err.Some? && wire.dispatches == old(wire.dispatches) ==>
                     exists n: nat :: wire.ReportedBy(n, old(wire.reports), workerId, job, err.value)
      ensures forall now ::
                wire.Undisturbed(now) && CanDeliver(old(wire.world), job, run, now) ==>
                  err.None?
    {
      hide TakesUp, RunFits, Deliverable, GrantedTo, SoundIndex, CurrentBuild, Attached, OpenedBy;
      var now := wire.Now();
      var (bad, input, dc) := DecodeIndexClaim(job, workerId, resourceProfile, now);
      if bad.Some? {
        return bad;
      }
      now := wire.Now();
      err := Some(ExpiredLease);
      if now + 1000 < dc.expiresAt {
        ghost var fence, at;
        err, fence, at := BuildOnce(job, input, dc, run);
        if err.None? {
          var worked;
          worked, err := DispatchReadyOnce(input.buildId);
          return if err.None? && !worked then Some(Conflict) else err;
        }
      }
      if parentAlive {
        ReportFailure(job, err.value);
      }
    }

    // Reports while the job's lease has time left by this worker's clock.
    method ReportFailure(job: Job, cause: Error)
      requires wire.Valid()
      modifies wire
      ensures wire.Valid() && wire.dispatches == old(wire.dispatches)
      ensures wire.ReportedBy(old(wire.ticks), old(wire.reports), workerId, job, cause)
      ensures forall now ::
                wire.Undisturbed(now) && now + 250 < job.leaseExpiresAt
                && Failing(old(wire.world).jobs, job, workerId, now) ==>
                  job.id in wire.world.jobs
                  && AfterFailure(old(wire.world).jobs[job.id], wire.world.jobs[job.id], cause)
    {
      ReportTakesEffect(wire.world, job, workerId, cause);
      var now := wire.Now();
      if now + 250 < job.leaseExpiresAt {
        var lease := Lease(workerId, job.attemptId, job.leaseEpoch, job.cancelVersion);
        var _ := wire.CompleteJob(job.id, lease, FailureResult(cause));
      }
    }

    // Polls once: first any pending dispatch, and only if there is none a claimed job.
    method RunOnce(claimed: Option<Job>, run: RunOutcome, parentAlive: bool) returns (worked: bool, err: Option<Error>)
      requires wire.Valid()
      modifies wire
      ensures wire.Valid()
      ensures err.None? && worked ==> wire.trace[wire.served].pg.delivered
      ensures err.None? && !worked ==> claimed.None? && wire.Quiet(old(wire.reports), old(wire.dispatches) + 1)
    {
      worked, err := DispatchReadyOnce("");
      if worked || err.Some? || claimed.None? {
        return;
      }
      err := ProcessClaim(claimed.value, run, parentAlive);
      worked := true;
    }
  }
}
