// The Wiki compile worker, run against the world of module WikiWorld while everybody
// else moves too.
module WikiWorker {
  import opened Basics
  import opened WikiWorld

  datatype Turn = Turn(before: seq<Act>, at: int, answered: bool, after: seq<Act>)

  // The requests that ask an authority to change something.
  predicate Writes(m: Msg) {
    m.CompileClaim? || m.ObjectPut? || m.CompileAccept? || m.JobAck? || m.JobComplete?
  }

  // What one worker has asked for in this way, in order.
  function AskedBy(acts: seq<Act>, me: nat): seq<Msg> {
    if acts == [] then []
    else
      var a := acts[|acts| - 1];
      AskedBy(acts[..|acts| - 1], me) + (if a.Send? && a.worker == me && Writes(a.m) then [a.m] else [])
  }

  function Asks(m: Msg): seq<Msg> {
    if Writes(m) then [m] else []
  }

  // Moves of others: nobody moves in this worker's name.
  function Others(acts: seq<Act>, me: nat): seq<Act> {
    if acts == [] then []
    else
      var last := acts[|acts| - 1];
      Others(acts[..|acts| - 1], me) + (if last.Send? && last.worker == me then [] else [last])
  }

  // What happens during one call: others move, the request goes out, the authority serves it or
  // does not, and others move again.
  function Moves(turn: Turn, me: nat, m: Msg): seq<Act> {
    Others(turn.before, me) + [Send(me, m)] + (if turn.answered then [Act.Serve(m, turn.at)] else [])
        + Others(turn.after, me)
  }

  lemma {:induction false} MovesThenOthers(turn: Turn, me: nat, m: Msg)
    ensures Moves(turn, me, m) == Moves(turn.(after := []), me, m) + Others(turn.after, me)
  {
  }

  // Some service of m takes `before` to `after` with answer r.
  ghost predicate Answers(before: World, m: Msg, after: World, r: Reply) {
    exists t :: Exec(before, m, t) == (after, r)
  }

  lemma {:induction false} BehaviorLength(trace: seq<World>, log: seq<Act>)
    requires Behavior(trace, log)
    ensures |trace| == |log| + 1
  {
  }

  lemma {:induction false} SamePrefix(known: seq<World>, trace: seq<World>)
    requires known <= trace
    ensures forall i :: 0 <= i < |known| ==> trace[i] == known[i]
  {
  }

  // The authorities are in the same state; what is on the wire may differ.
  ghost predicate SameState(a: World, b: World) {
    a.rtw == b.rtw && a.job == b.job && a.store == b.store
  }

  // The request was served once, at this time, with this answer.
  ghost predicate Performed(before: World, m: Msg, at: int, after: World, r: Reply) {
    r == Exec(before, m, at).1 && SameState(after, Exec(before, m, at).0)
  }

  function WithCompile(w: World, c: Compile): World {
    w.(rtw := w.rtw.(compile := c))
  }

  function RevisionOf(w: World, id: string): Option<Revision> {
    if id in w.rtw.revisions then Some(w.rtw.revisions[id]) else None
  }

  // One worker's connection to RTW, DC and the store.
  class Wire {
    const me: nat
    const turns: nat -> Turn
    const clocks: nat -> int
    var calls: nat
    var ticks: nat
    var world: World
    ghost var trace: seq<World>  // the run so far
    ghost var log: seq<Act>      // its moves, by anybody
    ghost var asked: seq<Msg>    // what this worker has asked the authorities to change
    ghost var served: nat        // trace[served] follows the service of the latest answered call

    constructor (me: nat, start: World, turns: nat -> Turn, clocks: nat -> int)
      requires Initial(start)
      ensures Valid() && world == start && asked == []
      ensures this.me == me && this.turns == turns && calls == 0 && log == [] && this.clocks == clocks && ticks == 0
    {
      this.me, this.turns, this.clocks := me, turns, clocks;
      calls, ticks, world, trace, log := 0, 0, start, [start], [];
      asked, served := [], 0;
    }

    ghost predicate Valid()
      reads this
    {
      Behavior(trace, log) && world == trace[|log|] && served <= |log| && asked == AskedBy(log, me)
    }

    // Nobody else moves, every request is served at once and answered, and all clocks show `now`.
    ghost predicate Undisturbed(now: int) {
      forall n: nat :: turns(n) == Turn([], now, true, []) && clocks(n) == now
    }

    // One move, by this worker or by another.
    method Step(a: Act)
      requires Valid()
      modifies this`world, this`trace, this`log, this`asked
      ensures Valid() && world == Apply(old(world), a)
      ensures log == old(log) + [a] && trace == old(trace) + [world]
      ensures asked == old(asked) + (if a.Send? && a.worker == me then Asks(a.m) else [])
    {
      world := Apply(world, a);
      assert (log + [a])[..|log|] == log;
      trace, log := trace + [world], log + [a];
      asked := AskedBy(log, me);
    }

    // Others move.
    method Drift(acts: seq<Act>)
      requires Valid()
      modifies this`world, this`trace, this`log, this`asked
      ensures Valid() && old(trace) <= trace && asked == old(asked) && (acts == [] ==> world == old(world))
      ensures log == old(log) + Others(acts, me)
    {
      for i := 0 to |acts|
        invariant Valid() && old(trace) <= trace && asked == old(asked) && (acts == [] ==> world == old(world))
        invariant log == old(log) + Others(acts[..i], me)
      {
        assert acts[..i + 1][..i] == acts[..i];
        if !(acts[i].Send? && acts[i].worker == me) {
          Step(acts[i]);
        }
      }
      assert acts[..|acts|] == acts;
    }

    // Others move, then this worker puts a request on the wire.
    method Post(m: Msg, acts: seq<Act>)
      requires Valid() && Justified(world, m)
      modifies this`world, this`trace, this`log, this`asked
      ensures Valid() && m in world.sent && old(trace) < trace && asked == old(asked) + Asks(m)
      ensures log == old(log) + Others(acts, me) + [Send(me, m)]
      ensures acts == [] ==> SameState(world, old(world))
    {
      ghost var n := |log|;
      Drift(acts);
      assert trace[n] == old(world);
      LaterWorldsEvolve(trace, log, n, |log|);
      JustifiedStays(old(world), world, m);
      Step(Send(me, m));
    }

    // The authority serves a request that is on the wire.
    method Serve(m: Msg, t: int) returns (r: Reply)
      requires Valid() && m in world.sent
      modifies this`world, this`trace, this`log, this`asked, this`served
      ensures Valid() && old(trace) <= trace && |old(log)| < served && asked == old(asked)
      ensures Answers(trace[served - 1], m, trace[served], r) && (world, r) == Exec(old(world), m, t)
      ensures log == old(log) + [Act.Serve(m, t)] && served == |log|
    {
      r := Exec(world, m, t).1;
      Step(Act.Serve(m, t));
      served := |log|;
    }

    // A request goes out after others moved, and is perhaps served later.
    method Offer(m: Msg, turn: Turn) returns (r: Reply)
      requires Valid() && Justified(world, m)
      modifies this`world, this`trace, this`log, this`asked, this`served
      ensures Valid() && old(trace) <= trace && asked == old(asked) + Asks(m)
      ensures r != NoReply ==> |old(log)| < served && Answers(trace[served - 1], m, trace[served], r)
      ensures log == old(log) + Moves(turn.(after := []), me, m)
      ensures if turn.answered then (world, r) == Exec(trace[|log| - 1], m, turn.at) else r == NoReply
      ensures turn.before == [] && turn.answered ==> Performed(old(world), m, turn.at, world, r)
    {
      hide Behavior, Answers, Justified, AskedBy, Asks;
      BehaviorLength(trace, log);
      Post(m, turn.before);
      BehaviorLength(trace, log);
      r := NoReply;
      if turn.answered {
        r := Serve(m, turn.at);
      }
    }

    // One remote call. An answer means the authority served the request once, taking
    // trace[served - 1] to trace[served] during this call; no answer means nothing.
    method Exchange(m: Msg) returns (r: Reply)
      requires Valid() && Justified(world, m)
      modifies this
      ensures Valid() && old(trace) <= trace && asked == old(asked) + Asks(m)
      ensures r != NoReply ==> |old(log)| < served && Answers(trace[served - 1], m, trace[served], r)
      ensures calls == old(calls) + 1 && log == old(log) + Moves(turns(old(calls)), me, m)
      ensures turns(old(calls)).answered || r == NoReply
      ensures forall now :: Undisturbed(now) ==> Performed(old(world), m, now, world, r)
    {
      hide Behavior, Answers, AskedBy, Asks, Performed, Exec, Justified, Moves, Others;
      var turn := turns(calls);
      calls := calls + 1;
      MovesThenOthers(turn, me, m);
      r := Offer(m, turn);
      ghost var known := trace;
      BehaviorLength(trace, log);
      Drift(turn.after);
      SamePrefix(known, trace);
    }

    method Call(m: Msg) returns (r: Reply)
      requires Valid() && Justified(world, m)
      modifies this
      ensures Valid() && old(trace) <= trace && Evolves(old(world), world) && asked == old(asked) + Asks(m)
      ensures r != NoReply ==>
                && |old(log)| < served && Inv(trace[served - 1])
                && Evolves(old(world), trace[served - 1]) && Evolves(trace[served], world)
                && Answers(trace[served - 1], m, trace[served], r)
      ensures calls == old(calls) + 1 && log == old(log) + Moves(turns(old(calls)), me, m)
      ensures forall now :: Undisturbed(now) ==> Performed(old(world), m, now, world, r)
    {
      hide Performed;
      ghost var k := |log|;
      r := Exchange(m);
      assert trace[k] == old(world);
      LaterWorldsEvolve(trace, log, k, |log|);
      if r != NoReply {
        LaterWorldsEvolve(trace, log, k, served - 1);
        LaterWorldsEvolve(trace, log, served, |log|);
        EveryWorldIsSafe(trace, log, served - 1);
      }
    }

    // This worker reads its own clock.
    method Now() returns (t: int)
      requires Valid()
      modifies this`ticks
      ensures Valid() && t == clocks(old(ticks)) && ticks == old(ticks) + 1
      ensures forall now :: Undisturbed(now) ==> t == now
    {
      t := clocks(ticks);
      ticks := ticks + 1;
    }

    // ---------- the clients ----------

    method GetJob() returns (r: Option<Job>)
      requires Valid()
      modifies this
      ensures Valid() && old(trace) <= trace && Keeps(old(world), world) && asked == old(asked)
      ensures r.Some? ==> |old(log)| < served && r.value == trace[served].job
      ensures r.Some? ==> r.value.cancelVersion <= world.job.cancelVersion && (Over(r.value) ==> world.job == r.value)
      ensures forall now :: Undisturbed(now) ==> SameState(world, old(world)) && r == Some(old(world).job)
    {
      var reply := Call(JobGet);
      r := if reply.JobReply? then Some(reply.job) else None;
    }

    method AcknowledgeCancellation(lease: Lease) returns (r: Option<Job>)
      requires Valid() && lease.cancelVersion <= world.job.cancelVersion
      modifies this
      ensures Valid() && old(trace) <= trace && Keeps(old(world), world) && asked == old(asked) + [JobAck(lease)]
      ensures r.Some? ==> |old(log)| < served && r.value == trace[served].job && r.value.state == Cancelled
      ensures r.Some? && Over(r.value) ==> world.job == r.value
      ensures forall now :: Undisturbed(now) ==>
                r == Acknowledge(old(world).job, lease)
                && SameState(world, if r.Some? then old(world).(job := r.value) else old(world))
    {
      var reply := Call(JobAck(lease));
      r := if reply.JobReply? then Some(reply.job) else None;
    }

    method CompleteJob(lease: Lease, ref: ResultRef) returns (r: Option<Job>)
      requires Valid() && Justified(world, JobComplete(lease, ref))
      modifies this
      ensures Valid() && old(trace) <= trace && Keeps(old(world), world)
      ensures asked == old(asked) + [JobComplete(lease, ref)]
      ensures r.Some? && r.value.state == Succeeded ==> world.job == r.value
      ensures forall now :: Undisturbed(now) ==>
                r == Complete(old(world).job, lease, ref, now)
                && SameState(world, if r.Some? then old(world).(job := r.value) else old(world))
    {
      var reply := Call(JobComplete(lease, ref));
      r := if reply.JobReply? then Some(reply.job) else None;
    }

    method GetCompile() returns (r: Option<Compile>)
      requires Valid()
      modifies this
      ensures Valid() && old(trace) <= trace && Keeps(old(world), world) && asked == old(asked)
      ensures r.Some? ==> |old(log)| < served && r.value == trace[served].rtw.compile
      ensures r.Some? && r.value.state == Accepted ==> world.rtw.compile == r.value
      ensures forall now :: Undisturbed(now) ==> SameState(world, old(world)) && r == Some(old(world).rtw.compile)
    {
      var reply := Call(CompileGet);
      r := if reply.CompileReply? then Some(reply.compile) else None;
    }

    method ClaimCompile(q: ClaimReq) returns (r: Option<Compile>)
      requires Valid()
      modifies this
      ensures Valid() && old(trace) <= trace && Keeps(old(world), world) && asked == old(asked) + [CompileClaim(q)]
      ensures r.Some? ==> |old(log)| < served && r.value == trace[served].rtw.compile
      ensures forall now :: Undisturbed(now) ==>
                r == Claim(old(world).rtw.compile, q, now)
                && SameState(world, if r.Some? then WithCompile(old(world), r.value) else old(world))
    {
      var reply := Call(CompileClaim(q));
      r := if reply.CompileReply? then Some(reply.compile) else None;
    }

    method AcceptCompile(q: AcceptReq) returns (r: Option<Compile>)
      requires Valid() && Readable(world, q.contentHash) && q.objectKey == "sha256/" + q.contentHash
      modifies this
      ensures Valid() && old(trace) <= trace && Keeps(old(world), world)
      ensures asked == old(asked) + [CompileAccept(q)]
      ensures r.Some? && r.value.state == Accepted ==> world.rtw.compile == r.value
      ensures forall now :: Undisturbed(now) ==>
                r == Accept(old(world).rtw.compile, q, now) && world.job == old(world).job
                && world.store == old(world).store && world.rtw.revisions == old(world).rtw.revisions
                && world.rtw.compile == if r.Some? then r.value else old(world).rtw.compile
    {
      var reply := Call(CompileAccept(q));
      r := if reply.CompileReply? then Some(reply.compile) else None;
    }

    method GetRevision(id: string) returns (r: Option<Revision>)
      requires Valid()
      modifies this
      ensures Valid() && old(trace) <= trace && Keeps(old(world), world) && asked == old(asked)
      ensures r.Some? ==>
                |old(log)| < served && id in trace[served].rtw.revisions
                && r.value == trace[served].rtw.revisions[id]
      ensures forall now :: Undisturbed(now) ==>
                SameState(world, old(world)) && r == RevisionOf(old(world), id)
    {
      var reply := Call(RevisionGet(id));
      r := if reply.RevisionReply? then Some(reply.revision) else None;
    }

    method Put(bytes: string) returns (r: Option<string>)
      requires Valid()
      modifies this
      ensures Valid() && old(trace) <= trace && Keeps(old(world), world) && asked == old(asked) + [ObjectPut(bytes)]
      ensures forall now :: Undisturbed(now) ==>
                r == Some(old(world).store.sha(bytes))
                && SameState(world, old(world).(store := WikiWorld.Put(old(world).store, bytes)))
    {
      var reply := Call(ObjectPut(bytes));
      r := if reply.ObjectReply? then Some(reply.hash) else None;
    }

    // What the store answers under a hash, it holds under that hash from then on.
    method Get(hash: string) returns (r: Option<string>)
      requires Valid()
      modifies this
      ensures Valid() && old(trace) <= trace && Keeps(old(world), world) && asked == old(asked)
      ensures r.Some? ==> Readable(world, hash) && world.store.objects[hash] == r.value
      ensures forall now :: Undisturbed(now) ==>
                SameState(world, old(world))
                && r == if hash in old(world).store.objects then Some(old(world).store.objects[hash]) else None
    {
      var reply := Call(ObjectGet(hash));
      r := if reply.ObjectReply? then Some(reply.bytes) else None;
    }
  }

  // What the worker may carry from one call to the next.
  ghost predicate Keeps(a: World, b: World) {
    (a.rtw.compile.state == Accepted ==> b.rtw.compile == a.rtw.compile)
    && (Over(a.job) ==> b.job == a.job)
    && a.job.cancelVersion <= b.job.cancelVersion
    && a.store.objects.Keys <= b.store.objects.Keys
  }

  ghost predicate Readable(w: World, hash: string) {
    hash in w.store.objects
  }

  // ---------- what the worker compares ----------

  datatype Error =
    | JobContract | Source | FenceMoved | RunFailed | Object | AcceptPending | TechnicalPending
    | CancelConfirmed | CancelPending | Unavailable

  datatype Candidate = Candidate(
    compileId: string, generation: int, inputHash: string, attemptId: string, leaseEpoch: int, cancelVersion: int,
    markdown: string, contentHash: string, title: string, sourceRefs: seq<SourceRef>)

  datatype SourcePack = SourcePack(ids: seq<string>, sources: seq<Revision>)

  // What the native run hands back; nothing about it is trusted.
  datatype RunOutcome = RunOutcome(completed: bool, candidates: nat, candidate: Candidate)

  datatype Evidence = Evidence(job: Job, accepted: Compile, revision: Revision, candidate: Candidate)

  const RESULT_MEDIA_TYPE := "application/vnd.sea.wiki-compile-result+json"

  // The acknowledgement of a requested cancellation of this attempt.
  function AckOf(job: Job): Msg {
    JobAck(Lease(job.workerId, job.attemptId, job.leaseEpoch, job.cancelVersion + 1))
  }

  // The frozen ticket of a job this worker may run now.
  function Decode(job: Job, workerId: string, now: int): Option<Ticket> {
    if workerId == "" || job.id == "" || job.state != Running || job.workerId != workerId || job.attempt < 1
       || job.attemptId == "" || job.leaseEpoch < 1 || job.cancelVersion != 0
       || job.leaseExpiresAt <= now || job.request.deadline < job.leaseExpiresAt
    then None
    else job.request.ticket
  }

  predicate SameTicket(c: Compile, t: Ticket, job: Job) {
    c.ticket == t && c.cancelVersion == job.cancelVersion
  }

  predicate SameLease(c: Compile, job: Job, now: int) {
    c.leaseExpiresAt == job.leaseExpiresAt && now < c.leaseExpiresAt && c.state == Building
    && HoldsFence(c, job.attemptId, job.leaseEpoch, job.cancelVersion)
  }

  predicate SameAttempt(current: Job, claimed: Job) {
    current.id == claimed.id && current.inputHash == claimed.inputHash && current.attemptId == claimed.attemptId
    && current.workerId == claimed.workerId && current.attempt == claimed.attempt
    && current.leaseEpoch == claimed.leaseEpoch && current.request == claimed.request
  }

  predicate SameAccepted(c: Compile, t: Ticket, job: Job) {
    SameTicket(c, t, job) && c.state == Accepted && HoldsFence(c, job.attemptId, job.leaseEpoch, job.cancelVersion)
    && c.result.Some? && c.revisionId != ""
  }

  // RTW's record is the acceptance of this very attempt.
  ghost predicate AcceptedFor(w: World, job: Job) {
    w.rtw.compile.state == Accepted && HoldsFence(w.rtw.compile, job.attemptId, job.leaseEpoch, job.cancelVersion)
  }

  // DC holds success of this very attempt with this result.
  ghost predicate SucceededWith(w: World, job: Job, ref: ResultRef) {
    w.job.state == Succeeded && SameAttempt(w.job, job) && w.job.cancelVersion == job.cancelVersion
    && w.job.result == Some(ref)
  }

  // DC holds a cancellation of this very attempt, without a result.
  ghost predicate CancelledFor(w: World, job: Job) {
    w.job.state == Cancelled && SameAttempt(w.job, job) && w.job.result.None?
  }

  // After world `from` of the run, DC was still running this attempt for this worker.
  ghost predicate SawRunning(trace: seq<World>, from: nat, job: Job, workerId: string) {
    exists i :: from < i < |trace| && Runs(trace[i].job, job, workerId)
  }

  // After world `from` of the run, RTW built this ticket under no later lease.
  ghost predicate SawBuilding(trace: seq<World>, from: nat, job: Job, ticket: Ticket) {
    exists i ::
      from < i < |trace| && SameTicket(trace[i].rtw.compile, ticket, job) && trace[i].rtw.compile.state == Building
      && trace[i].rtw.compile.leaseEpoch <= job.leaseEpoch
  }

  // And at this time its lease had time left.
  ghost predicate SawRunningAt(trace: seq<World>, from: nat, job: Job, workerId: string, t: int) {
    exists i :: from < i < |trace| && Runs(trace[i].job, job, workerId) && t < trace[i].job.leaseExpiresAt
  }

  // After world `from` of the run, DC asked for the cancellation of this attempt, which at this
  // time had time left.
  ghost predicate SawCancelAsked(trace: seq<World>, from: nat, job: Job, t: int) {
    t < job.leaseExpiresAt
    && exists i :: from < i < |trace| && Cancelling(trace[i].job, job, job.cancelVersion + 1)
                   && trace[i].job.state == CancelRequested && t < trace[i].job.leaseExpiresAt
  }

  // DC asks for the cancellation of this attempt under this version, or confirmed it.
  predicate Cancelling(current: Job, job: Job, cancelVersion: int) {
    SameAttempt(current, job) && current.cancelVersion == cancelVersion
    && (current.state == CancelRequested || (current.state == Cancelled && current.result.None?))
  }

  // After world `from` of the run, DC was past that.
  ghost predicate SawMoved(trace: seq<World>, from: nat, job: Job, cancelVersion: int) {
    exists i :: from < i < |trace| && !Cancelling(trace[i].job, job, cancelVersion)
  }

  predicate Runs(current: Job, job: Job, workerId: string) {
    SameAttempt(current, job) && current.state == Running && current.workerId == workerId
    && current.cancelVersion == job.cancelVersion
  }

  // After world `from` of the run, RTW was still building this ticket under this attempt.
  ghost predicate SawOurs(trace: seq<World>, from: nat, job: Job, ticket: Ticket) {
    exists i :: from < i < |trace| && Ours(trace[i].rtw.compile, job, ticket)
  }

  predicate Ours(c: Compile, job: Job, ticket: Ticket) {
    SameTicket(c, ticket, job) && c.state == Building && HoldsFence(c, job.attemptId, job.leaseEpoch, job.cancelVersion)
    && c.leaseExpiresAt == job.leaseExpiresAt
  }

  lemma {:induction false} SawStays(a: seq<World>, b: seq<World>, from: nat, later: nat, job: Job, ticket: Ticket,
          workerId: string)
    requires a <= b && from <= later
    ensures SawRunning(a, later, job, workerId) ==> SawRunning(b, from, job, workerId)
    ensures SawOurs(a, later, job, ticket) ==> SawOurs(b, from, job, ticket)
  {
    forall i | 0 <= i < |a| ensures b[i] == a[i] {
    }
  }

  lemma {:induction false} RunningStays(a: seq<World>, b: seq<World>, from: nat, job: Job, workerId: string)
    requires a <= b && SawRunning(a, from, job, workerId)
    ensures SawRunning(b, from, job, workerId)
  {
    var i :| from < i < |a| && Runs(a[i].job, job, workerId);
    assert b[i] == a[i];
  }

  // A run that produced one candidate, for this ticket and this attempt.
  predicate RanFor(run: RunOutcome, job: Job, ticket: Ticket) {
    run.completed && run.candidates == 1 && run.candidate.compileId == ticket.compileId
    && run.candidate.attemptId == job.attemptId
    && run.candidate.leaseEpoch == job.leaseEpoch && run.candidate.cancelVersion == job.cancelVersion
  }

  // From world k of the run on the bytes were readable, and after it the attempt was seen to
  // be running and to hold the compile.
  ghost predicate MayAccept(trace: seq<World>, from: nat, k: nat, job: Job, hash: string) {
    from <= k < |trace| && Readable(trace[k], hash) && job.request.ticket.Some?
    && SawRunning(trace, k, job, job.workerId) && SawOurs(trace, k, job, job.request.ticket.value)
  }

  lemma {:induction false} MayAcceptStays(a: seq<World>, b: seq<World>, from: nat, k: nat, job: Job, hash: string)
    requires a <= b && MayAccept(a, from, k, job, hash)
    ensures MayAccept(b, from, k, job, hash)
  {
    SawStays(a, b, k, k, job, job.request.ticket.value, job.workerId);
  }

  // ---------- what one attempt may ask for ----------

  // The compile is claimed for the job's own attempt, lease and cancel version.
  predicate IsClaimFor(q: ClaimReq, job: Job, ticket: Ticket) {
    q.compileId == ticket.compileId && q.generation == ticket.generation && q.inputHash == ticket.inputHash
    && q.attemptId == job.attemptId && q.leaseEpoch == job.leaseEpoch && q.cancelVersion == job.cancelVersion
    && q.leaseExpiresAt == job.leaseExpiresAt
  }

  // RTW is asked to accept exactly this candidate, under the job's attempt and fence.
  predicate IsAcceptFor(q: AcceptReq, job: Job, c: Candidate) {
    q.compileId == c.compileId && q.generation == c.generation && q.inputHash == c.inputHash
    && q.attemptId == job.attemptId && q.leaseEpoch == job.leaseEpoch && q.cancelVersion == job.cancelVersion
    && q.objectKey == "sha256/" + c.contentHash && q.contentHash == c.contentHash && q.title == c.title
    && q.sourceRefs == c.sourceRefs
  }

  predicate Proper(m: Msg, job: Job, workerId: string, c: Candidate) {
    match m
    case CompileClaim(q) => job.request.ticket.Some? && IsClaimFor(q, job, job.request.ticket.value)
    case ObjectPut(bytes) => bytes == c.markdown
    case CompileAccept(q) => IsAcceptFor(q, job, c)
    case JobAck(_) => m == AckOf(job)
    case JobComplete(l, _) => l == Lease(workerId, job.attemptId, job.leaseEpoch, job.cancelVersion)
    case _ => false
  }

  // Claim, put, accept; a completion or an acknowledgement ends the attempt.
  function Rank(m: Msg): nat {
    match m
    case CompileClaim(_) => 1
    case ObjectPut(_) => 2
    case CompileAccept(_) => 3
    case _ => 4
  }

  // Everything asked for is proper and in order, each thing once; the acceptance alone may be
  // asked for twice, in the same words.
  predicate OneAttempt(asked: seq<Msg>, job: Job, workerId: string, c: Candidate) {
    (forall i :: 0 <= i < |asked| ==> Proper(asked[i], job, workerId, c))
    && (forall i, j :: 0 <= i < j < |asked| ==>
          Rank(asked[i]) < Rank(asked[j]) || (asked[i].CompileAccept? && asked[i] == asked[j] && j == i + 1))
  }

  ghost predicate AllBelow(asked: seq<Msg>, rank: nat) {
    forall i :: 0 <= i < |asked| ==> Rank(asked[i]) < rank
  }

  lemma {:induction false} OneMoreAsked(asked: seq<Msg>, m: Msg, job: Job, workerId: string, c: Candidate)
    requires OneAttempt(asked, job, workerId, c) && Proper(m, job, workerId, c) && AllBelow(asked, Rank(m))
    ensures OneAttempt(asked + [m], job, workerId, c) && AllBelow(asked + [m], Rank(m) + 1)
  {
  }

  lemma {:induction false} AcceptAsked(asked: seq<Msg>, m: Msg, job: Job, workerId: string, c: Candidate)
    requires OneAttempt(asked, job, workerId, c) && Proper(m, job, workerId, c) && m.CompileAccept?
             && AllBelow(asked, 3)
    ensures OneAttempt(asked + [m], job, workerId, c) && OneAttempt(asked + [m, m], job, workerId, c)
    ensures AllBelow(asked + [m], 4) && AllBelow(asked + [m, m], 4)
  {
  }

  lemma {:induction false} NothingAsked(job: Job, workerId: string, c: Candidate)
    ensures OneAttempt([], job, workerId, c)
  {
  }

  // ---------- what an undisturbed attempt finds ----------

  // DC asks for the cancellation of this very attempt, in time.
  predicate CancelAsked(current: Job, job: Job, workerId: string, now: int) {
    SameAttempt(current, job) && job.state == Running && job.workerId == workerId && 0 <= job.cancelVersion
    && current.state == CancelRequested && current.cancelVersion == job.cancelVersion + 1 && current.result.None?
    && now < job.leaseExpiresAt && now < current.leaseExpiresAt
  }

  // DC still runs this attempt, without a result.
  predicate StillRuns(current: Job, job: Job, workerId: string, now: int) {
    SameAttempt(current, job) && current.cancelVersion == job.cancelVersion && Decode(current, workerId, now).Some?
  }

  // RTW builds this ticket, and the attempt may claim it.
  predicate Claimable(c: Compile, job: Job, ticket: Ticket) {
    c.state == Building && SameTicket(c, ticket, job) && c.leaseEpoch <= job.leaseEpoch
    && (c.leaseEpoch == job.leaseEpoch ==> c.attemptId == job.attemptId)
  }

  lemma {:induction false} ClaimableSays(c: Compile, job: Job, ticket: Ticket)
    ensures Claimable(c, job, ticket) ==>
              !SameAccepted(c, ticket, job) && SameTicket(c, ticket, job) && c.state == Building
              && c.leaseEpoch <= job.leaseEpoch && c.cancelVersion == job.cancelVersion
  {
  }

  // RTW grants such a claim in time, and then holds the compile for the attempt.
  lemma {:induction false} ClaimGrants(c: Compile, q: ClaimReq, job: Job, ticket: Ticket)
    requires IsClaimFor(q, job, ticket)
    ensures forall now :: Claimable(c, job, ticket) && now < job.leaseExpiresAt ==>
              Claim(c, q, now) == Some(Claimed(c, job)) && SameTicket(Claimed(c, job), ticket, job)
              && SameLease(Claimed(c, job), job, now)
  {
    forall now | Claimable(c, job, ticket) && now < job.leaseExpiresAt
      ensures Claim(c, q, now) == Some(Claimed(c, job)) && SameTicket(Claimed(c, job), ticket, job)
              && SameLease(Claimed(c, job), job, now)
    {
    }
  }

  // RTW accepts the candidate for the attempt that holds the compile.
  lemma {:induction false} AcceptGrants(c: Compile, q: AcceptReq, job: Job, ticket: Ticket, candidate: Candidate,
          now: int)
    requires Claimable(c, job, ticket) && IsAcceptFor(q, job, candidate) && now < job.leaseExpiresAt
    requires candidate.compileId == ticket.compileId && candidate.generation == ticket.generation
             && candidate.inputHash == ticket.inputHash
    ensures Accept(Claimed(c, job), q, now) == Some(AcceptedFrom(Claimed(c, job), q))
    ensures SameAccepted(AcceptedFrom(Claimed(c, job), q), ticket, job)
  {
  }

  // RTW's record once the attempt holds the compile, and once the candidate is accepted.
  function Claimed(c: Compile, job: Job): Compile {
    c.(attemptId := job.attemptId, leaseEpoch := job.leaseEpoch, leaseExpiresAt := job.leaseExpiresAt)
  }

  function AcceptedFrom(c: Compile, q: AcceptReq): Compile {
    c.(state := Accepted, result := Some(q), revisionId := "wiki/" + q.contentHash, errorCode := "")
  }

  lemma {:induction false} MayAcceptSooner(trace: seq<World>, from: nat, later: nat, k: nat, job: Job, hash: string)
    requires from <= later
    ensures MayAccept(trace, later, k, job, hash) ==> MayAccept(trace, from, k, job, hash)
  {
  }

  class WikiCompileWorker {
    const wire: Wire
    const workerId: string
    const sha: string -> string
    const evidenceHolds: Evidence -> bool        // candidate, revision and source references agree
    const manifest: Evidence -> string           // canonical bytes of the result manifest
    const completionRef: Option<Evidence -> Option<ResultRef>>

    constructor (wire: Wire, workerId: string, sha: string -> string, evidenceHolds: Evidence -> bool,
                 manifest: Evidence -> string, completionRef: Option<Evidence -> Option<ResultRef>>)
      ensures this.wire == wire && this.workerId == workerId && this.sha == sha && this.evidenceHolds == evidenceHolds
              && this.manifest == manifest && this.completionRef == completionRef
    {
      this.wire, this.workerId, this.sha := wire, workerId, sha;
      this.evidenceHolds, this.manifest, this.completionRef := evidenceHolds, manifest, completionRef;
    }

    // Is this job still ours? A requested cancellation is acknowledged here, and then the
    // answer is no.
    method CurrentJob(job: Job) returns (err: Option<Error>)
      requires wire.Valid()
      modifies wire
      ensures wire.Valid() && Keeps(old(wire.world), wire.world)
      ensures wire.asked == old(wire.asked) || (wire.asked == old(wire.asked) + [AckOf(job)] && err.Some?)
      ensures old(wire.trace) <= wire.trace
      ensures err.None? ==> SawRunning(wire.trace, |old(wire.log)|, job, workerId)
      ensures err.None? ==>
                exists n: nat :: SawRunningAt(wire.trace, |old(wire.log)|, job, workerId, wire.clocks(n))
      ensures wire.asked != old(wire.asked) ==>
                job.state == Running && job.workerId == workerId && job.cancelVersion >= 0
                && exists n: nat :: SawCancelAsked(wire.trace, |old(wire.log)|, job, wire.clocks(n))
      ensures err == Some(CancelConfirmed) ==> CancelledFor(wire.world, job)
      ensures forall now :: wire.Undisturbed(now) && StillRuns(old(wire.world).job, job, workerId, now) ==>
                err.None? && SameState(wire.world, old(wire.world))
      ensures forall now :: wire.Undisturbed(now) && CancelAsked(old(wire.world).job, job, workerId, now) ==>
                err == Some(CancelConfirmed) && wire.asked == old(wire.asked) + [AckOf(job)]
    {
      hide Behavior, AskedBy, Exec;
      var current := wire.GetJob();
      BehaviorLength(wire.trace, wire.log);
      if current.None? || !SameAttempt(current.value, job) {
        return Some(FenceMoved);
      }
      if current.value.state == CancelRequested && job.state == Running && job.workerId == workerId
         && 0 <= job.cancelVersion && current.value.cancelVersion == job.cancelVersion + 1 {
        var now := wire.Now();
        if job.leaseExpiresAt <= now || current.value.leaseExpiresAt <= now {
          return Some(FenceMoved);
        }
        var e := AckCancellation(job, current.value.cancelVersion);
        return Some(e);
      }
      if current.value.cancelVersion != job.cancelVersion {
        return Some(FenceMoved);
      }
      var now := wire.Now();
      if Decode(current.value, workerId, now).None? {
        return Some(FenceMoved);
      }
      return None;
    }

    method AckCancellation(job: Job, cancelVersion: int) returns (err: Error)
      requires wire.Valid() && cancelVersion <= wire.world.job.cancelVersion
      modifies wire
      ensures wire.Valid() && Keeps(old(wire.world), wire.world)
      ensures wire.asked ==
                old(wire.asked) + [JobAck(Lease(job.workerId, job.attemptId, job.leaseEpoch, cancelVersion))]
      ensures err in {CancelConfirmed, CancelPending, FenceMoved} && old(wire.trace) <= wire.trace
      ensures err == CancelConfirmed ==> CancelledFor(wire.world, job) && wire.world.job.cancelVersion == cancelVersion
      ensures err == FenceMoved ==> SawMoved(wire.trace, |old(wire.log)|, job, cancelVersion)
      ensures forall now ::
                wire.Undisturbed(now) && cancelVersion == job.cancelVersion + 1
                && CancelAsked(old(wire.world).job, job, job.workerId, now) ==>
                  err == CancelConfirmed
    {
      var ack := wire.AcknowledgeCancellation(Lease(job.workerId, job.attemptId, job.leaseEpoch, cancelVersion));
      BehaviorLength(wire.trace, wire.log);
      if ack.Some? {
        return if SameAttempt(ack.value, job) && ack.value.cancelVersion == cancelVersion
          && ack.value.state == Cancelled
                  && ack.value.result.None? then CancelConfirmed else FenceMoved;
      }
      var current := wire.GetJob();
      BehaviorLength(wire.trace, wire.log);
      if current.None? {
        return CancelPending;
      }
      if !SameAttempt(current.value, job) || current.value.cancelVersion != cancelVersion {
        return FenceMoved;
      }
      if current.value.state == Cancelled && current.value.result.None? {
        return CancelConfirmed;
      }
      return if current.value.state == CancelRequested then CancelPending else FenceMoved;
    }

    method CurrentCompile(job: Job, ticket: Ticket) returns (ok: bool)
      requires wire.Valid()
      modifies wire
      ensures wire.Valid() && Keeps(old(wire.world), wire.world) && wire.asked == old(wire.asked)
      ensures old(wire.trace) <= wire.trace && (ok ==> SawOurs(wire.trace, |old(wire.log)|, job, ticket))
      ensures ok ==> exists n: nat :: wire.clocks(n) < job.leaseExpiresAt
      ensures forall now :: wire.Undisturbed(now) ==>
                SameState(wire.world, old(wire.world))
                && (ok <==> SameTicket(old(wire.world).rtw.compile, ticket, job)
                            && SameLease(old(wire.world).rtw.compile, job, now))
    {
      var remote := wire.GetCompile();
      var now := wire.Now();
      ok := remote.Some? && SameTicket(remote.value, ticket, job) && SameLease(remote.value, job, now);
    }

    predicate SourcesInPlace(w: World, ticket: Ticket) {
      forall i :: 0 <= i < |ticket.sourceIds| ==>
        ticket.sourceIds[i] in w.rtw.revisions
        && Fixed(w.rtw.revisions[ticket.sourceIds[i]], ticket.sourceIds[i], ticket.moduleId)
    }

    function PackFrom(w: World, ticket: Ticket): SourcePack
      requires SourcesInPlace(w, ticket)
    {
      SourcePack(ticket.sourceIds,
                 seq(|ticket.sourceIds|, i requires 0 <= i < |ticket.sourceIds| && SourcesInPlace(w, ticket) =>
                   w.rtw.revisions[ticket.sourceIds[i]]))
    }

    lemma {:induction false} PackIs(w: World, ticket: Ticket, sources: seq<Revision>)
      requires SourcesInPlace(w, ticket) && |sources| == |ticket.sourceIds|
      requires forall k :: 0 <= k < |sources| ==> Some(sources[k]) == RevisionOf(w, ticket.sourceIds[k])
      ensures sources == PackFrom(w, ticket).sources
    {
    }

    lemma {:induction false} PackSays(pack: SourcePack, ticket: Ticket)
      requires IsPackOf(pack, ticket)
      ensures pack.ids == ticket.sourceIds && |pack.sources| == |ticket.sourceIds|
      ensures forall i :: 0 <= i < |ticket.sourceIds| ==>
                var s := pack.sources[i];
                s.revisionId == ticket.sourceIds[i] && s.moduleId == ticket.moduleId && s.kind == "source"
                && !s.withdrawn && s.objectKey == "sha256/" + s.contentHash && sha(s.content) == s.contentHash
    {
    }

    // The frozen sources, in ticket order; each is a live source whose bytes have their hash.
    method LoadSources(ticket: Ticket) returns (r: Option<SourcePack>)
      requires wire.Valid()
      modifies wire
      ensures wire.Valid() && Keeps(old(wire.world), wire.world) && wire.asked == old(wire.asked)
      ensures old(wire.trace) <= wire.trace && (r.Some? ==> IsPackOf(r.value, ticket))
      ensures r.Some? ==>
                r.value.ids == ticket.sourceIds && |r.value.sources| == |ticket.sourceIds|
                && forall i :: 0 <= i < |ticket.sourceIds| ==>
                     var s := r.value.sources[i];
                     s.revisionId == ticket.sourceIds[i] && s.moduleId == ticket.moduleId && s.kind == "source"
                     && !s.withdrawn && s.objectKey == "sha256/" + s.contentHash && sha(s.content) == s.contentHash
      ensures forall now :: wire.Undisturbed(now) ==>
                SameState(wire.world, old(wire.world))
                && (SourcesInPlace(old(wire.world), ticket) ==> r == Some(PackFrom(old(wire.world), ticket)))
    {
      hide Behavior, AskedBy, Fixed;
      var sources: seq<Revision> := [];
      for i := 0 to |ticket.sourceIds|
        invariant wire.Valid() && Keeps(old(wire.world), wire.world) && wire.asked == old(wire.asked)
        invariant old(wire.trace) <= wire.trace && |sources| == i
        invariant forall now :: wire.Undisturbed(now) ==>
                    SameState(wire.world, old(wire.world))
                    && forall k :: 0 <= k < i ==> Some(sources[k]) == RevisionOf(old(wire.world), ticket.sourceIds[k])
        invariant forall k :: 0 <= k < i ==> Fixed(sources[k], ticket.sourceIds[k], ticket.moduleId)
      {
        var revision := wire.GetRevision(ticket.sourceIds[i]);
        if revision.None? || !Fixed(revision.value, ticket.sourceIds[i], ticket.moduleId) {
          return None;
        }
        sources := sources + [revision.value];
      }
      forall now | wire.Undisturbed(now) && SourcesInPlace(old(wire.world), ticket)
        ensures sources == PackFrom(old(wire.world), ticket).sources
      {
        PackIs(old(wire.world), ticket, sources);
      }
      PackSays(SourcePack(ticket.sourceIds, sources), ticket);
      return Some(SourcePack(ticket.sourceIds, sources));
    }

    predicate Fixed(r: Revision, id: string, moduleId: string) {
      r.revisionId == id && r.moduleId == moduleId && r.kind == "source" && !r.withdrawn
      && r.objectKey == "sha256/" + r.contentHash && sha(r.content) == r.contentHash
    }

    // The ticket's sources, in order, each live and with the bytes of its hash.
    predicate IsPackOf(pack: SourcePack, ticket: Ticket) {
      pack.ids == ticket.sourceIds && |pack.sources| == |ticket.sourceIds|
      && forall i :: 0 <= i < |pack.sources| ==> Fixed(pack.sources[i], ticket.sourceIds[i], ticket.moduleId)
    }

    // Asks RTW to accept. A lost reply is followed by one read and at most one replay of
    // the identical request; success means RTW's record is the acceptance of this attempt.
    method AcceptWithRecovery(job: Job, ticket: Ticket, request: AcceptReq) returns (r: Option<Compile>)
      requires wire.Valid() && Readable(wire.world, request.contentHash)
      requires request.objectKey == "sha256/" + request.contentHash
      modifies wire
      ensures wire.Valid() && Keeps(old(wire.world), wire.world) && old(wire.trace) <= wire.trace
      ensures wire.asked == old(wire.asked) + [CompileAccept(request)]
              || wire.asked == old(wire.asked) + [CompileAccept(request), CompileAccept(request)]
      ensures r.Some? ==> wire.world.rtw.compile == r.value && SameAccepted(r.value, ticket, job)
      ensures forall now ::
                wire.Undisturbed(now) && Accept(old(wire.world).rtw.compile, request, now).Some?
                && SameAccepted(Accept(old(wire.world).rtw.compile, request, now).value, ticket, job) ==>
                  r == Accept(old(wire.world).rtw.compile, request, now)
                  && wire.asked == old(wire.asked) + [CompileAccept(request)]
                  && wire.world.job == old(wire.world).job && wire.world.store == old(wire.world).store
                  && wire.world.rtw.revisions == old(wire.world).rtw.revisions
    {
      var accepted := wire.AcceptCompile(request);
      if accepted.Some? {
        return if SameAccepted(accepted.value, ticket, job) then accepted else None;
      }
      var current := wire.GetCompile();
      var now := wire.Now();
      if current.None? || !SameTicket(current.value, ticket, job)
         || !(SameAccepted(current.value, ticket, job) || SameLease(current.value, job, now)) {
        return None;
      }
      accepted := wire.AcceptCompile(request);
      return if accepted.Some? && SameAccepted(accepted.value, ticket, job) then accepted else None;
    }

    // After world `from` of the run, RTW still had this source as it was loaded.
    ghost predicate SawUnchanged(trace: seq<World>, from: nat, ticket: Ticket, id: string, source: Revision) {
      exists i ::
        from < i < |trace| && id in trace[i].rtw.revisions
        && Unchanged(trace[i].rtw.revisions[id], ticket, id, source)
    }

    predicate Unchanged(current: Revision, ticket: Ticket, id: string, source: Revision) {
      Fixed(current, id, ticket.moduleId) && current.contentHash == source.contentHash
      && current.content == source.content
    }

    ghost predicate SourcesUnchanged(trace: seq<World>, from: nat, ticket: Ticket, pack: SourcePack, n: nat)
      requires n <= |pack.ids| == |pack.sources| == |ticket.sourceIds|
    {
      forall k :: 0 <= k < n ==>
          pack.ids[k] == ticket.sourceIds[k] && SawUnchanged(trace, from, ticket, pack.ids[k], pack.sources[k])
    }

    lemma {:induction false} UnchangedStays(a: seq<World>, b: seq<World>, from: nat, later: nat, ticket: Ticket,
            pack: SourcePack, n: nat)
      requires n <= |pack.ids| == |pack.sources| == |ticket.sourceIds| && a <= b && from <= later
      requires SourcesUnchanged(a, later, ticket, pack, n)
      ensures SourcesUnchanged(b, from, ticket, pack, n)
    {
      hide Unchanged;
      forall i | 0 <= i < |a| ensures b[i] == a[i] {
      }
    }

    lemma {:induction false} NoneUnchanged(trace: seq<World>, from: nat, ticket: Ticket, pack: SourcePack)
      requires |pack.ids| == |pack.sources| == |ticket.sourceIds|
      ensures SourcesUnchanged(trace, from, ticket, pack, 0)
    {
    }

    lemma {:induction false} OneMoreUnchanged(a: seq<World>, b: seq<World>, from: nat, later: nat, ticket: Ticket,
            pack: SourcePack, k: nat)
      requires k < |pack.ids| == |pack.sources| == |ticket.sourceIds| && a <= b && from <= later
      requires SourcesUnchanged(a, from, ticket, pack, k)
      requires pack.ids[k] == ticket.sourceIds[k] && SawUnchanged(b, later, ticket, pack.ids[k], pack.sources[k])
      ensures SourcesUnchanged(b, from, ticket, pack, k + 1)
    {
      UnchangedStays(a, b, from, from, ticket, pack, k);
    }

    method CheckSource(ticket: Ticket, position: nat, id: string, source: Revision) returns (ok: bool)
      requires wire.Valid() && position < |ticket.sourceIds|
      modifies wire
      ensures wire.Valid() && Keeps(old(wire.world), wire.world) && wire.asked == old(wire.asked)
              && old(wire.trace) <= wire.trace
      ensures |old(wire.log)| <= |wire.log|
      ensures ok ==> id == ticket.sourceIds[position] && SawUnchanged(wire.trace, |old(wire.log)|, ticket, id, source)
      ensures forall now :: wire.Undisturbed(now) ==>
                SameState(wire.world, old(wire.world))
                && (id == ticket.sourceIds[position] && RevisionOf(old(wire.world), id) == Some(source)
                    && Fixed(source, id, ticket.moduleId) ==>
                      ok)
    {
      var current := wire.GetRevision(id);
      ok := current.Some? && id == ticket.sourceIds[position] && Unchanged(current.value, ticket, id, source);
    }

    // The sources again: none withdrawn or changed since the pack was loaded.
    method CheckSources(ticket: Ticket, pack: SourcePack) returns (ok: bool)
      requires wire.Valid() && |pack.ids| == |pack.sources| == |ticket.sourceIds|
      modifies wire
      ensures wire.Valid() && Keeps(old(wire.world), wire.world) && wire.asked == old(wire.asked)
              && old(wire.trace) <= wire.trace
      ensures ok ==> SourcesUnchanged(wire.trace, |old(wire.log)|, ticket, pack, |pack.ids|)
      ensures forall now :: wire.Undisturbed(now) ==>
                SameState(wire.world, old(wire.world))
                && (SourcesInPlace(old(wire.world), ticket) && pack == PackFrom(old(wire.world), ticket) ==> ok)
    {
      hide SawUnchanged, SourcesUnchanged, Behavior, Evolves;
      NoneUnchanged(wire.trace, |wire.log|, ticket, pack);
      for i := 0 to |pack.ids|
        invariant forall now :: wire.Undisturbed(now) ==> SameState(wire.world, old(wire.world))
        invariant wire.Valid() && Keeps(old(wire.world), wire.world) && wire.asked == old(wire.asked)
                  && old(wire.trace) <= wire.trace
        invariant |old(wire.log)| <= |wire.log| && SourcesUnchanged(wire.trace, |old(wire.log)|, ticket, pack, i)
      {
        ghost var seen, n := wire.trace, |wire.log|;
        var same := CheckSource(ticket, i, pack.ids[i], pack.sources[i]);
        if !same {
          return false;
        }
        OneMoreUnchanged(seen, wire.trace, |old(wire.log)|, n, ticket, pack, i);
      }
      return true;
    }

    // RTW and DC are as they were when RTW accepted the candidate for this attempt.
    ghost predicate AcceptedStands(w: World, job: Job, ticket: Ticket, accepted: Compile, now: int) {
      StillRuns(w.job, job, workerId, now) && w.job.result.None? && w.rtw.compile == accepted
      && SameAccepted(accepted, ticket, job) && accepted.errorCode == ""
      && accepted.revisionId in w.rtw.revisions
    }

    function EvidenceIn(w: World, candidate: Candidate): Evidence
      requires w.rtw.compile.revisionId in w.rtw.revisions
    {
      Evidence(w.job, w.rtw.compile, w.rtw.revisions[w.rtw.compile.revisionId], candidate)
    }

    // The job, the compile record and its revision, each read again.
    method ReadRecords(job: Job, ticket: Ticket, accepted: Compile, candidate: Candidate)
      returns (err: Option<Error>, evidence: Evidence)
      requires wire.Valid()
      modifies wire
      ensures wire.Valid() && Keeps(old(wire.world), wire.world) && wire.asked == old(wire.asked)
              && old(wire.trace) <= wire.trace
      ensures err.None? ==> AcceptedFor(wire.world, job) && evidence.accepted == wire.world.rtw.compile
                            && evidence.accepted.result == accepted.result && evidence.candidate == candidate
      ensures forall now ::
                wire.Undisturbed(now) && AcceptedStands(old(wire.world), job, ticket, accepted, now) ==>
                  err.None? && evidence == EvidenceIn(old(wire.world), candidate)
                  && SameState(wire.world, old(wire.world))
    {
      hide Behavior, AskedBy;
      evidence := Evidence(job, accepted, Revision("", "", "", false, "", "", ""), candidate);
      var current := wire.GetJob();
      if current.None? || !SameAttempt(current.value, job) || current.value.cancelVersion != job.cancelVersion
         || current.value.state != Running || current.value.result.Some? {
        return Some(FenceMoved), evidence;
      }
      var record := wire.GetCompile();
      if record.None? || !SameAccepted(record.value, ticket, current.value) || record.value.result != accepted.result
         || record.value.revisionId != accepted.revisionId || record.value.errorCode != "" {
        return Some(TechnicalPending), evidence;
      }
      var revision := wire.GetRevision(record.value.revisionId);
      if revision.None? {
        return Some(TechnicalPending), evidence;
      }
      return None, Evidence(current.value, record.value, revision.value, candidate);
    }

    // Reads everything technical success rests on again: our job is live and running, RTW
    // still records the same result, and no source was withdrawn or changed.
    method ReadAcceptedEvidence(job: Job, ticket: Ticket, accepted: Compile, candidate: Candidate, pack: SourcePack)
      returns (err: Option<Error>, evidence: Evidence)
      requires wire.Valid() && |pack.ids| == |pack.sources|
      modifies wire
      ensures wire.Valid() && Keeps(old(wire.world), wire.world)
      ensures wire.asked == old(wire.asked) || (wire.asked == old(wire.asked) + [AckOf(job)] && err.Some?)
      ensures old(wire.trace) <= wire.trace
      ensures err.None? ==> AcceptedFor(wire.world, job) && evidence.accepted.result == accepted.result
      ensures err.None? ==> |pack.ids| == |ticket.sourceIds|
                            && SourcesUnchanged(wire.trace, |old(wire.log)|, ticket, pack, |pack.ids|)
      ensures err.None? ==> SawRunning(wire.trace, |old(wire.log)|, job, workerId) && evidenceHolds(evidence)
                            && evidence.candidate == candidate && evidence.accepted == wire.world.rtw.compile
      ensures forall now ::
                wire.Undisturbed(now) && AcceptedStands(old(wire.world), job, ticket, accepted, now)
                && SourcesInPlace(old(wire.world), ticket) && pack == PackFrom(old(wire.world), ticket)
                && evidenceHolds(EvidenceIn(old(wire.world), candidate)) ==>
                  err.None? && evidence == EvidenceIn(old(wire.world), candidate)
                  && SameState(wire.world, old(wire.world))
    {
      hide SameTicket, Fixed, SawRunning, SourcesUnchanged, Behavior, AskedBy;
      BehaviorLength(wire.trace, wire.log);
      evidence := Evidence(job, accepted, Revision("", "", "", false, "", "", ""), candidate);
      err := CurrentJob(job);
      if err.Some? {
        return;
      }
      ghost var checked := wire.trace;
      var read;
      err, read := ReadRecords(job, ticket, accepted, candidate);
      if err.Some? {
        return;
      }
      if |pack.ids| != |ticket.sourceIds| {
        return Some(TechnicalPending), evidence;
      }
      ghost var n := |wire.log|;
      BehaviorLength(wire.trace, wire.log);
      var ok := CheckSources(ticket, pack);
      if !ok {
        return Some(TechnicalPending), evidence;
      }
      evidence := read;
      if !evidenceHolds(evidence) {
        return Some(TechnicalPending), evidence;
      }
      UnchangedStays(wire.trace, wire.trace, |old(wire.log)|, n, ticket, pack, |pack.ids|);
      SawStays(checked, wire.trace, |old(wire.log)|, |old(wire.log)|, job, ticket, workerId);
      return None, evidence;
    }

    // The store holds the manifest of this evidence, under this reference.
    ghost predicate Published(w: World, evidence: Evidence, ref: ResultRef) {
      var hash := sha(manifest(evidence));
      ref == ResultRef("sha256:" + hash, hash, RESULT_MEDIA_TYPE)
      && hash in w.store.objects && w.store.objects[hash] == manifest(evidence)
    }

    // Everything completion rests on is in place.
    ghost predicate Completable(w: World, job: Job, ticket: Ticket, accepted: Compile, candidate: Candidate,
            pack: SourcePack, ref: ResultRef, now: int)
    {
      AcceptedStands(w, job, ticket, accepted, now)
      && SourcesInPlace(w, ticket) && pack == PackFrom(w, ticket)
      && evidenceHolds(EvidenceIn(w, candidate)) && Published(w, EvidenceIn(w, candidate), ref)
    }

    // A result reference counts only if the store holds exactly the manifest of this evidence.
    method VerifyManifestRef(evidence: Evidence, ref: ResultRef) returns (ok: bool)
      requires wire.Valid()
      modifies wire
      ensures wire.Valid() && Keeps(old(wire.world), wire.world) && wire.asked == old(wire.asked)
      ensures old(wire.trace) <= wire.trace
      ensures ok ==> Readable(wire.world, ref.hash) && wire.world.store.objects[ref.hash] == manifest(evidence)
      ensures ok ==> ref == ResultRef("sha256:" + ref.hash, sha(manifest(evidence)), RESULT_MEDIA_TYPE)
      ensures forall now :: wire.Undisturbed(now) ==>
                SameState(wire.world, old(wire.world))
                && (evidenceHolds(evidence) && Published(old(wire.world), evidence, ref) ==> ok)
    {
      var canonical := manifest(evidence);
      var hash := sha(canonical);
      if !evidenceHolds(evidence) || ref.uri != "sha256:" + hash || ref.hash != hash
         || ref.mediaType != RESULT_MEDIA_TYPE {
        return false;
      }
      var readback := wire.Get(hash);
      ok := readback == Some(canonical);
    }

    // Evidence read afresh, and the reference against it.
    method VerifyAgain(job: Job, ticket: Ticket, accepted: Compile, candidate: Candidate, pack: SourcePack,
            ref: ResultRef)
      returns (err: Option<Error>)
      requires wire.Valid() && |pack.ids| == |pack.sources|
      modifies wire
      ensures wire.Valid() && Keeps(old(wire.world), wire.world) && old(wire.trace) <= wire.trace
      ensures wire.asked == old(wire.asked) || (wire.asked == old(wire.asked) + [AckOf(job)] && err.Some?)
      ensures err.None? ==> AcceptedFor(wire.world, job) && SawRunning(wire.trace, |old(wire.log)|, job, workerId)
                            && Readable(wire.world, ref.hash) && ref.uri == "sha256:" + ref.hash
      ensures forall now ::
                wire.Undisturbed(now)
                && Completable(old(wire.world), job, ticket, accepted, candidate, pack, ref, now) ==>
                  err.None? && SameState(wire.world, old(wire.world))
    {
      hide SawRunning, Runs, SourcesUnchanged;
      var evidence;
      err, evidence := ReadAcceptedEvidence(job, ticket, accepted, candidate, pack);
      if err.Some? {
        return;
      }
      ghost var seen := wire.trace;
      var ok := VerifyManifestRef(evidence, ref);
      if !ok {
        return Some(TechnicalPending);
      }
      SawStays(seen, wire.trace, |old(wire.log)|, |old(wire.log)|, job, ticket, workerId);
    }

    // The completion of this attempt.
    function CompletionOf(job: Job, ref: ResultRef): Msg {
      JobComplete(Lease(workerId, job.attemptId, job.leaseEpoch, job.cancelVersion), ref)
    }

    // Sends the completion; a lost reply is followed by one read.
    method CompleteOnce(job: Job, ref: ResultRef) returns (ok: bool)
      requires wire.Valid()
               && Justified(wire.world,
                            JobComplete(Lease(workerId, job.attemptId, job.leaseEpoch, job.cancelVersion), ref))
      modifies wire
      ensures wire.Valid() && Keeps(old(wire.world), wire.world) && old(wire.trace) <= wire.trace
      ensures wire.asked == old(wire.asked) + [CompletionOf(job, ref)]
      ensures ok ==> SucceededWith(wire.world, job, ref)
      ensures forall now ::
                wire.Undisturbed(now) && StillRuns(old(wire.world).job, job, workerId, now) ==> ok
    {
      hide Behavior, AskedBy;
      var receipt := wire.CompleteJob(Lease(workerId, job.attemptId, job.leaseEpoch, job.cancelVersion), ref);
      if receipt.None? {
        receipt := wire.GetJob();
      }
      ok := receipt.Some? && receipt.value.state == Succeeded && SameAttempt(receipt.value, job)
            && receipt.value.cancelVersion == job.cancelVersion && receipt.value.result == Some(ref);
    }

    // Completes the job in DC, on evidence verified twice.
    method CompleteTechnical(job: Job, ticket: Ticket, accepted: Compile, candidate: Candidate, pack: SourcePack)
      returns (err: Option<Error>, ref: ResultRef)
      requires wire.Valid() && |pack.ids| == |pack.sources|
      modifies wire
      ensures wire.Valid() && Keeps(old(wire.world), wire.world)
      ensures wire.asked == old(wire.asked)
              || (wire.asked == old(wire.asked) + [AckOf(job)] && err.Some?)
              || wire.asked == old(wire.asked) + [CompletionOf(job, ref)]
      ensures old(wire.trace) <= wire.trace
      ensures err.None? ==> wire.asked == old(wire.asked) + [CompletionOf(job, ref)]
      ensures err.None? ==> Readable(wire.world, ref.hash)
      ensures err.None? ==> SucceededWith(wire.world, job, ref) && AcceptedFor(wire.world, job)
      ensures completionRef.Some? ==>
                forall now, r ::
                  wire.Undisturbed(now) && Completable(old(wire.world), job, ticket, accepted, candidate, pack, r, now)
                  && completionRef.value(EvidenceIn(old(wire.world), candidate)) == Some(r) ==>
                    err.None? && ref == r
    {
      hide SawRunning, SameAttempt, IsPackOf, SourcesUnchanged, Behavior, AskedBy, SameAccepted;
      ref := ResultRef("", "", "");
      if completionRef.None? {
        return Some(TechnicalPending), ref;
      }
      var evidence;
      err, evidence := ReadAcceptedEvidence(job, ticket, accepted, candidate, pack);
      if err.Some? {
        return;
      }
      var produced := completionRef.value(evidence);
      if produced.None? {
        return Some(TechnicalPending), ref;
      }
      ref := produced.value;
      var ok := VerifyManifestRef(evidence, ref);
      if !ok {
        return Some(TechnicalPending), ref;
      }
      err := VerifyAgain(job, ticket, accepted, candidate, pack, ref);
      if err.Some? {
        return;
      }
      ok := CompleteOnce(job, ref);
      err := if ok then None else Some(TechnicalPending);
    }

    // The candidate names its bytes, and nothing else is stored under their hash.
    ghost predicate Storable(s: Store, candidate: Candidate) {
      s.sha(candidate.markdown) == candidate.contentHash
      && (candidate.contentHash in s.objects ==> s.objects[candidate.contentHash] == candidate.markdown)
    }

    // Puts the candidate bytes and reads them back byte for byte.
    method StoreCandidate(candidate: Candidate) returns (ok: bool)
      requires wire.Valid()
      modifies wire
      ensures wire.Valid() && Keeps(old(wire.world), wire.world)
      ensures old(wire.trace) <= wire.trace
      ensures ok ==> Readable(wire.world, candidate.contentHash)
                     && wire.world.store.objects[candidate.contentHash] == candidate.markdown
      ensures wire.asked == old(wire.asked) + [ObjectPut(candidate.markdown)]
      ensures forall now :: wire.Undisturbed(now) && Storable(old(wire.world).store, candidate) ==>
                ok && SameState(wire.world, old(wire.world).(store := Put(old(wire.world).store, candidate.markdown)))
    {
      var hash := wire.Put(candidate.markdown);
      if hash != Some(candidate.contentHash) {
        return false;
      }
      var readback := wire.Get(candidate.contentHash);
      ok := readback == Some(candidate.markdown);
    }

    // One more request was asked: the claim of the compile for this attempt.
    predicate ClaimAsked(before: seq<Msg>, after: seq<Msg>, job: Job, ticket: Ticket) {
      |after| == |before| + 1 && before == after[..|before|] && after[|before|].CompileClaim?
      && IsClaimFor(after[|before|].claim, job, ticket)
    }

    // Claims the compile for the attempt, if DC still runs it.
    method ClaimFor(job: Job, ticket: Ticket) returns (err: Option<Error>)
      requires wire.Valid()
      modifies wire
      ensures wire.Valid() && Keeps(old(wire.world), wire.world) && old(wire.trace) <= wire.trace
      ensures (err.Some? && (wire.asked == old(wire.asked) || wire.asked == old(wire.asked) + [AckOf(job)]))
              || ClaimAsked(old(wire.asked), wire.asked, job, ticket)
      ensures err.None? ==>
                SawRunning(wire.trace, |old(wire.log)|, job, workerId)
                && SawOurs(wire.trace, |old(wire.log)|, job, ticket)
      ensures forall now ::
                wire.Undisturbed(now) && StillRuns(old(wire.world).job, job, workerId, now)
                && Claimable(old(wire.world).rtw.compile, job, ticket) && now < job.leaseExpiresAt ==>
                  err.None? && SameState(wire.world,
                                         WithCompile(old(wire.world), Claimed(old(wire.world).rtw.compile, job)))
    {
      hide SameTicket, SameAttempt, SawRunning;
      err := CurrentJob(job);
      if err.Some? {
        return;
      }
      ghost var checked := wire.trace;
      var request := ClaimReq(ticket.compileId, ticket.generation, ticket.inputHash, job.attemptId, job.leaseEpoch,
                              job.cancelVersion, job.leaseExpiresAt);
      ClaimGrants(old(wire.world).rtw.compile, request, job, ticket);
      var claimed := wire.ClaimCompile(request);
      var now := wire.Now();
      if claimed.None? || !SameTicket(claimed.value, ticket, job) || !SameLease(claimed.value, job, now) {
        return Some(FenceMoved);
      }
      SawStays(checked, wire.trace, |old(wire.log)|, |old(wire.log)|, job, ticket, workerId);
    }

    // The attempt still runs, and RTW builds its ticket under no later lease.
    method OpenCompile(job: Job, ticket: Ticket) returns (err: Option<Error>, accepted: Option<Compile>)
      requires wire.Valid()
      modifies wire
      ensures wire.Valid() && Keeps(old(wire.world), wire.world) && old(wire.trace) <= wire.trace
      ensures wire.asked == old(wire.asked) || (wire.asked == old(wire.asked) + [AckOf(job)] && err.Some?)
      ensures accepted.Some? ==> err == Some(TechnicalPending) && AcceptedFor(wire.world, job)
      ensures err.None? ==>
                SawRunning(wire.trace, |old(wire.log)|, job, workerId)
                && SawBuilding(wire.trace, |old(wire.log)|, job, ticket)
      ensures forall now ::
                wire.Undisturbed(now) && StillRuns(old(wire.world).job, job, workerId, now)
                && Claimable(old(wire.world).rtw.compile, job, ticket) ==>
                  err.None? && SameState(wire.world, old(wire.world))
    {
      hide SameTicket, SameAttempt, SawRunning, SawRunningAt, SawCancelAsked, Behavior, AskedBy, Wire.Undisturbed;
      accepted := None;
      ClaimableSays(wire.world.rtw.compile, job, ticket);
      BehaviorLength(wire.trace, wire.log);
      err := CurrentJob(job);
      if err.Some? {
        return;
      }
      BehaviorLength(wire.trace, wire.log);
      ghost var seen := wire.trace;
      var remote := wire.GetCompile();
      BehaviorLength(wire.trace, wire.log);
      RunningStays(seen, wire.trace, |old(wire.log)|, job, workerId);
      if remote.None? {
        return Some(Unavailable), None;
      }
      if !SameTicket(remote.value, ticket, job) {
        return Some(Source), None;
      }
      if SameAccepted(remote.value, ticket, job) {
        return Some(TechnicalPending), remote;   // accepted before a restart: no local candidate proof
      }
      if remote.value.state != Building || job.leaseEpoch < remote.value.leaseEpoch
         || remote.value.cancelVersion != job.cancelVersion {
        return Some(FenceMoved), None;
      }
    }

    // Claims the compile for this job and checks what the native run produced.
    method RunCompile(job: Job, ticket: Ticket, run: RunOutcome)
      returns (err: Option<Error>, pack: SourcePack, accepted: Option<Compile>)
      requires wire.Valid()
      modifies wire
      ensures wire.Valid() && Keeps(old(wire.world), wire.world)
      ensures (err.Some? && (wire.asked == old(wire.asked) || wire.asked == old(wire.asked) + [AckOf(job)]))
              || ClaimAsked(old(wire.asked), wire.asked, job, ticket)
      ensures old(wire.trace) <= wire.trace && |pack.ids| == |pack.sources|
      ensures err.None? ==> RanFor(run, job, ticket) && IsPackOf(pack, ticket)
      ensures err.None? ==>
                SawRunning(wire.trace, |old(wire.log)|, job, workerId)
                && SawOurs(wire.trace, |old(wire.log)|, job, ticket)
      ensures accepted.Some? ==> err == Some(TechnicalPending) && AcceptedFor(wire.world, job)
      ensures forall now ::
                wire.Undisturbed(now) && StillRuns(old(wire.world).job, job, workerId, now)
                && Claimable(old(wire.world).rtw.compile, job, ticket) && now < job.leaseExpiresAt
                && SourcesInPlace(old(wire.world), ticket) && RanFor(run, job, ticket) ==>
                  err.None? && pack == PackFrom(old(wire.world), ticket)
                  && SameState(wire.world, WithCompile(old(wire.world), Claimed(old(wire.world).rtw.compile, job)))
    {
      hide SameTicket, SameAttempt, Fixed, SawRunning, SawRunningAt, SawCancelAsked, Behavior, AskedBy;
      hide Wire.Undisturbed, RevisionOf, StillRuns, Claimable;
      BehaviorLength(wire.trace, wire.log);
      pack, accepted := SourcePack([], []), None;
      err, accepted := OpenCompile(job, ticket);
      if err.Some? {
        return;
      }
      var loaded := LoadSources(ticket);
      if loaded.None? {
        return Some(Source), pack, None;
      }
      pack := loaded.value;
      BehaviorLength(wire.trace, wire.log);
      ghost var n := |wire.log|;
      err := ClaimFor(job, ticket);
      if err.Some? {
        return;
      }
      if !run.completed || run.candidates != 1 || run.candidate.compileId != ticket.compileId
         || run.candidate.attemptId != job.attemptId || run.candidate.leaseEpoch != job.leaseEpoch
         || run.candidate.cancelVersion != job.cancelVersion {
        return Some(RunFailed), pack, None;
      }
      SawStays(wire.trace, wire.trace, |old(wire.log)|, n, job, ticket, workerId);
      return None, pack, None;
    }

    // Still our job and still our lease on the compile?
    method StillOurs(job: Job, ticket: Ticket) returns (err: Option<Error>)
      requires wire.Valid()
      modifies wire
      ensures wire.Valid() && Keeps(old(wire.world), wire.world)
      ensures wire.asked == old(wire.asked) || (wire.asked == old(wire.asked) + [AckOf(job)] && err.Some?)
      ensures old(wire.trace) <= wire.trace
      ensures err.None? ==>
                SawRunning(wire.trace, |old(wire.log)|, job, workerId)
                && SawOurs(wire.trace, |old(wire.log)|, job, ticket)
      ensures forall now ::
                wire.Undisturbed(now) && StillRuns(old(wire.world).job, job, workerId, now)
                && SameTicket(old(wire.world).rtw.compile, ticket, job)
                && SameLease(old(wire.world).rtw.compile, job, now) ==>
                  err.None? && SameState(wire.world, old(wire.world))
    {
      err := CurrentJob(job);
      if err.None? {
        ghost var checked, n := wire.trace, |wire.log|;
        var ok := CurrentCompile(job, ticket);
        SawStays(checked, wire.trace, |old(wire.log)|, |old(wire.log)|, job, ticket, workerId);
        SawStays(wire.trace, wire.trace, |old(wire.log)|, n, job, ticket, workerId);
        err := if ok then None else Some(FenceMoved);
      }
    }

    // What RTW and the store hold once the candidate's bytes are stored, and once it is accepted.
    ghost function Prepared(w: World, job: Job, c: Candidate): World {
      WithCompile(w, Claimed(w.rtw.compile, job)).(store := Put(w.store, c.markdown))
    }

    ghost function Finished(w: World, job: Job, q: AcceptReq, c: Candidate): World {
      WithCompile(w, AcceptedFrom(Claimed(w.rtw.compile, job), q)).(store := Put(w.store, c.markdown))
    }

    // Nothing stands in the way of this attempt: DC runs it, RTW builds its ticket, its sources
    // and its candidate are sound, and what completion reads back will be there.
    ghost predicate CanFinish(w: World, job: Job, run: RunOutcome, ref: ResultRef, now: int) {
      Decode(job, workerId, now).Some? && StillRuns(w.job, job, workerId, now) && w.job.result.None?
      && var ticket, c := job.request.ticket.value, run.candidate;
         Claimable(w.rtw.compile, job, ticket) && SourcesInPlace(w, ticket) && RanFor(run, job, ticket)
         && c.generation == ticket.generation && c.inputHash == ticket.inputHash && Storable(w.store, c)
         && completionRef.Some?
         && forall q | IsAcceptFor(q, job, c) ::
              var done := Finished(w, job, q, c);
              done.rtw.compile.revisionId in w.rtw.revisions
              && evidenceHolds(EvidenceIn(done, c)) && Published(done, EvidenceIn(done, c), ref)
              && completionRef.value(EvidenceIn(done, c)) == Some(ref)
    }

    // Everything up to the acceptance: the compile claimed, the run checked, the candidate's
    // bytes stored and read back, and the attempt and its lease confirmed after that.
    method Prepare(job: Job, ticket: Ticket, run: RunOutcome)
      returns (err: Option<Error>, pack: SourcePack, ghost stored: nat, ghost mine: seq<Msg>)
      requires wire.Valid() && job.request.ticket == Some(ticket) && job.workerId == workerId
      modifies wire
      ensures wire.Valid() && Keeps(old(wire.world), wire.world) && old(wire.trace) <= wire.trace
      ensures |pack.ids| == |pack.sources|
      ensures wire.asked == old(wire.asked) + mine && OneAttempt(mine, job, workerId, run.candidate)
      ensures forall i :: 0 <= i < |mine| ==> !mine[i].CompileAccept?
      ensures err.None? ==> AllBelow(mine, 3)
      ensures err.None? ==>
                RanFor(run, job, ticket) && Readable(wire.world, run.candidate.contentHash)
                && MayAccept(wire.trace, |old(wire.log)|, stored, job, run.candidate.contentHash)
      ensures forall now, r :: wire.Undisturbed(now) && CanFinish(old(wire.world), job, run, r, now) ==>
                err.None? && pack == PackFrom(old(wire.world), ticket)
                && SameState(wire.world, Prepared(old(wire.world), job, run.candidate))
    {
      hide Behavior, AskedBy, SourcesUnchanged, SawRunning, SawOurs, MayAccept, IsPackOf, Fixed, CanFinish, OneAttempt;
      hide Claimable, StillRuns, SameTicket, SameLease, SameAttempt, RanFor, Storable, AllBelow;
      BehaviorLength(wire.trace, wire.log);
      CanFinishStarts(wire.world, job, run, ticket);
      ClaimStays(wire.world, job, run.candidate, ticket);
      var seen;
      err, pack, seen := RunCompile(job, ticket, run);
      mine, stored := wire.asked[|old(wire.asked)|..], 0;
      StartAsked(old(wire.asked), wire.asked, job, ticket, run.candidate);
      if err.Some? {
        return;
      }
      ghost var n, more := |wire.log|, [];
      BehaviorLength(wire.trace, wire.log);
      err, stored, more := StoreFor(job, ticket, run.candidate, mine);
      MayAcceptSooner(wire.trace, |old(wire.log)|, n, stored, job, run.candidate.contentHash);
      assert (old(wire.asked) + mine) + more == old(wire.asked) + (mine + more);
      mine := mine + more;
    }

    // The candidate stored and read back between two checks that attempt and lease are ours.
    method StoreFor(job: Job, ticket: Ticket, c: Candidate, ghost mine: seq<Msg>)
      returns (err: Option<Error>, ghost stored: nat, ghost more: seq<Msg>)
      requires wire.Valid() && job.request.ticket == Some(ticket) && job.workerId == workerId
      requires OneAttempt(mine, job, workerId, c) && AllBelow(mine, 2)
      modifies wire
      ensures wire.Valid() && Keeps(old(wire.world), wire.world) && old(wire.trace) <= wire.trace
      ensures wire.asked == old(wire.asked) + more && OneAttempt(mine + more, job, workerId, c)
      ensures forall i :: 0 <= i < |more| ==> !more[i].CompileAccept?
      ensures err.None? ==> AllBelow(mine + more, 3) && Readable(wire.world, c.contentHash)
      ensures err.None? ==> MayAccept(wire.trace, |old(wire.log)|, stored, job, c.contentHash)
      ensures forall now ::
                wire.Undisturbed(now) && StillRuns(old(wire.world).job, job, workerId, now)
                && SameTicket(old(wire.world).rtw.compile, ticket, job)
                && SameLease(old(wire.world).rtw.compile, job, now) && Storable(old(wire.world).store, c) ==>
                  err.None?
                  && SameState(wire.world, old(wire.world).(store := WikiWorld.Put(old(wire.world).store, c.markdown)))
    {
      hide Behavior, AskedBy, SawRunning, SawOurs, StillRuns, SameTicket, SameLease, SameAttempt, OneAttempt, AllBelow;
      BehaviorLength(wire.trace, wire.log);
      stored, more := 0, [];
      assert mine + [] == mine;
      EndAsked(mine, job, c);
      err := StillOurs(job, ticket);
      if err.Some? {
        more := if wire.asked == old(wire.asked) then [] else [AckOf(job)];
        return;
      }
      var put := ObjectPut(c.markdown);
      var ok := StoreCandidate(c);
      more := [put];
      PutAsked(mine, put, job, c);
      if !ok {
        return Some(Object), stored, more;
      }
      stored := |wire.log|;
      BehaviorLength(wire.trace, wire.log);
      err := StillOurs(job, ticket);
      if wire.asked != old(wire.asked) + [put] {
        assert (mine + [put]) + [AckOf(job)] == mine + [put, AckOf(job)];
        more := [put, AckOf(job)];
      }
    }

    lemma {:induction false} PutAsked(mine: seq<Msg>, put: Msg, job: Job, c: Candidate)
      requires OneAttempt(mine, job, workerId, c) && AllBelow(mine, 2) && put == ObjectPut(c.markdown)
      ensures OneAttempt(mine + [put], job, workerId, c) && AllBelow(mine + [put], 3)
      ensures OneAttempt((mine + [put]) + [AckOf(job)], job, workerId, c)
    {
      OneMoreAsked(mine, put, job, workerId, c);
      EndAsked(mine + [put], job, c);
    }

    // The first request of an attempt is the claim, or the acknowledgement that ends it.
    lemma {:induction false} StartAsked(before: seq<Msg>, after: seq<Msg>, job: Job, ticket: Ticket, c: Candidate)
      requires job.request.ticket == Some(ticket)
      requires after == before || after == before + [AckOf(job)] || ClaimAsked(before, after, job, ticket)
      ensures before <= after && OneAttempt(after[|before|..], job, workerId, c)
      ensures after == before || ClaimAsked(before, after, job, ticket) ==> AllBelow(after[|before|..], 2)
      ensures forall i :: |before| <= i < |after| ==> !after[i].CompileAccept?
    {
    }

    // An acknowledgement or a completion may follow whatever was asked before.
    lemma {:induction false} EndAsked(asked: seq<Msg>, job: Job, c: Candidate)
      requires OneAttempt(asked, job, workerId, c) && (AllBelow(asked, 2) || AllBelow(asked, 3) || AllBelow(asked, 4))
      ensures OneAttempt(asked + [AckOf(job)], job, workerId, c)
      ensures forall ref :: OneAttempt(asked + [CompletionOf(job, ref)], job, workerId, c)
    {
      OneMoreAsked(asked, AckOf(job), job, workerId, c);
      forall ref ensures OneAttempt(asked + [CompletionOf(job, ref)], job, workerId, c) {
        OneMoreAsked(asked, CompletionOf(job, ref), job, workerId, c);
      }
    }

    lemma {:induction false} CanFinishStarts(w: World, job: Job, run: RunOutcome, ticket: Ticket)
      requires job.request.ticket == Some(ticket)
      ensures forall now, r :: CanFinish(w, job, run, r, now) ==>
                StillRuns(w.job, job, workerId, now) && Claimable(w.rtw.compile, job, ticket)
                && now < job.leaseExpiresAt && SourcesInPlace(w, ticket) && RanFor(run, job, ticket)
                && Storable(w.store, run.candidate)
    {
      forall now, r | CanFinish(w, job, run, r, now)
        ensures StillRuns(w.job, job, workerId, now) && Claimable(w.rtw.compile, job, ticket)
                && now < job.leaseExpiresAt && SourcesInPlace(w, ticket) && RanFor(run, job, ticket)
                && Storable(w.store, run.candidate)
      {
      }
    }

    // With the compile claimed, and then with the bytes stored, the attempt still holds it.
    lemma {:induction false} ClaimStays(w: World, job: Job, c: Candidate, ticket: Ticket)
      ensures Claimable(w.rtw.compile, job, ticket) ==> SameTicket(Claimed(w.rtw.compile, job), ticket, job)
      ensures forall now :: Claimable(w.rtw.compile, job, ticket) && now < job.leaseExpiresAt ==>
                SameLease(Claimed(w.rtw.compile, job), job, now)
      ensures Prepared(w, job, c).rtw.compile == Claimed(w.rtw.compile, job) && Prepared(w, job, c).job == w.job
    {
      forall now | Claimable(w.rtw.compile, job, ticket) && now < job.leaseExpiresAt
        ensures SameLease(Claimed(w.rtw.compile, job), job, now)
      {
      }
    }

    lemma {:induction false} CanFinishDecodes(w: World, job: Job, run: RunOutcome)
      ensures forall now, r :: CanFinish(w, job, run, r, now) ==> Decode(job, workerId, now).Some?
    {
    }

    // What an undisturbed attempt finds when it asks for the acceptance.
    lemma {:induction false} CanFinishSays(w: World, ready: World, job: Job, run: RunOutcome, q: AcceptReq,
            pack: SourcePack)
      requires IsAcceptFor(q, job, run.candidate) && job.request.ticket.Some?
      ensures forall now, r ::
                CanFinish(w, job, run, r, now) && SameState(ready, Prepared(w, job, run.candidate))
                && pack == PackFrom(w, job.request.ticket.value) ==>
                  var ticket := job.request.ticket.value;
                  var accepted := Accept(ready.rtw.compile, q, now);
                  accepted.Some? && SameAccepted(accepted.value, ticket, job)
                  && forall done: World ::
                       done.job == ready.job && done.store == ready.store && done.rtw.revisions == ready.rtw.revisions
                       && done.rtw.compile == accepted.value ==>
                         Completable(done, job, ticket, accepted.value, run.candidate, pack, r, now)
                         && completionRef.Some? && completionRef.value(EvidenceIn(done, run.candidate)) == Some(r)
    {
      forall now, r | CanFinish(w, job, run, r, now) {
        AcceptGrants(w.rtw.compile, q, job, job.request.ticket.value, run.candidate, now);
      }
    }

    // One claimed job. It acknowledges a cancellation or sends a completion, never both and
    // neither twice; it asks RTW to accept only bytes the store gave back; and success means
    // that RTW accepted, and DC completed, this very attempt.
    method ProcessClaim(job: Job, run: RunOutcome) returns (err: Option<Error>, ref: ResultRef)
      requires wire.Valid()
      modifies wire
      ensures wire.Valid()
      ensures old(wire.asked) <= wire.asked
      ensures OneAttempt(wire.asked[|old(wire.asked)|..], job, workerId, run.candidate)
      ensures (exists i :: |old(wire.asked)| <= i < |wire.asked| && wire.asked[i].CompileAccept?) ==>
                job.request.ticket.Some? && RanFor(run, job, job.request.ticket.value)
                && exists k :: MayAccept(wire.trace, |old(wire.log)|, k, job, run.candidate.contentHash)
      ensures err.None? ==> SucceededWith(wire.world, job, ref) && AcceptedFor(wire.world, job)
      ensures err.None? ==>
                Readable(wire.world, ref.hash) && wire.asked != []
                && wire.asked[|wire.asked| - 1] == CompletionOf(job, ref)
      ensures forall now, r :: wire.Undisturbed(now) && CanFinish(old(wire.world), job, run, r, now) ==>
                err.None? && ref == r
    {
      hide Behavior, AskedBy, SourcesUnchanged, SawRunning, SawOurs, IsPackOf, Fixed, CanFinish, OneAttempt, AllBelow;
      hide Completable, Prepared, SourcesInPlace, SameAccepted, SameAttempt, Accept, MayAccept, SameTicket;
      hide Wire.Undisturbed, Keeps;
      BehaviorLength(wire.trace, wire.log);
      CanFinishDecodes(wire.world, job, run);
      ref := ResultRef("", "", "");
      var now := wire.Now();
      var ticket := Decode(job, workerId, now);
      if ticket.None? {
        NothingAsked(job, workerId, run.candidate);
        assert wire.asked[|old(wire.asked)|..] == [];
        return Some(JobContract), ref;
      }
      var pack;
      ghost var stored, mine;
      err, pack, stored, mine := Prepare(job, ticket.value, run);
      assert wire.asked[|old(wire.asked)|..] == mine;
      if err.Some? {
        return;
      }
      ghost var ready, checked := wire.world, wire.trace;
      var c := run.candidate;
      var request := AcceptReq(c.compileId, c.generation, c.inputHash, job.attemptId, job.leaseEpoch, job.cancelVersion,
                               "sha256/" + c.contentHash, c.contentHash, c.title, c.sourceRefs);
      CanFinishSays(old(wire.world), ready, job, run, request, pack);
      var accepted := AcceptWithRecovery(job, ticket.value, request);
      MayAcceptStays(checked, wire.trace, |old(wire.log)|, stored, job, c.contentHash);
      AcceptAsked(mine, CompileAccept(request), job, workerId, c);
      mine := mine + wire.asked[|old(wire.asked) + mine|..];
      assert wire.asked == old(wire.asked) + mine && wire.asked[|old(wire.asked)|..] == mine;
      if accepted.None? {
        return Some(AcceptPending), ref;
      }
      err, ref := CompleteTechnical(job, ticket.value, accepted.value, c, pack);
      MayAcceptStays(checked, wire.trace, |old(wire.log)|, stored, job, c.contentHash);
      EndAsked(mine, job, c);
      if wire.asked == old(wire.asked) + mine {
        assert wire.asked[|old(wire.asked)|..] == mine;
      } else if err.Some? && wire.asked == (old(wire.asked) + mine) + [AckOf(job)] {
        assert wire.asked[|old(wire.asked)|..] == mine + [AckOf(job)];
      } else {
        assert wire.asked[|old(wire.asked)|..] == mine + [CompletionOf(job, ref)];
      }
    }
  }
}
