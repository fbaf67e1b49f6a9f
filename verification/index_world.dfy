// The three authorities behind one content build, and the wire between them and
// any number of index workers.
//
//  - RTW owns the build: it grants build-wide fences and accepts one READY result.
//  - DC owns the technical jobs: it leases attempts and accepts one completion.
//  - PG owns the local build, the READY outbox and the leased dispatch row.
//
// A request that was ever put on the wire stays there. An authority may serve it
// never, once or many times, at once or long after its sender gave up or crashed.
// That one rule covers lost requests, lost replies, delayed commits, duplicated
// deliveries and crashes between any two calls. Every clock reading is arbitrary.
module IndexWorld {
  import opened Basics

  // ---------- RTW ----------

  datatype Ref = Ref(key: string, sha256: string)

  datatype Ident = Ident(buildId: string, moduleId: string, releaseId: string, generation: int, manifestHash: string)

  datatype BuildState = BUILDING | READY | FAILED | CANCELLED

  datatype RtwBuild = RtwBuild(
    ident: Ident, state: BuildState, cancelVersion: int, attemptId: string, leaseEpoch: int,
    leaseExpiresAt: int, indexRef: Ref, errorCode: string)

  datatype ClaimReq = ClaimReq(
    buildId: string, generation: int, manifestHash: string, cancelVersion: int,
    attemptId: string, leaseEpoch: int, leaseExpiresAt: int)

  datatype AcceptReq = AcceptReq(
    buildId: string, generation: int, manifestHash: string, attemptId: string, leaseEpoch: int,
    cancelVersion: int, index: Ref)

  // RTW grants a fence under its row lock. Epoch 0 asks RTW to choose: a new
  // attempt takes the next epoch, a replay by the current attempt keeps its epoch
  // and may only lengthen a lease that is still alive.
  function Grant(b: RtwBuild, q: ClaimReq, t: int): Option<RtwBuild> {
    var next := if q.attemptId == b.attemptId then b.leaseEpoch else b.leaseEpoch + 1;
    if b.state != BUILDING || q.buildId != b.ident.buildId || q.generation != b.ident.generation
       || q.manifestHash != b.ident.manifestHash || q.cancelVersion != b.cancelVersion
       || q.attemptId == "" || q.leaseExpiresAt <= t
       || (q.leaseEpoch != 0 && q.leaseEpoch != next)
       || (q.attemptId == b.attemptId && (b.leaseExpiresAt <= t || q.leaseExpiresAt < b.leaseExpiresAt))
    then None
    else Some(b.(attemptId := q.attemptId, leaseEpoch := next, leaseExpiresAt := q.leaseExpiresAt))
  }

  // RTW compares the whole fence atomically; a READY build only repeats its answer.
  function Accept(b: RtwBuild, q: AcceptReq, t: int): Option<RtwBuild> {
    if q.buildId != b.ident.buildId || q.generation != b.ident.generation || q.manifestHash != b.ident.manifestHash
       || q.attemptId != b.attemptId || q.leaseEpoch != b.leaseEpoch || q.cancelVersion != b.cancelVersion
    then None
    else if b.state == READY then (if b.indexRef == q.index then Some(b) else None)
    else if b.state != BUILDING || b.leaseExpiresAt <= t then None
    else Some(b.(state := READY, indexRef := q.index, errorCode := ""))
  }

  // ---------- DC ----------

  const INDEX_JOB_TYPE := "content.build.v1"
  const INDEX_MEDIA_TYPE := "application/vnd.sea.index-manifest+json"

  datatype JobState = Queued | Running | Succeeded | Failed | CancelRequested | Cancelled

  datatype ResultRef = ResultRef(uri: string, hash: string, mediaType: string)

  datatype JobResult = Success(ref: ResultRef) | Failure(errorCode: string, retryable: bool)

  datatype IndexJobInput = IndexJobInput(
    buildId: string, releaseId: string, generation: int, inputManifestHash: string, resume: map<string, Ref>)

  // `input` is the strictly decoded job input; None stands for input that does not decode.
  datatype Job = Job(
    id: string, jobType: string, resourceProfile: string, producer: string, operationId: string,
    inputHash: string, input: Option<IndexJobInput>, maxAttempts: int,
    state: JobState, attempt: int, attemptId: string, workerId: string, leaseEpoch: int,
    cancelVersion: int, leaseExpiresAt: int, result: Option<JobResult>)

  datatype Lease = Lease(workerId: string, attemptId: string, leaseEpoch: int, cancelVersion: int)

  function IndexResultRef(r: Ref): ResultRef {
    ResultRef("sha256:" + r.sha256, r.sha256, INDEX_MEDIA_TYPE)
  }

  predicate HoldsLease(j: Job, l: Lease) {
    j.workerId == l.workerId && j.attemptId == l.attemptId && j.leaseEpoch == l.leaseEpoch
    && j.cancelVersion == l.cancelVersion
  }

  // DC completes by compare-and-set on the running lease. A repeated identical
  // completion of a terminal job is answered again; nothing else is accepted.
  function Complete(j: Job, l: Lease, r: JobResult, t: int): Option<Job> {
    if !HoldsLease(j, l) then None
    else if j.state in {Succeeded, Failed} then
      (if j.result == Some(r) && j.state == (if r.Success? then Succeeded else Failed) then Some(j) else None)
    else if j.state != Running || j.leaseExpiresAt <= t then None
    else if r.Success? then Some(j.(state := Succeeded, result := Some(r)))
    else if r.retryable && j.attempt < j.maxAttempts then Some(j.(state := Queued))
    else Some(j.(state := Failed, result := Some(r)))
  }

  // ---------- PG ----------

  datatype Fence = Fence(buildId: string, attemptId: string, leaseEpoch: int, cancelVersion: int, expiresAt: int)

  datatype TechnicalFence = TechnicalFence(attemptId: string, leaseEpoch: int, cancelVersion: int, expiresAt: int)

  datatype Content = Content(
    ident: Ident, operationId: string, fence: Fence, state: BuildState,
    chunks: Option<Ref>, result: Option<Ref>, lanes: map<string, Ref>)

  datatype Stage = Pending | NeedsNewAttempt | Manual | Delivered

  datatype Row = Row(
    jobId: string, workerId: string, fence: Fence, dc: TechnicalFence, stage: Stage,
    claimEpoch: int, claimUntil: Option<int>, rtwAccepted: bool)

  datatype IndexDispatch = IndexDispatch(
    buildId: string, jobId: string, workerId: string, fence: Fence, dc: TechnicalFence, result: Ref,
    claimEpoch: int, claimUntil: int, rtwAccepted: bool)

  const CLAIM_LEASE_MS := 30000
  const RETRY_MS := 5000

  // ---------- the world and the wire ----------

  datatype Msg =
    | RtwGet
    | RtwClaim(claim: ClaimReq)
    | RtwAccept(accept: AcceptReq)
    | DcGet(jobId: string)
    | DcComplete(jobId: string, lease: Lease, result: JobResult)
    | PgGet
    | PgReady(fence: Fence, manifest: Ref, lanes: map<string, Ref>)
    | PgAttach(jobId: string, workerId: string, dc: TechnicalFence, fence: Fence)
    | PgClaim(buildId: string)
    | PgNote(dispatch: IndexDispatch)
    | PgDefer(dispatch: IndexDispatch, stage: Stage, code: string)
    | PgDeliver(dispatch: IndexDispatch)

  datatype Reply =
    | NoReply                 // any error: refused, timed out, or the reply was lost
    | BuildReply(build: RtwBuild)
    | JobReply(job: Job)
    | ContentReply(content: Content)
    | ClaimReply(dispatch: IndexDispatch)
    | NothingPending
    | Done

  // `grants[e - 1]` is the attempt to which RTW granted epoch e.
  datatype Rtw = Rtw(build: RtwBuild, grants: seq<string>)

  type Jobs = map<string, Job>

  datatype Pg = Pg(content: Content, row: Option<Row>, delivered: bool)

  datatype World = World(rtw: Rtw, jobs: Jobs, pg: Pg, sent: set<Msg>)

  // The compare-and-set of every dispatch row update.
  predicate RowHeld(row: Option<Row>, c: IndexDispatch, t: int) {
    row.Some? && row.value.claimEpoch == c.claimEpoch && row.value.jobId == c.jobId
    && row.value.fence.attemptId == c.fence.attemptId && row.value.fence.leaseEpoch == c.fence.leaseEpoch
    && row.value.fence.cancelVersion == c.fence.cancelVersion
    && row.value.dc.attemptId == c.dc.attemptId && row.value.dc.leaseEpoch == c.dc.leaseEpoch
    && row.value.dc.cancelVersion == c.dc.cancelVersion
    && row.value.stage == Pending && row.value.claimUntil.Some? && t < row.value.claimUntil.value
  }

  predicate ValidAttach(m: Msg, content: Content, t: int)
    requires m.PgAttach?
  {
    m.jobId != "" && m.workerId != "" && m.fence.buildId == content.ident.buildId
    && m.fence.attemptId != "" && m.fence.leaseEpoch > 0 && m.fence.cancelVersion >= 0
    && m.dc.attemptId != "" && m.dc.leaseEpoch > 0 && m.dc.cancelVersion >= 0
    && content.state in {BUILDING, READY}
    && t < m.dc.expiresAt && (content.state == READY || t < m.fence.expiresAt)
  }

  predicate StaleAttach(m: Msg, p: Row)
    requires m.PgAttach?
  {
    m.fence.leaseEpoch < p.fence.leaseEpoch || m.fence.cancelVersion != p.fence.cancelVersion
    || (m.fence.leaseEpoch == p.fence.leaseEpoch
        && (p.fence.attemptId != m.fence.attemptId || m.fence.expiresAt < p.fence.expiresAt))
    || (p.jobId == m.jobId && m.dc.leaseEpoch == p.dc.leaseEpoch && m.dc.attemptId == p.dc.attemptId
        && m.dc.expiresAt < p.dc.expiresAt)
    || (p.jobId == m.jobId
        && (m.dc.leaseEpoch < p.dc.leaseEpoch
            || (m.dc.leaseEpoch == p.dc.leaseEpoch
                && (p.dc.attemptId != m.dc.attemptId || p.dc.cancelVersion != m.dc.cancelVersion))))
  }

  function Attach(pg: Pg, m: Msg, t: int): (Pg, Reply)
    requires m.PgAttach?
  {
    if !ValidAttach(m, pg.content, t) then (pg, NoReply)
    else if pg.row.None? then
      (pg.(row := Some(Row(m.jobId, m.workerId, m.fence, m.dc, Pending, 0, None, false))), Done)
    else
      var p := pg.row.value;
      var newAttempt := p.jobId != m.jobId || p.workerId != m.workerId || p.dc.attemptId != m.dc.attemptId
                        || p.dc.leaseEpoch != m.dc.leaseEpoch || p.dc.cancelVersion != m.dc.cancelVersion;
      if StaleAttach(m, p) then (pg, NoReply)
      else if !newAttempt && p.dc.expiresAt == m.dc.expiresAt && p.fence.expiresAt == m.fence.expiresAt
              && m.fence.leaseEpoch == p.fence.leaseEpoch then (pg, Done)
      else if m.fence.leaseEpoch == p.fence.leaseEpoch && pg.content.state != READY && newAttempt then (pg, NoReply)
      else
        (Pg(pg.content,
            Some(Row(m.jobId, m.workerId, m.fence, m.dc, Pending, p.claimEpoch + 1, None,
                     p.rtwAccepted && m.fence.leaseEpoch == p.fence.leaseEpoch)),
            false), Done)
  }

  function ClaimRow(pg: Pg, buildId: string, t: int): (Pg, Reply) {
    if pg.row.None? || pg.row.value.stage != Pending || pg.content.state != READY || pg.content.result.None?
       || pg.delivered || (pg.row.value.claimUntil.Some? && t <= pg.row.value.claimUntil.value)
       || (buildId != "" && buildId != pg.content.ident.buildId)
    then (pg, NothingPending)
    else
      var p := pg.row.value.(claimEpoch := pg.row.value.claimEpoch + 1, claimUntil := Some(t + CLAIM_LEASE_MS));
      (pg.(row := Some(p)),
       ClaimReply(IndexDispatch(pg.content.ident.buildId, p.jobId, p.workerId, p.fence, p.dc, pg.content.result.value,
                                p.claimEpoch, t + CLAIM_LEASE_MS, p.rtwAccepted)))
  }

  function CommitReady(c: Content, fence: Fence, manifest: Ref, lanes: map<string, Ref>, t: int): Option<Content> {
    if c.state == READY then (if c.result == Some(manifest) then Some(c) else None)
    else if c.state != BUILDING || c.chunks.None? || |lanes| != 3 || fence.expiresAt <= t
            || fence.leaseEpoch < c.fence.leaseEpoch || fence.cancelVersion != c.fence.cancelVersion
            || (fence.leaseEpoch == c.fence.leaseEpoch && fence.attemptId != c.fence.attemptId)
    then None
    else Some(c.(state := READY, fence := fence, result := Some(manifest), lanes := lanes))
  }

  predicate ToRtw(m: Msg) {
    m.RtwGet? || m.RtwClaim? || m.RtwAccept?
  }

  predicate ToDc(m: Msg) {
    m.DcGet? || m.DcComplete?
  }

  function RtwServe(r: Rtw, m: Msg, t: int): (Rtw, Reply)
    requires ToRtw(m)
  {
    match m
    case RtwGet => (r, BuildReply(r.build))
    case RtwClaim(q) =>
      var g := Grant(r.build, q, t);
      if g.None? then (r, NoReply)
      else (Rtw(g.value, if g.value.leaseEpoch == r.build.leaseEpoch then r.grants else r.grants + [q.attemptId]),
            BuildReply(g.value))
    case RtwAccept(q) =>
      var b := Accept(r.build, q, t);
      if b.None? then (r, NoReply) else (r.(build := b.value), BuildReply(b.value))
  }

  function DcServe(jobs: Jobs, m: Msg, t: int): (Jobs, Reply)
    requires ToDc(m)
  {
    if m.jobId !in jobs then (jobs, NoReply)
    else if m.DcGet? then (jobs, JobReply(jobs[m.jobId]))
    else
      var j := Complete(jobs[m.jobId], m.lease, m.result, t);
      if j.None? then (jobs, NoReply) else (jobs[m.jobId := j.value], Done)
  }

  function PgServe(pg: Pg, m: Msg, t: int): (Pg, Reply)
    requires !ToRtw(m) && !ToDc(m)
  {
    match m
    case PgGet => (pg, ContentReply(pg.content))
    case PgReady(fence, manifest, lanes) =>
      var c := CommitReady(pg.content, fence, manifest, lanes, t);
      if c.None? then (pg, NoReply) else (pg.(content := c.value), Done)
    case PgAttach(_, _, _, _) => Attach(pg, m, t)
    case PgClaim(id) => ClaimRow(pg, id, t)
    case PgNote(c) =>
      if RowHeld(pg.row, c, t) then (pg.(row := Some(pg.row.value.(rtwAccepted := true))), Done) else (pg, NoReply)
    case PgDefer(c, stage, code) =>
      if stage == Delivered || code == "" || |code| > 80 || !RowHeld(pg.row, c, t) then (pg, NoReply)
      else (pg.(row := Some(pg.row.value.(stage := stage,
                                          claimUntil := if stage == Pending then Some(t + RETRY_MS) else None))), Done)
    case PgDeliver(c) =>
      if RowHeld(pg.row, c, t) && pg.row.value.rtwAccepted && !pg.delivered
      then (pg.(row := Some(pg.row.value.(stage := Delivered, claimUntil := None)), delivered := true), Done)
      else (pg, NoReply)
  }

  // What the authority owning `m` does with it at its own clock reading `t`.
  function Exec(w: World, m: Msg, t: int): (World, Reply) {
    if ToRtw(m) then
      var (r, y) := RtwServe(w.rtw, m, t); (w.(rtw := r), y)
    else if ToDc(m) then
      var (j, y) := DcServe(w.jobs, m, t); (w.(jobs := j), y)
    else
      var (p, y) := PgServe(w.pg, m, t); (w.(pg := p), y)
  }

  // ---------- what each request may rest on ----------

  predicate SameAcceptedIndex(remote: RtwBuild, fixed: Content, result: Ref) {
    remote.state == READY && remote.ident == fixed.ident && remote.cancelVersion == fixed.fence.cancelVersion
    && remote.indexRef == result && remote.errorCode == ""
  }

  predicate SameRTWIndexBuild(b: RtwBuild, fixed: Content, f: Fence) {
    b.state == BUILDING && b.ident == fixed.ident && b.attemptId == f.attemptId && b.leaseEpoch == f.leaseEpoch
    && b.cancelVersion == f.cancelVersion && b.leaseExpiresAt == f.expiresAt
  }

  // RTW has closed the build with exactly the locally committed result.
  predicate Accepted(b: RtwBuild, c: Content, r: Ref) {
    c.state == READY && c.result == Some(r) && SameAcceptedIndex(b, c, r)
  }

  predicate AcceptedAs(w: World, r: Ref) {
    Accepted(w.rtw.build, w.pg.content, r)
  }

  predicate SameIndexJobAttempt(j: Job, c: IndexDispatch) {
    j.id == c.jobId && j.workerId == c.workerId && j.attemptId == c.dc.attemptId && j.leaseEpoch == c.dc.leaseEpoch
    && j.cancelVersion == c.dc.cancelVersion && j.jobType == INDEX_JOB_TYPE
  }

  predicate SameIndexJobSuccess(j: Job, c: IndexDispatch) {
    SameIndexJobAttempt(j, c) && j.state == Succeeded && j.result == Some(Success(IndexResultRef(c.result)))
  }

  predicate SucceededFor(w: World, c: IndexDispatch) {
    c.jobId in w.jobs && SameIndexJobSuccess(w.jobs[c.jobId], c)
  }

  // The rule a worker must meet before it may put a request on the wire.
  predicate Justified(w: World, m: Msg) {
    match m
    case RtwAccept(q) => w.pg.content.state == READY && w.pg.content.result == Some(q.index)
    case DcComplete(_, _, Success(ref)) =>
      w.pg.content.result.Some? && ref == IndexResultRef(w.pg.content.result.value)
      && AcceptedAs(w, w.pg.content.result.value)
    case PgNote(c) => AcceptedAs(w, c.result)
    case PgDeliver(c) => AcceptedAs(w, c.result) && SucceededFor(w, c)
    case PgDefer(c, stage, code) =>
      stage == Manual && code == "rtw_terminal_mismatch" ==>
        w.rtw.build.state != BUILDING && w.pg.content.state == READY && !AcceptedAs(w, c.result)
    case _ => true
  }

  // ---------- runs ----------

  // Moves that no index worker makes.
  datatype Outside =
    | RtwCloses(state: BuildState, errorCode: string, cancelVersion: int)   // failed or cancelled by its owner
    | DcLeases(jobId: string, workerId: string, attemptId: string, expiresAt: int)
    | DcRequestsCancel(jobId: string)
    | DcStops(jobId: string, jobState: JobState)  // cancelled, or lease lost and requeued or failed
    | DcOther(job: Job)                           // any job of another type
    | DcSubmits(job: Job)
    | PgCancels(cancelVersion: int)

  datatype Act =
    | Send(worker: nat, m: Msg)
    | Serve(m: Msg, at: int)
    | Elsewhere(o: Outside)

  function RtwMove(r: Rtw, o: Outside): Rtw {
    if o.RtwCloses? && r.build.state == BUILDING && o.state in {FAILED, CANCELLED}
    then r.(build := r.build.(state := o.state, errorCode := o.errorCode, cancelVersion := o.cancelVersion))
    else r
  }

  function JobMove(j: Job, o: Outside): Job {
    match o
    case DcLeases(_, worker, attempt, expires) =>
      if j.state in {Queued, Running}
      then j.(state := Running, workerId := worker, attemptId := attempt, attempt := j.attempt + 1,
              leaseEpoch := j.leaseEpoch + 1, leaseExpiresAt := expires)
      else j
    case DcRequestsCancel(_) =>
      if j.state in {Queued, Running} then j.(state := CancelRequested, cancelVersion := j.cancelVersion + 1) else j
    case DcStops(_, state) =>
      if j.state in {Queued, Running, CancelRequested} && state in {Queued, Failed, Cancelled}
      then j.(state := state)
      else j
    case _ => j
  }

  function DcMove(jobs: Jobs, o: Outside): Jobs {
    match o
    case DcOther(job) =>
      if job.jobType != INDEX_JOB_TYPE && (job.id in jobs ==> jobs[job.id].jobType != INDEX_JOB_TYPE)
      then jobs[job.id := job] else jobs
    case DcSubmits(job) =>
      if job.id !in jobs && job.state == Queued && job.result.None? then jobs[job.id := job] else jobs
    case DcLeases(id, _, _, _) => if id in jobs then jobs[id := JobMove(jobs[id], o)] else jobs
    case DcRequestsCancel(id) => if id in jobs then jobs[id := JobMove(jobs[id], o)] else jobs
    case DcStops(id, _) => if id in jobs then jobs[id := JobMove(jobs[id], o)] else jobs
    case _ => jobs
  }

  function PgMove(pg: Pg, o: Outside): Pg {
    if o.PgCancels? && pg.content.state == BUILDING
    then pg.(content := pg.content.(state := CANCELLED, fence := pg.content.fence.(cancelVersion := o.cancelVersion)))
    else pg
  }

  function Apply(w: World, a: Act): World {
    match a
    case Send(_, m) => if Justified(w, m) then w.(sent := w.sent + {m}) else w
    case Serve(m, t) => if m in w.sent then Exec(w, m, t).0 else w
    case Elsewhere(o) => World(RtwMove(w.rtw, o), DcMove(w.jobs, o), PgMove(w.pg, o), w.sent)
  }

  // ---------- what every move keeps ----------

  ghost predicate RtwEvolves(a: Rtw, b: Rtw) {
    a.build.ident == b.build.ident && a.grants <= b.grants
    && (a.build.state != BUILDING ==> b == a)
    && (b.build.state == BUILDING ==> b.build.cancelVersion == a.build.cancelVersion)
  }

  ghost predicate DcEvolves(a: Jobs, b: Jobs) {
    forall id :: id in a ==>
      id in b && (a[id].jobType == INDEX_JOB_TYPE ==>
                    b[id].jobType == INDEX_JOB_TYPE && (a[id].state == Succeeded ==> b[id] == a[id]))
  }

  ghost predicate PgEvolves(a: Pg, b: Pg) {
    a.content.ident == b.content.ident && (a.content.state != BUILDING ==> b.content == a.content)
  }

  // From `a`, the authorities may get to `b`: closed builds, local READY results,
  // granted epochs and successful index jobs are never taken back.
  ghost predicate Evolves(a: World, b: World) {
    RtwEvolves(a.rtw, b.rtw) && DcEvolves(a.jobs, b.jobs) && PgEvolves(a.pg, b.pg) && a.sent <= b.sent
  }

  ghost predicate EpochsRecorded(r: Rtw) {
    |r.grants| == r.build.leaseEpoch && "" !in r.grants
    && r.build.attemptId == (if r.grants == [] then "" else r.grants[|r.grants| - 1])
  }

  ghost predicate JobsNamed(jobs: Jobs) {
    forall id :: id in jobs ==> jobs[id].id == id
  }

  ghost predicate ReadyIsWhole(c: Content) {
    c.state == READY ==> c.result.Some? && |c.lanes| == 3
  }

  // An index job that DC holds as successful names the manifest RTW closed the build with.
  ghost predicate JobIsBacked(w: World, j: Job) {
    j.jobType == INDEX_JOB_TYPE && j.state == Succeeded ==>
      w.pg.content.result.Some? && AcceptedAs(w, w.pg.content.result.value)
      && j.result == Some(Success(IndexResultRef(w.pg.content.result.value)))
  }

  ghost predicate SuccessIsBacked(w: World) {
    forall id :: id in w.jobs ==> JobIsBacked(w, w.jobs[id])
  }

  // A delivered row names an attempt that DC holds as successful.
  ghost predicate RowIsBacked(jobs: Jobs, row: Row) {
    row.stage == Delivered ==>
      row.jobId in jobs
      && var j := jobs[row.jobId];
         j.jobType == INDEX_JOB_TYPE && j.state == Succeeded && j.attemptId == row.dc.attemptId
         && j.leaseEpoch == row.dc.leaseEpoch && j.cancelVersion == row.dc.cancelVersion
  }

  ghost predicate DeliveryIsBacked(w: World) {
    (w.pg.delivered ==> w.pg.row.Some? && w.pg.row.value.stage == Delivered)
    && (w.pg.row.Some? ==> RowIsBacked(w.jobs, w.pg.row.value))
  }

  ghost predicate WireIsJustified(w: World) {
    forall m :: m in w.sent ==> Justified(w, m)
  }

  ghost predicate Inv(w: World) {
    EpochsRecorded(w.rtw) && JobsNamed(w.jobs) && ReadyIsWhole(w.pg.content)
    && SuccessIsBacked(w) && DeliveryIsBacked(w) && WireIsJustified(w)
  }

  // A build before any index work: nothing on the wire, no index job done, nothing delivered.
  ghost predicate Initial(w: World) {
    EpochsRecorded(w.rtw) && JobsNamed(w.jobs) && w.sent == {} && w.pg.row.None? && !w.pg.delivered
    && w.pg.content.state == BUILDING
    && forall id :: id in w.jobs && w.jobs[id].jobType == INDEX_JOB_TYPE ==> w.jobs[id].state != Succeeded
  }

  lemma {:induction false} EvolvesTransitive(a: World, b: World, c: World)
    requires Evolves(a, b) && Evolves(b, c)
    ensures Evolves(a, c)
  {
  }

  // What justified a request stays true.
  lemma {:induction false} JustifiedStays(a: World, b: World, m: Msg)
    requires Evolves(a, b) && Justified(a, m)
    ensures Justified(b, m)
  {
  }

  lemma {:induction false} RtwServeKeeps(r: Rtw, m: Msg, t: int)
    requires ToRtw(m) && EpochsRecorded(r)
    ensures EpochsRecorded(RtwServe(r, m, t).0) && RtwEvolves(r, RtwServe(r, m, t).0)
  {
  }

  lemma {:induction false} DcServeKeeps(jobs: Jobs, m: Msg, t: int)
    requires ToDc(m) && JobsNamed(jobs)
    ensures JobsNamed(DcServe(jobs, m, t).0) && DcEvolves(jobs, DcServe(jobs, m, t).0)
  {
  }

  lemma {:induction false} PgServeKeeps(pg: Pg, m: Msg, t: int)
    requires !ToRtw(m) && !ToDc(m) && ReadyIsWhole(pg.content)
    ensures ReadyIsWhole(PgServe(pg, m, t).0.content) && PgEvolves(pg, PgServe(pg, m, t).0)
  {
  }

  lemma {:induction false} ExecEvolves(w: World, m: Msg, t: int)
    requires Inv(w)
    ensures Evolves(w, Exec(w, m, t).0)
    ensures EpochsRecorded(Exec(w, m, t).0.rtw) && JobsNamed(Exec(w, m, t).0.jobs)
    ensures ReadyIsWhole(Exec(w, m, t).0.pg.content)
  {
    if ToRtw(m) {
      RtwServeKeeps(w.rtw, m, t);
    } else if ToDc(m) {
      DcServeKeeps(w.jobs, m, t);
    } else {
      PgServeKeeps(w.pg, m, t);
    }
  }

  // The backing of a success or a delivered row outlives every move that leaves that
  // job and that row alone.
  lemma {:induction false} BackingStays(a: World, b: World)
    requires Inv(a) && Evolves(a, b)
    ensures forall j | JobIsBacked(a, j) :: JobIsBacked(b, j)
    ensures forall r | RowIsBacked(a.jobs, r) :: RowIsBacked(b.jobs, r)
  {
  }

  lemma {:induction false} DcServeKeepsBacking(w: World, m: Msg, t: int)
    requires ToDc(m) && Inv(w) && Justified(w, m)
    ensures SuccessIsBacked(Exec(w, m, t).0)
  {
    ExecEvolves(w, m, t);
    BackingStays(w, Exec(w, m, t).0);
  }

  lemma {:induction false} PgServeKeepsBacking(w: World, m: Msg, t: int)
    requires !ToRtw(m) && !ToDc(m) && Inv(w) && Justified(w, m)
    ensures DeliveryIsBacked(Exec(w, m, t).0)
  {
  }

  lemma {:induction false} WireStaysJustified(a: World, b: World)
    requires WireIsJustified(a) && Evolves(a, b) && b.sent == a.sent
    ensures WireIsJustified(b)
  {
    forall x | x in b.sent ensures Justified(b, x) {
      JustifiedStays(a, b, x);
    }
  }

  // An authority that serves a justified request keeps the invariant.
  lemma {:induction false} ExecKeepsInv(w: World, m: Msg, t: int)
    requires Inv(w) && Justified(w, m)
    ensures Inv(Exec(w, m, t).0)
  {
    var w' := Exec(w, m, t).0;
    ExecEvolves(w, m, t);
    BackingStays(w, w');
    WireStaysJustified(w, w');
    if ToDc(m) {
      DcServeKeepsBacking(w, m, t);
    } else if !ToRtw(m) {
      PgServeKeepsBacking(w, m, t);
    }
  }

  lemma {:induction false} MoveEvolves(w: World, o: Outside)
    requires Inv(w)
    ensures var w' := Apply(w, Elsewhere(o));
            Evolves(w, w') && EpochsRecorded(w'.rtw) && JobsNamed(w'.jobs) && ReadyIsWhole(w'.pg.content)
  {
  }

  lemma {:induction false} MoveKeepsInv(w: World, o: Outside)
    requires Inv(w)
    ensures Inv(Apply(w, Elsewhere(o)))
  {
    var w' := Apply(w, Elsewhere(o));
    MoveEvolves(w, o);
    BackingStays(w, w');
    WireStaysJustified(w, w');
  }

  lemma {:induction false} SendKeepsInv(w: World, m: Msg)
    requires Inv(w) && Justified(w, m)
    ensures Inv(w.(sent := w.sent + {m})) && Evolves(w, w.(sent := w.sent + {m}))
  {
    var w' := w.(sent := w.sent + {m});
    BackingStays(w, w');
    forall x | x in w'.sent ensures Justified(w', x) {
      JustifiedStays(w, w', if x in w.sent then x else m);
    }
  }

  lemma {:induction false} ApplyKeepsInv(w: World, a: Act)
    requires Inv(w)
    ensures Inv(Apply(w, a)) && Evolves(w, Apply(w, a))
  {
    match a
    case Send(_, m) =>
      if Justified(w, m) {
        SendKeepsInv(w, m);
      }
    case Serve(m, t) =>
      if m in w.sent {
        ExecKeepsInv(w, m, t);
        ExecEvolves(w, m, t);
      }
    case Elsewhere(o) =>
      MoveKeepsInv(w, o);
      MoveEvolves(w, o);
  }

  // ---------- runs ----------

  // The worlds a run goes through: world i + 1 is world i after move i.
  ghost predicate Behavior(trace: seq<World>, acts: seq<Act>) {
    |trace| == |acts| + 1 && Initial(trace[0])
    && forall i {:trigger acts[i]} :: 0 <= i < |acts| ==> trace[i + 1] == Apply(trace[i], acts[i])
  }

  lemma {:induction false} EveryWorldIsSafe(trace: seq<World>, acts: seq<Act>, n: nat)
    requires Behavior(trace, acts) && n < |trace|
    ensures Inv(trace[n])
  {
    if n > 0 {
      EveryWorldIsSafe(trace, acts, n - 1);
      ApplyKeepsInv(trace[n - 1], acts[n - 1]);
    }
  }

  lemma {:induction false} NextWorldEvolves(trace: seq<World>, acts: seq<Act>, n: nat)
    requires Behavior(trace, acts) && n < |acts|
    ensures Evolves(trace[n], trace[n + 1])
  {
    EveryWorldIsSafe(trace, acts, n);
    ApplyKeepsInv(trace[n], acts[n]);
  }

  lemma {:induction false} LaterWorldsEvolve(trace: seq<World>, acts: seq<Act>, m: nat, n: nat)
    requires Behavior(trace, acts) && m <= n < |trace|
    ensures Evolves(trace[m], trace[n])
  {
    if m < n {
      LaterWorldsEvolve(trace, acts, m, n - 1);
      NextWorldEvolves(trace, acts, n - 1);
      EvolvesTransitive(trace[m], trace[n - 1], trace[n]);
    }
  }

  // ---------- main results over every run ----------

  // A dispatch is delivered only when RTW holds READY with exactly the committed
  // manifest and DC holds success, with that manifest, for the very attempt in the row.
  lemma {:induction false} DeliveredMeansBothReceipts(trace: seq<World>, acts: seq<Act>, n: nat)
    requires Behavior(trace, acts) && n < |trace|
    ensures var w := trace[n]; var b := w.rtw.build; var c := w.pg.content;
            w.pg.delivered ==>
              && w.pg.row.Some? && c.result.Some?
              && b.state == READY && b.ident == c.ident && b.indexRef == c.result.value && b.errorCode == ""
              && w.pg.row.value.jobId in w.jobs
              && var j := w.jobs[w.pg.row.value.jobId]; var dc := w.pg.row.value.dc;
                 && j.state == Succeeded && j.result == Some(Success(IndexResultRef(c.result.value)))
                 && j.attemptId == dc.attemptId && j.leaseEpoch == dc.leaseEpoch && j.cancelVersion == dc.cancelVersion
  {
    EveryWorldIsSafe(trace, acts, n);
  }

  // At no point of any run does DC hold an index success while RTW is not READY with that hash.
  lemma {:induction false} NoSuccessBeforeReady(trace: seq<World>, acts: seq<Act>, n: nat, id: string)
    requires Behavior(trace, acts) && n < |trace|
    ensures var w := trace[n];
            id in w.jobs && w.jobs[id].jobType == INDEX_JOB_TYPE && w.jobs[id].state == Succeeded ==>
              && w.rtw.build.state == READY
              && w.jobs[id].result == Some(Success(IndexResultRef(w.rtw.build.indexRef)))
  {
    EveryWorldIsSafe(trace, acts, n);
  }

  // Both receipts are never taken back by whatever happens later.
  lemma {:induction false} ReceiptsStay(trace: seq<World>, acts: seq<Act>, m: nat, n: nat, id: string)
    requires Behavior(trace, acts) && m <= n < |trace|
    requires id in trace[m].jobs && trace[m].jobs[id].jobType == INDEX_JOB_TYPE && trace[m].jobs[id].state == Succeeded
    ensures id in trace[n].jobs && trace[n].jobs[id] == trace[m].jobs[id]
    ensures trace[n].rtw == trace[m].rtw && trace[n].pg.content == trace[m].pg.content
  {
    EveryWorldIsSafe(trace, acts, m);
    LaterWorldsEvolve(trace, acts, m, n);
  }

  // ---------- fences ----------

  // RTW recorded epoch e for this attempt.
  ghost predicate GrantedTo(w: World, epoch: int, attempt: string) {
    1 <= epoch <= |w.rtw.grants| && w.rtw.grants[epoch - 1] == attempt
  }

  // The check by which a worker turns its earlier read, its DC lease and the build
  // returned by RTW (or read back after a lost reply) into a fence.
  function FenceFrom(prior: RtwBuild, dc: Fence, claimed: RtwBuild): Option<Fence> {
    var expected := if prior.attemptId == dc.attemptId then prior.leaseEpoch else prior.leaseEpoch + 1;
    if expected < 1 || claimed.ident != prior.ident || claimed.cancelVersion != prior.cancelVersion
       || claimed.state != BUILDING || claimed.attemptId != dc.attemptId || claimed.leaseEpoch != expected
       || claimed.leaseExpiresAt != dc.expiresAt
    then None
    else Some(Fence(prior.ident.buildId, claimed.attemptId, claimed.leaseEpoch, claimed.cancelVersion, dc.expiresAt))
  }

  lemma {:induction false} FenceIsTheGrant(prior: RtwBuild, claimed: World, dc: Fence)
    requires Inv(claimed) && FenceFrom(prior, dc, claimed.rtw.build).Some?
    ensures var f := FenceFrom(prior, dc, claimed.rtw.build).value;
            GrantedTo(claimed, f.leaseEpoch, f.attemptId) && f.attemptId == dc.attemptId
  {
  }

  // A grant that precedes a read of RTW never has a larger epoch than a fence taken from
  // that read, and has a smaller one unless it is the same attempt's.
  lemma {:induction false} FenceFollowsGrant(e: int, other: string, read: World, claimed: World, dc: Fence)
    requires Inv(read) && Inv(claimed) && Evolves(read, claimed) && GrantedTo(read, e, other)
    requires FenceFrom(read.rtw.build, dc, claimed.rtw.build).Some?
    ensures e <= FenceFrom(read.rtw.build, dc, claimed.rtw.build).value.leaseEpoch
    ensures dc.attemptId != other ==> e < FenceFrom(read.rtw.build, dc, claimed.rtw.build).value.leaseEpoch
  {
  }

  // Two fences of one run, each from a read of RTW at one point and the claimed build of a
  // later point: distinct attempts carry distinct epochs, and if the first was complete
  // before the second was read, epochs increase.
  lemma {:induction false} FencesAreDistinctAndIncrease(
    trace: seq<World>, acts: seq<Act>, r1: nat, c1: nat, dc1: Fence, r2: nat, c2: nat, dc2: Fence)
    requires Behavior(trace, acts) && r1 <= c1 <= c2 < |trace| && r2 <= c2
    requires FenceFrom(trace[r1].rtw.build, dc1, trace[c1].rtw.build).Some?
    requires FenceFrom(trace[r2].rtw.build, dc2, trace[c2].rtw.build).Some?
    ensures var f1 := FenceFrom(trace[r1].rtw.build, dc1, trace[c1].rtw.build).value;
            var f2 := FenceFrom(trace[r2].rtw.build, dc2, trace[c2].rtw.build).value;
            && f1.attemptId == dc1.attemptId && GrantedTo(trace[c1], f1.leaseEpoch, f1.attemptId)
            && f2.attemptId == dc2.attemptId && GrantedTo(trace[c2], f2.leaseEpoch, f2.attemptId)
            && (dc1.attemptId != dc2.attemptId ==> f1.leaseEpoch != f2.leaseEpoch)
            && (c1 <= r2 ==> f1.leaseEpoch <= f2.leaseEpoch)
            && (c1 <= r2 && dc1.attemptId != dc2.attemptId ==> f1.leaseEpoch < f2.leaseEpoch)
  {
    EveryWorldIsSafe(trace, acts, c1);
    EveryWorldIsSafe(trace, acts, c2);
    LaterWorldsEvolve(trace, acts, c1, c2);
    FenceIsTheGrant(trace[r1].rtw.build, trace[c1], dc1);
    FenceIsTheGrant(trace[r2].rtw.build, trace[c2], dc2);
    if c1 <= r2 {
      EveryWorldIsSafe(trace, acts, r2);
      LaterWorldsEvolve(trace, acts, c1, r2);
      LaterWorldsEvolve(trace, acts, r2, c2);
      FenceFollowsGrant(FenceFrom(trace[r1].rtw.build, dc1, trace[c1].rtw.build).value.leaseEpoch,
                        dc1.attemptId, trace[r2], trace[c2], dc2);
    }
  }

  // The reply to ClaimBuild is lost after RTW granted `g`. Reading the build back at any
  // later point gives exactly that grant or no fence at all.
  lemma {:induction false} LostGrantIsRecoveredOrRefused(read: World, before: World, t: int, later: World, dc: Fence,
          q: ClaimReq)
    requires Inv(read) && Inv(before) && Inv(later)
    requires Evolves(read, before)
    requires q.attemptId == dc.attemptId && q.leaseEpoch == 0 && q.leaseExpiresAt == dc.expiresAt
    requires Exec(before, RtwClaim(q), t).1.BuildReply? && Evolves(Exec(before, RtwClaim(q), t).0, later)
    ensures var g := Exec(before, RtwClaim(q), t).1.build;
            var f := FenceFrom(read.rtw.build, dc, later.rtw.build);
            f == None || f == Some(Fence(g.ident.buildId, g.attemptId, g.leaseEpoch, g.cancelVersion, g.leaseExpiresAt))
  {
    RtwServeKeeps(before.rtw, RtwClaim(q), t);
  }

  // ---------- recovery ----------

  // RTW holds the committed result, or is still building under the row's own fence.
  predicate RtwWilling(b: RtwBuild, c: Content, f: Fence) {
    c.result.Some?
    && (SameAcceptedIndex(b, c, c.result.value)
         || (SameRTWIndexBuild(b, c, f) && b.cancelVersion == c.fence.cancelVersion))
  }

  // DC holds success of the row's attempt with the committed result, or still runs that attempt.
  predicate DcWilling(jobs: Jobs, jobId: string, workerId: string, dc: TechnicalFence, r: Ref) {
    jobId in jobs
    && var j := jobs[jobId];
       j.id == jobId && j.workerId == workerId && j.attemptId == dc.attemptId && j.leaseEpoch == dc.leaseEpoch
       && j.cancelVersion == dc.cancelVersion && j.jobType == INDEX_JOB_TYPE
       && (j.state == Running || (j.state == Succeeded && j.result == Some(Success(IndexResultRef(r)))))
  }

  // A READY build whose pending dispatch neither authority stands in the way of.
  predicate Live(w: World) {
    w.pg.content.state == READY && |w.pg.content.lanes| == 3 && w.pg.row.Some? && w.pg.row.value.stage == Pending
    && !w.pg.delivered
    && RtwWilling(w.rtw.build, w.pg.content, w.pg.row.value.fence)
    && DcWilling(w.jobs, w.pg.row.value.jobId, w.pg.row.value.workerId, w.pg.row.value.dc, w.pg.content.result.value)
  }

  // What is still to be done can be done in time.
  predicate InTime(w: World, now: int)
    requires Live(w)
  {
    var row := w.pg.row.value;
    (w.rtw.build.state == BUILDING ==> now + 250 < row.fence.expiresAt)
    && (w.jobs[row.jobId].state == Running ==> now + 250 < row.dc.expiresAt && now < w.jobs[row.jobId].leaseExpiresAt)
  }

  // The request is of another technical attempt than the row, or under a later fence.
  predicate NewFor(m: Msg, p: Row)
    requires m.PgAttach?
  {
    m.jobId != p.jobId || m.workerId != p.workerId || m.dc.attemptId != p.dc.attemptId
    || m.dc.leaseEpoch != p.dc.leaseEpoch || m.dc.cancelVersion != p.dc.cancelVersion
    || p.fence.leaseEpoch < m.fence.leaseEpoch
  }

  // The row names this attempt, its leases, and the fence the build runs under.
  predicate Attached(row: Option<Row>, jobId: string, workerId: string, dc: TechnicalFence, fence: Fence) {
    row.Some? && row.value.jobId == jobId && row.value.workerId == workerId && row.value.dc == dc
    && row.value.fence.attemptId == fence.attemptId && row.value.fence.leaseEpoch == fence.leaseEpoch
    && row.value.fence.cancelVersion == fence.cancelVersion && row.value.fence.expiresAt == fence.expiresAt
  }

  // The row can be claimed again at once, and no claim of it taken before counts any more.
  predicate Reopened(a: Pg, b: Pg) {
    b.content == a.content && b.row.Some? && b.row.value.stage == Pending && b.row.value.claimUntil.None?
    && (a.row.Some? ==> !b.delivered && a.row.value.claimEpoch < b.row.value.claimEpoch)
    && (b.row.value.rtwAccepted ==>
          a.row.Some? && a.row.value.rtwAccepted && a.row.value.fence.leaseEpoch == b.row.value.fence.leaseEpoch)
  }

  // Whatever stage the row was deferred to, an attach that is answered puts it under the
  // request's own attempt and fence and reopens it; only repeating what the row already says
  // leaves it alone. An attach that is not answered changes nothing.
  lemma {:induction false} AttachReopens(pg: Pg, m: Msg, t: int)
    requires m.PgAttach?
    ensures var (next, reply) := Attach(pg, m, t);
            if reply == Done
            then Attached(next.row, m.jobId, m.workerId, m.dc, m.fence)
                 && (Reopened(pg, next) || (next == pg && !NewFor(m, pg.row.value)))
            else reply == NoReply && next == pg
  {
  }

  // A newer attempt under a fence that may follow the row's is not refused.
  lemma {:induction false} AttachAnswered(pg: Pg, m: Msg, t: int)
    requires m.PgAttach? && ValidAttach(m, pg.content, t) && pg.content.state == READY && pg.row.Some?
    requires var p := pg.row.value;
             (p.jobId == m.jobId ==> p.dc.leaseEpoch < m.dc.leaseEpoch)
             && p.fence.cancelVersion == m.fence.cancelVersion
             && (p.fence.leaseEpoch < m.fence.leaseEpoch
                 || (p.fence.leaseEpoch == m.fence.leaseEpoch && p.fence.attemptId == m.fence.attemptId
                     && p.fence.expiresAt <= m.fence.expiresAt))
    ensures Attach(pg, m, t).1 == Done && Reopened(pg, Attach(pg, m, t).0)
  {
  }

  // A claim taken before the row was reopened can no longer change it.
  lemma {:induction false} ReopenedShutsOut(a: Pg, b: Pg, c: IndexDispatch, t: int)
    requires Reopened(a, b) && a.row.Some? && RowHeld(a.row, c, t)
    ensures forall now :: !RowHeld(b.row, c, now)
  {
  }

  // No earlier claim of the row stands.
  predicate Unclaimed(row: Row, now: int) {
    row.claimUntil.None? || row.claimUntil.value < now
  }

  // A dispatch that one undisturbed pass can deliver.
  predicate Deliverable(w: World, buildId: string, now: int) {
    Live(w) && InTime(w, now) && Unclaimed(w.pg.row.value, now)
    && (buildId == "" || buildId == w.pg.content.ident.buildId)
  }

  // This claim leases the live row.
  predicate ClaimedBy(w: World, c: IndexDispatch, now: int) {
    Live(w) && InTime(w, now) && RowHeld(w.pg.row, c, now)
    && c.buildId == w.pg.content.ident.buildId && c.result == w.pg.content.result.value
    && c.workerId == w.pg.row.value.workerId && c.fence == w.pg.row.value.fence && c.dc == w.pg.row.value.dc
    && (c.rtwAccepted ==> w.pg.row.value.rtwAccepted)
  }

  // The build's result and whose attempt its row names.
  predicate Names(w: World, row: Row, result: Ref) {
    w.pg.content.state == READY && w.pg.content.result == Some(result) && w.pg.row.Some?
    && w.pg.row.value.jobId == row.jobId && w.pg.row.value.workerId == row.workerId
    && w.pg.row.value.fence == row.fence && w.pg.row.value.dc == row.dc
  }

  // The requests a dispatch of this row makes.
  predicate OfDispatch(row: Row, result: Ref, m: Msg) {
    match m
    case RtwAccept(q) => q.attemptId == row.fence.attemptId && q.leaseEpoch == row.fence.leaseEpoch && q.index == result
    case DcComplete(id, lease, r) => id == row.jobId && r == Success(IndexResultRef(result))
    case PgDefer(_, stage, _) => stage == Pending
    case RtwClaim(_) => false
    case PgAttach(_, _, _, _) => false
    case _ => true
  }

  lemma {:induction false} DispatchStaysLive(w: World, row: Row, result: Ref, m: Msg, t: int)
    requires Inv(w) && Justified(w, m) && Names(w, row, result) && OfDispatch(row, result, m)
             && (Live(w) || w.pg.delivered)
    ensures var w' := Exec(w, m, t).0; Names(w', row, result) && (Live(w') || w'.pg.delivered)
  {
  }

  // A dispatch interrupted anywhere stays live: whichever of its requests are served, in any
  // order, at any time and any number of times, the row is live or delivered afterwards.
  lemma {:induction false} InterruptedDispatchStaysLive(trace: seq<World>, acts: seq<Act>, m: nat, n: nat)
    requires Behavior(trace, acts) && m <= n < |trace| && Live(trace[m])
    requires forall i :: m <= i < n ==>
               acts[i].Send?
               || (acts[i].Serve? && OfDispatch(trace[m].pg.row.value, trace[m].pg.content.result.value, acts[i].m))
    ensures Names(trace[n], trace[m].pg.row.value, trace[m].pg.content.result.value)
            && (Live(trace[n]) || trace[n].pg.delivered)
  {
    if m < n {
      InterruptedDispatchStaysLive(trace, acts, m, n - 1);
      EveryWorldIsSafe(trace, acts, n - 1);
      var w, a := trace[n - 1], acts[n - 1];
      if a.Serve? && a.m in w.sent {
        DispatchStaysLive(w, trace[m].pg.row.value, trace[m].pg.content.result.value, a.m, a.at);
      }
    }
  }

  // A live, unclaimed row can be claimed by its build's ID or by none.
  lemma {:induction false} LiveRowIsClaimed(w: World, buildId: string, now: int)
    requires Deliverable(w, buildId, now)
    ensures var (pg, reply) := ClaimRow(w.pg, buildId, now);
            reply.ClaimReply? && ClaimedBy(w.(pg := pg), reply.dispatch, now)
  {
  }
}
