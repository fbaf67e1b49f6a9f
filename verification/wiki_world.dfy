// One Wiki compile: RTW owns the compile and its revisions, DC owns the technical job,
// and a content-addressed store holds bytes. As in module IndexWorld, a request that
// was ever put on the wire may be served never, once or many times, at any later
// moment, and every clock reading is arbitrary.
module WikiWorld {
  import opened Basics

  datatype Ticket = Ticket(
    compileId: string, moduleId: string, pageId: string, baseRevisionId: string, sourceIds: seq<string>,
    guidanceHash: string, inputHash: string, generation: int)

  datatype CompileState = Building | Accepted | Closed

  datatype SourceRef = SourceRef(revisionId: string, locator: string)

  datatype AcceptReq = AcceptReq(
    compileId: string, generation: int, inputHash: string, attemptId: string, leaseEpoch: int, cancelVersion: int,
    objectKey: string, contentHash: string, title: string, sourceRefs: seq<SourceRef>)

  datatype ClaimReq = ClaimReq(
    compileId: string, generation: int, inputHash: string, attemptId: string, leaseEpoch: int, cancelVersion: int,
    leaseExpiresAt: int)

  // `result` stands for RTW's result hash: the digest of the one accepted request.
  datatype Compile = Compile(
    ticket: Ticket, state: CompileState, attemptId: string, leaseEpoch: int, cancelVersion: int, leaseExpiresAt: int,
    result: Option<AcceptReq>, revisionId: string, errorCode: string)

  datatype Revision = Revision(
    revisionId: string, moduleId: string, kind: string, withdrawn: bool, contentHash: string, objectKey: string,
    content: string)

  datatype JobState = Queued | Running | CancelRequested | Cancelled | Succeeded | Failed

  // A submitted request; `ticket` is None when its input is not a frozen ticket.
  datatype Request = Request(operationId: string, deadline: int, ticket: Option<Ticket>)

  datatype ResultRef = ResultRef(uri: string, hash: string, mediaType: string)

  datatype Job = Job(
    id: string, inputHash: string, request: Request, state: JobState, attempt: int, attemptId: string,
    workerId: string, leaseEpoch: int, cancelVersion: int, leaseExpiresAt: int, result: Option<ResultRef>)

  datatype Lease = Lease(workerId: string, attemptId: string, leaseEpoch: int, cancelVersion: int)

  datatype Rtw = Rtw(compile: Compile, commits: seq<AcceptReq>, revisions: map<string, Revision>)

  // `sha` is the digest under which the store keeps bytes.
  datatype Store = Store(sha: string -> string, objects: map<string, string>)

  datatype Msg =
    | CompileGet
    | CompileClaim(claim: ClaimReq)
    | CompileAccept(accept: AcceptReq)
    | RevisionGet(revisionId: string)
    | JobGet
    | JobAck(lease: Lease)
    | JobComplete(lease: Lease, ref: ResultRef)
    | ObjectPut(bytes: string)
    | ObjectGet(hash: string)

  datatype Reply =
    | NoReply
    | CompileReply(compile: Compile)
    | RevisionReply(revision: Revision)
    | JobReply(job: Job)
    | ObjectReply(hash: string, bytes: string)

  datatype World = World(rtw: Rtw, job: Job, store: Store, sent: set<Msg>)

  // ---------- the authorities ----------

  predicate HoldsFence(c: Compile, attemptId: string, leaseEpoch: int, cancelVersion: int) {
    c.attemptId == attemptId && c.leaseEpoch == leaseEpoch && c.cancelVersion == cancelVersion
  }

  function Claim(c: Compile, q: ClaimReq, t: int): Option<Compile> {
    if c.state != Building || q.compileId != c.ticket.compileId || q.generation != c.ticket.generation
       || q.inputHash != c.ticket.inputHash || q.cancelVersion != c.cancelVersion || q.leaseExpiresAt <= t
       || q.leaseEpoch < c.leaseEpoch || (q.leaseEpoch == c.leaseEpoch && q.attemptId != c.attemptId)
    then None
    else Some(c.(attemptId := q.attemptId, leaseEpoch := q.leaseEpoch, leaseExpiresAt := q.leaseExpiresAt))
  }

  // RTW accepts under the current fence and lease; an accepted compile only repeats
  // its answer to the identical request.
  function Accept(c: Compile, q: AcceptReq, t: int): Option<Compile> {
    if q.compileId != c.ticket.compileId || q.generation != c.ticket.generation || q.inputHash != c.ticket.inputHash
       || !HoldsFence(c, q.attemptId, q.leaseEpoch, q.cancelVersion)
    then None
    else if c.state == Accepted then (if c.result == Some(q) then Some(c) else None)
    else if c.state != Building || c.leaseExpiresAt <= t then None
    else Some(c.(state := Accepted, result := Some(q), revisionId := "wiki/" + q.contentHash, errorCode := ""))
  }

  predicate HoldsLease(j: Job, l: Lease) {
    j.workerId == l.workerId && j.attemptId == l.attemptId && j.leaseEpoch == l.leaseEpoch
    && j.cancelVersion == l.cancelVersion
  }

  function Acknowledge(j: Job, l: Lease): Option<Job> {
    if HoldsLease(j, l) && j.state in {CancelRequested, Cancelled} then Some(j.(state := Cancelled)) else None
  }

  function Complete(j: Job, l: Lease, ref: ResultRef, t: int): Option<Job> {
    if !HoldsLease(j, l) then None
    else if j.state == Succeeded then (if j.result == Some(ref) then Some(j) else None)
    else if j.state != Running || j.leaseExpiresAt <= t then None
    else Some(j.(state := Succeeded, result := Some(ref)))
  }

  predicate ToRtw(m: Msg) {
    m.CompileGet? || m.CompileClaim? || m.CompileAccept? || m.RevisionGet?
  }

  predicate ToDc(m: Msg) {
    m.JobGet? || m.JobAck? || m.JobComplete?
  }

  function RtwServe(r: Rtw, m: Msg, t: int): (Rtw, Reply)
    requires ToRtw(m)
  {
    match m
    case CompileGet => (r, CompileReply(r.compile))
    case CompileClaim(q) =>
      var c := Claim(r.compile, q, t);
      if c.None? then (r, NoReply) else (r.(compile := c.value), CompileReply(c.value))
    case CompileAccept(q) =>
      var c := Accept(r.compile, q, t);
      if c.None? then (r, NoReply)
      else (r.(compile := c.value, commits := if r.compile.state == Accepted then r.commits else r.commits + [q]),
            CompileReply(c.value))
    case RevisionGet(id) => if id in r.revisions then (r, RevisionReply(r.revisions[id])) else (r, NoReply)
  }

  function DcServe(j: Job, m: Msg, t: int): (Job, Reply)
    requires ToDc(m)
  {
    match m
    case JobGet => (j, JobReply(j))
    case JobAck(l) =>
      var a := Acknowledge(j, l); if a.None? then (j, NoReply) else (a.value, JobReply(a.value))
    case JobComplete(l, ref) =>
      var c := Complete(j, l, ref, t); if c.None? then (j, NoReply) else (c.value, JobReply(c.value))
  }

  function Put(s: Store, bytes: string): Store {
    if s.sha(bytes) in s.objects then s else s.(objects := s.objects[s.sha(bytes) := bytes])
  }

  function StoreServe(s: Store, m: Msg): (Store, Reply)
    requires !ToRtw(m) && !ToDc(m)
  {
    match m
    case ObjectPut(bytes) => (Put(s, bytes), ObjectReply(s.sha(bytes), bytes))
    case ObjectGet(h) => if h in s.objects then (s, ObjectReply(h, s.objects[h])) else (s, NoReply)
  }

  function Exec(w: World, m: Msg, t: int): (World, Reply) {
    if ToRtw(m) then
      var (r, y) := RtwServe(w.rtw, m, t); (w.(rtw := r), y)
    else if ToDc(m) then
      var (j, y) := DcServe(w.job, m, t); (w.(job := j), y)
    else
      var (s, y) := StoreServe(w.store, m); (w.(store := s), y)
  }

  // ---------- what each request may rest on ----------

  // Acceptance needs the bytes to be readable under their hash; technical success needs
  // RTW's acceptance of the same attempt and a readable manifest; a cancellation is
  // acknowledged only at a version DC has reached.
  predicate Justified(w: World, m: Msg) {
    match m
    case CompileAccept(q) => q.contentHash in w.store.objects && q.objectKey == "sha256/" + q.contentHash
    case JobComplete(l, ref) =>
      w.rtw.compile.state == Accepted && HoldsFence(w.rtw.compile, l.attemptId, l.leaseEpoch, l.cancelVersion)
      && ref.hash in w.store.objects && ref.uri == "sha256:" + ref.hash
    case JobAck(l) => l.cancelVersion <= w.job.cancelVersion
    case _ => true
  }

  // ---------- runs ----------

  // Moves no Wiki worker makes.
  datatype Outside =
    | RtwCloses(errorCode: string, cancelVersion: int)
    | RtwRevises(revisionId: string, revision: Revision)     // also a withdrawal, or a new Wiki revision
    | DcLeases(workerId: string, attemptId: string, expiresAt: int)
    | DcRequestsCancel
    | DcStops(jobState: JobState)
    | StoreGains(bytes: string)

  datatype Act =
    | Send(worker: nat, m: Msg)
    | Serve(m: Msg, at: int)
    | Elsewhere(o: Outside)

  function RtwMove(r: Rtw, o: Outside): Rtw {
    match o
    case RtwCloses(code, cv) =>
      if r.compile.state == Building
           then r.(compile := r.compile.(state := Closed, errorCode := code, cancelVersion := cv))
      else r
    case RtwRevises(id, revision) => r.(revisions := r.revisions[id := revision])
    case _ => r
  }

  function DcMove(j: Job, o: Outside): Job {
    match o
    case DcLeases(worker, attempt, expires) =>
      if j.state in {Queued, Running}
      then j.(state := Running, workerId := worker, attemptId := attempt, attempt := j.attempt + 1,
              leaseEpoch := j.leaseEpoch + 1, leaseExpiresAt := expires)
      else j
    case DcRequestsCancel =>
      if j.state in {Queued, Running} then j.(state := CancelRequested, cancelVersion := j.cancelVersion + 1) else j
    case DcStops(state) =>
      if j.state in {Queued, Running, CancelRequested} && state in {Queued, Cancelled, Failed}
         && (j.state == CancelRequested ==> state == Cancelled)
      then j.(state := state) else j
    case _ => j
  }

  function Apply(w: World, a: Act): World {
    match a
    case Send(_, m) => if Justified(w, m) then w.(sent := w.sent + {m}) else w
    case Serve(m, t) => if m in w.sent then Exec(w, m, t).0 else w
    case Elsewhere(o) =>
      World(RtwMove(w.rtw, o), DcMove(w.job, o), if o.StoreGains? then Put(w.store, o.bytes) else w.store, w.sent)
  }

  // ---------- what every move keeps ----------

  ghost predicate RtwEvolves(a: Rtw, b: Rtw) {
    a.compile.ticket == b.compile.ticket && a.commits <= b.commits
    && (a.compile.state != Building ==> b.compile == a.compile && b.commits == a.commits)
  }

  predicate Over(j: Job) {
    j.state in {Succeeded, Cancelled, Failed}
  }

  ghost predicate JobEvolves(a: Job, b: Job) {
    a.cancelVersion <= b.cancelVersion && a.leaseEpoch <= b.leaseEpoch && (Over(a) ==> b == a)
    && (a.cancelVersion == b.cancelVersion || a.state in {Queued, Running})
    && (a.state == CancelRequested ==> b.state in {CancelRequested, Cancelled})
  }

  ghost predicate StoreEvolves(a: Store, b: Store) {
    a.sha == b.sha && a.objects.Keys <= b.objects.Keys && forall h :: h in a.objects ==> b.objects[h] == a.objects[h]
  }

  ghost predicate Evolves(a: World, b: World) {
    RtwEvolves(a.rtw, b.rtw) && JobEvolves(a.job, b.job) && StoreEvolves(a.store, b.store) && a.sent <= b.sent
  }

  // At most one result was ever committed, and RTW's record is that one.
  ghost predicate OneCommit(r: Rtw) {
    (r.compile.state != Accepted ==> r.commits == [])
    && (r.compile.state == Accepted ==>
          |r.commits| == 1 && r.compile.result == Some(r.commits[0])
          && HoldsFence(r.compile, r.commits[0].attemptId, r.commits[0].leaseEpoch, r.commits[0].cancelVersion))
  }

  ghost predicate Addressed(s: Store) {
    forall h :: h in s.objects ==> s.sha(s.objects[h]) == h
  }

  ghost predicate CommitIsReadable(w: World) {
    forall i :: 0 <= i < |w.rtw.commits| ==> w.rtw.commits[i].contentHash in w.store.objects
  }

  ghost predicate SuccessIsBacked(w: World) {
    w.job.state == Succeeded ==>
      w.rtw.compile.state == Accepted
      && HoldsFence(w.rtw.compile, w.job.attemptId, w.job.leaseEpoch, w.job.cancelVersion)
      && w.job.result.Some? && w.job.result.value.hash in w.store.objects
  }

  ghost predicate WireIsJustified(w: World) {
    forall m :: m in w.sent ==> Justified(w, m)
  }

  ghost predicate Inv(w: World) {
    OneCommit(w.rtw) && Addressed(w.store) && CommitIsReadable(w) && SuccessIsBacked(w) && WireIsJustified(w)
  }

  ghost predicate Initial(w: World) {
    w.rtw.compile.state == Building && w.rtw.commits == [] && Addressed(w.store) && w.sent == {} && !Over(w.job)
  }

  lemma {:induction false} EvolvesTransitive(a: World, b: World, c: World)
    requires Evolves(a, b) && Evolves(b, c)
    ensures Evolves(a, c)
  {
  }

  lemma {:induction false} JustifiedStays(a: World, b: World, m: Msg)
    requires Evolves(a, b) && Justified(a, m)
    ensures Justified(b, m)
  {
  }

  lemma {:induction false} WireStaysJustified(a: World, b: World)
    requires WireIsJustified(a) && Evolves(a, b) && b.sent == a.sent
    ensures WireIsJustified(b)
  {
    forall x | x in b.sent ensures Justified(b, x) {
      JustifiedStays(a, b, x);
    }
  }

  lemma {:induction false} RtwServeKeeps(r: Rtw, m: Msg, t: int)
    requires ToRtw(m) && OneCommit(r)
    ensures OneCommit(RtwServe(r, m, t).0) && RtwEvolves(r, RtwServe(r, m, t).0)
  {
  }

  lemma {:induction false} StoreServeKeeps(s: Store, m: Msg)
    requires !ToRtw(m) && !ToDc(m) && Addressed(s)
    ensures Addressed(StoreServe(s, m).0) && StoreEvolves(s, StoreServe(s, m).0)
  {
  }

  lemma {:induction false} ExecEvolves(w: World, m: Msg, t: int)
    requires Inv(w)
    ensures Evolves(w, Exec(w, m, t).0) && OneCommit(Exec(w, m, t).0.rtw) && Addressed(Exec(w, m, t).0.store)
  {
    if ToRtw(m) {
      RtwServeKeeps(w.rtw, m, t);
    } else if !ToDc(m) {
      StoreServeKeeps(w.store, m);
    }
  }

  // An authority that serves a justified request keeps the invariant.
  lemma {:induction false} ExecKeepsInv(w: World, m: Msg, t: int)
    requires Inv(w) && Justified(w, m)
    ensures Inv(Exec(w, m, t).0)
  {
    ExecEvolves(w, m, t);
    WireStaysJustified(w, Exec(w, m, t).0);
  }

  lemma {:induction false} MoveKeepsInv(w: World, o: Outside)
    requires Inv(w)
    ensures Inv(Apply(w, Elsewhere(o))) && Evolves(w, Apply(w, Elsewhere(o)))
  {
    WireStaysJustified(w, Apply(w, Elsewhere(o)));
  }

  lemma {:induction false} SendKeepsInv(w: World, m: Msg)
    requires Inv(w) && Justified(w, m)
    ensures Inv(w.(sent := w.sent + {m})) && Evolves(w, w.(sent := w.sent + {m}))
  {
    var w' := w.(sent := w.sent + {m});
    forall x | x in w'.sent ensures Justified(w', x) {
      JustifiedStays(w, w', if x in w.sent then x else m);
    }
  }

  lemma {:induction false} ApplyKeepsInv(w: World, a: Act)
    requires Inv(w)
    ensures Inv(Apply(w, a)) && Evolves(w, Apply(w, a))
  {
    match a
    case Send(_, m) =>
      if Justified(w, m) {
        SendKeepsInv(w, m);
      }
    case Serve(m, t) =>
      if m in w.sent {
        ExecKeepsInv(w, m, t);
        ExecEvolves(w, m, t);
      }
    case Elsewhere(o) =>
      MoveKeepsInv(w, o);
  }

  ghost predicate Behavior(trace: seq<World>, acts: seq<Act>) {
    |trace| == |acts| + 1 && Initial(trace[0])
    && forall i {:trigger acts[i]} :: 0 <= i < |acts| ==> trace[i + 1] == Apply(trace[i], acts[i])
  }

  lemma {:induction false} EveryWorldIsSafe(trace: seq<World>, acts: seq<Act>, n: nat)
    requires Behavior(trace, acts) && n < |trace|
    ensures Inv(trace[n])
  {
    if n > 0 {
      EveryWorldIsSafe(trace, acts, n - 1);
      ApplyKeepsInv(trace[n - 1], acts[n - 1]);
    }
  }

  lemma {:induction false} LaterWorldsEvolve(trace: seq<World>, acts: seq<Act>, m: nat, n: nat)
    requires Behavior(trace, acts) && m <= n < |trace|
    ensures Evolves(trace[m], trace[n])
  {
    if m < n {
      LaterWorldsEvolve(trace, acts, m, n - 1);
      EveryWorldIsSafe(trace, acts, n - 1);
      ApplyKeepsInv(trace[n - 1], acts[n - 1]);
      EvolvesTransitive(trace[m], trace[n - 1], trace[n]);
    }
  }

  // ---------- main results over every run ----------

  // However often and however late accept requests are served, RTW commits at most one
  // result, of a request whose bytes the store held under their hash before it was sent.
  lemma {:induction false} AtMostOneResult(trace: seq<World>, acts: seq<Act>, n: nat)
    requires Behavior(trace, acts) && n < |trace|
    ensures var r := trace[n].rtw; var s := trace[n].store;
            |r.commits| <= 1 && (r.compile.state == Accepted <==> |r.commits| == 1)
            && (r.commits != [] ==> r.commits[0].contentHash in s.objects
                                    && s.sha(s.objects[r.commits[0].contentHash]) == r.commits[0].contentHash)
  {
    EveryWorldIsSafe(trace, acts, n);
  }

  // The bytes an accept request names are readable under their hash before it is sent and
  // unchanged ever after.
  lemma {:induction false} AcceptedBytesAreReadable(trace: seq<World>, acts: seq<Act>, m: nat, n: nat, worker: nat,
          q: AcceptReq)
    requires Behavior(trace, acts) && m < |acts| && m <= n < |trace|
    requires acts[m] == Send(worker, CompileAccept(q)) && CompileAccept(q) in trace[m + 1].sent
    ensures q.contentHash in trace[m].store.objects && q.contentHash in trace[n].store.objects
            && trace[n].store.sha(trace[n].store.objects[q.contentHash]) == q.contentHash
            && trace[n].store.objects[q.contentHash] == trace[m].store.objects[q.contentHash]
  {
    EveryWorldIsSafe(trace, acts, m);
    EveryWorldIsSafe(trace, acts, n);
    LaterWorldsEvolve(trace, acts, m, n);
  }

  // Technical success exists only for the attempt, epoch and cancel version that RTW
  // accepted; a completion for any other fence is never sent.
  lemma {:induction false} SuccessFollowsAcceptance(trace: seq<World>, acts: seq<Act>, n: nat, l: Lease, ref: ResultRef)
    requires Behavior(trace, acts) && n < |trace|
    ensures var w := trace[n]; var c := w.rtw.compile;
            && (JobComplete(l, ref) in w.sent ==>
                  c.state == Accepted && c.attemptId == l.attemptId && c.leaseEpoch == l.leaseEpoch
                  && c.cancelVersion == l.cancelVersion)
            && (w.job.state == Succeeded ==>
                  c.state == Accepted && c.attemptId == w.job.attemptId && c.leaseEpoch == w.job.leaseEpoch
                  && c.cancelVersion == w.job.cancelVersion)
  {
    EveryWorldIsSafe(trace, acts, n);
  }

  // Once DC has raised the cancel version of a running attempt, no completion carrying the
  // attempt's own version succeeds, whenever it is served.
  lemma {:induction false} CancelExcludesSuccess(trace: seq<World>, acts: seq<Act>, m: nat, n: nat)
    requires Behavior(trace, acts) && m <= n < |trace|
    requires trace[m].job.state in {CancelRequested, Cancelled}
    ensures trace[n].job.state != Succeeded
  {
    LaterWorldsEvolve(trace, acts, m, n);
  }
}
