// What RTW, DC and the store answer to an index attempt, field by field: which requests are
// taken, and what they change.
module IndexLaws {
  import opened Basics
  import opened IndexWorld

  // ---------- RTW ----------

  // A fence is granted in time, for the very build and cancel version: the next epoch to a new
  // attempt, the same one to the current attempt while its lease is alive and not shortened.
  lemma {:induction false} WhatIsGranted(b: RtwBuild, q: ClaimReq, t: int)
    ensures Grant(b, q, t).Some? <==>
              b.state == BUILDING && q.buildId == b.ident.buildId && q.generation == b.ident.generation
              && q.manifestHash == b.ident.manifestHash && q.cancelVersion == b.cancelVersion
              && q.attemptId != "" && t < q.leaseExpiresAt
              && if q.attemptId == b.attemptId
                 then (q.leaseEpoch == 0 || q.leaseEpoch == b.leaseEpoch)
                      && t < b.leaseExpiresAt <= q.leaseExpiresAt
                 else q.leaseEpoch == 0 || q.leaseEpoch == b.leaseEpoch + 1
    ensures Grant(b, q, t).Some? ==>
              var d := Grant(b, q, t).value;
              d.attemptId == q.attemptId && d.leaseExpiresAt == q.leaseExpiresAt
              && d.leaseEpoch == b.leaseEpoch + (if q.attemptId == b.attemptId then 0 else 1)
              && d.(attemptId := b.attemptId, leaseEpoch := b.leaseEpoch, leaseExpiresAt := b.leaseExpiresAt) == b
  {
  }

  // A result is accepted under the whole fence: in time while RTW builds, and later only again.
  lemma {:induction false} WhatIsAccepted(b: RtwBuild, q: AcceptReq, t: int)
    ensures Accept(b, q, t).Some? <==>
              q.buildId == b.ident.buildId && q.generation == b.ident.generation
              && q.manifestHash == b.ident.manifestHash && q.attemptId == b.attemptId && q.leaseEpoch == b.leaseEpoch
              && q.cancelVersion == b.cancelVersion
              && ((b.state == BUILDING && t < b.leaseExpiresAt) || (b.state == READY && b.indexRef == q.index))
    ensures Accept(b, q, t).Some? ==>
              var d := Accept(b, q, t).value;
              d.state == READY && d.indexRef == q.index && (b.state == READY ==> d == b)
              && (b.state == BUILDING ==> d.errorCode == "")
              && d.(state := b.state, indexRef := b.indexRef, errorCode := b.errorCode) == b
  {
  }

  // ---------- DC ----------

  // A job is completed under the whole lease: in time while it runs, and later only again. A
  // failure that can be retried queues it as long as attempts are left.
  lemma {:induction false} WhatIsCompleted(j: Job, l: Lease, r: JobResult, t: int)
    ensures Complete(j, l, r, t).Some? <==>
              j.workerId == l.workerId && j.attemptId == l.attemptId && j.leaseEpoch == l.leaseEpoch
              && j.cancelVersion == l.cancelVersion
              && ((j.state == Running && t < j.leaseExpiresAt)
                  || (j.state == Succeeded && r.Success? && j.result == Some(r))
                  || (j.state == Failed && r.Failure? && j.result == Some(r)))
    ensures Complete(j, l, r, t).Some? && j.state == Running ==>
              var d := Complete(j, l, r, t).value;
              d.(state := j.state, result := j.result) == j
              && match r
                 case Success(_) => d.state == Succeeded && d.result == Some(r)
                 case Failure(_, retryable) =>
                   if retryable && j.attempt < j.maxAttempts then d.state == Queued && d.result == j.result
                   else d.state == Failed && d.result == Some(r)
    ensures Complete(j, l, r, t).Some? && j.state != Running ==> Complete(j, l, r, t).value == j
  {
  }

  // A success names the manifest by its hash.
  lemma {:induction false} ResultNamesTheManifest(r: Ref)
    ensures IndexResultRef(r).uri == "sha256:" + r.sha256 && IndexResultRef(r).hash == r.sha256
    ensures IndexResultRef(r).mediaType == "application/vnd.sea.index-manifest+json"
  {
  }

  // ---------- the dispatch row ----------

  // The row is still claimed, in time, by exactly this dispatch.
  ghost predicate ClaimedAs(row: Option<Row>, c: IndexDispatch, t: int) {
    row.Some?
    && var p := row.value;
       p.stage == Pending && p.claimEpoch == c.claimEpoch && p.claimUntil.Some? && t < p.claimUntil.value
       && p.jobId == c.jobId
       && (p.fence.attemptId, p.fence.leaseEpoch, p.fence.cancelVersion)
          == (c.fence.attemptId, c.fence.leaseEpoch, c.fence.cancelVersion)
       && (p.dc.attemptId, p.dc.leaseEpoch, p.dc.cancelVersion)
          == (c.dc.attemptId, c.dc.leaseEpoch, c.dc.cancelVersion)
  }

  // Noting, deferring and delivering are taken exactly from the dispatch that holds the claim,
  // and change only the row and the delivery.
  lemma {:induction false} WhatIsNoted(pg: Pg, c: IndexDispatch, t: int)
    ensures var (after, r) := PgServe(pg, PgNote(c), t);
            if ClaimedAs(pg.row, c, t)
            then r == Done && after == pg.(row := Some(pg.row.value.(rtwAccepted := true)))
            else r == NoReply && after == pg
  {
  }

  lemma {:induction false} WhatIsDeferred(pg: Pg, c: IndexDispatch, stage: Stage, code: string, t: int)
    ensures var (after, r) := PgServe(pg, PgDefer(c, stage, code), t);
            if ClaimedAs(pg.row, c, t) && stage != Delivered && 1 <= |code| <= 80
            then r == Done && after.row.Some? && after.row.value.stage == stage
                 && after.row.value.claimUntil == (if stage == Pending then Some(t + 5000) else None)
                 && after == pg.(row := Some(pg.row.value.(stage := stage, claimUntil := after.row.value.claimUntil)))
            else r == NoReply && after == pg
  {
  }

  lemma {:induction false} WhatIsDelivered(pg: Pg, c: IndexDispatch, t: int)
    ensures var (after, r) := PgServe(pg, PgDeliver(c), t);
            if ClaimedAs(pg.row, c, t) && pg.row.value.rtwAccepted && !pg.delivered
            then r == Done && after.delivered && after.content == pg.content
                 && after.row == Some(pg.row.value.(stage := Delivered, claimUntil := None))
            else r == NoReply && after == pg
  {
  }

  // A claim takes the pending row of a READY build that nobody holds, for thirty seconds and
  // under the next claim epoch.
  lemma {:induction false} WhatIsClaimed(pg: Pg, id: string, t: int)
    ensures var (after, r) := PgServe(pg, PgClaim(id), t);
            if pg.row.Some? && pg.row.value.stage == Pending && pg.content.state == READY && pg.content.result.Some?
               && !pg.delivered && (pg.row.value.claimUntil.Some? ==> pg.row.value.claimUntil.value < t)
               && (id == "" || id == pg.content.ident.buildId)
            then r.ClaimReply? && ClaimedAs(after.row, r.dispatch, t + 29999)
                 && r.dispatch.buildId == pg.content.ident.buildId && r.dispatch.result == pg.content.result.value
                 && r.dispatch.workerId == pg.row.value.workerId && r.dispatch.rtwAccepted == pg.row.value.rtwAccepted
                 && r.dispatch.claimEpoch == pg.row.value.claimEpoch + 1 && !ClaimedAs(after.row, r.dispatch, t + 30000)
                 && after.content == pg.content && !after.delivered
            else r == NothingPending && after == pg
  {
  }

  // What an attach must name, whatever the row is.
  ghost predicate NamesAttempt(m: Msg, content: Content, t: int)
    requires m.PgAttach?
  {
    m.jobId != "" && m.workerId != "" && m.fence.buildId == content.ident.buildId
    && m.fence.attemptId != "" && m.fence.leaseEpoch >= 1 && m.fence.cancelVersion >= 0
    && m.dc.attemptId != "" && m.dc.leaseEpoch >= 1 && m.dc.cancelVersion >= 0 && t < m.dc.expiresAt
    && (content.state == READY || (content.state == BUILDING && t < m.fence.expiresAt))
  }

  // The RTW fence follows the one in the row: a later epoch, or the same one no shorter.
  ghost predicate FenceFollows(m: Msg, p: Row)
    requires m.PgAttach?
  {
    m.fence.cancelVersion == p.fence.cancelVersion
    && (p.fence.leaseEpoch < m.fence.leaseEpoch
        || (p.fence.leaseEpoch == m.fence.leaseEpoch && p.fence.attemptId == m.fence.attemptId
            && p.fence.expiresAt <= m.fence.expiresAt))
  }

  // So does the DC fence, if the row is for the same job.
  ghost predicate AttemptFollows(m: Msg, p: Row)
    requires m.PgAttach?
  {
    p.jobId == m.jobId ==>
      p.dc.leaseEpoch < m.dc.leaseEpoch
      || (p.dc.leaseEpoch == m.dc.leaseEpoch && p.dc.attemptId == m.dc.attemptId
          && p.dc.cancelVersion == m.dc.cancelVersion && p.dc.expiresAt <= m.dc.expiresAt)
  }

  // An attach is taken exactly if it names an attempt whose fences follow those of the row; a
  // build not READY yet takes another attempt only under a later epoch.
  lemma {:induction false} WhatIsAttached(pg: Pg, m: Msg, t: int)
    requires m.PgAttach?
    ensures Attach(pg, m, t).1 == Done <==>
              NamesAttempt(m, pg.content, t)
              && (pg.row.Some? ==>
                    var p := pg.row.value;
                    FenceFollows(m, p) && AttemptFollows(m, p)
                    && (pg.content.state == READY || p.fence.leaseEpoch < m.fence.leaseEpoch
                        || (p.jobId == m.jobId && p.workerId == m.workerId && p.dc.leaseEpoch == m.dc.leaseEpoch)))
    ensures Attach(pg, m, t).1 != Done ==> Attach(pg, m, t) == (pg, NoReply)
    ensures Attach(pg, m, t).1 == Done && pg.row.None? ==>
              Attach(pg, m, t).0 == pg.(row := Some(Row(m.jobId, m.workerId, m.fence, m.dc, Pending, 0, None, false)))
    ensures Attach(pg, m, t).1 == Done && pg.row.Some? && Attach(pg, m, t).0 != pg ==>
              var p := pg.row.value;
              Attach(pg, m, t).0.row == Some(Row(m.jobId, m.workerId, m.fence, m.dc, Pending, p.claimEpoch + 1, None,
                                                 p.rtwAccepted && m.fence.leaseEpoch == p.fence.leaseEpoch))
  {
  }

  // ---------- the local build ----------

  // A result is committed to a prepared build, with its three lanes and under a fence that
  // follows the build's, in time; a READY build only takes the same result again.
  lemma {:induction false} WhatIsCommitted(c: Content, f: Fence, r: Ref, lanes: map<string, Ref>, t: int)
    ensures CommitReady(c, f, r, lanes, t).Some? <==>
              (c.state == READY && c.result == Some(r))
              || (c.state == BUILDING && c.chunks.Some? && |lanes| == 3 && t < f.expiresAt
                  && f.cancelVersion == c.fence.cancelVersion
                  && (c.fence.leaseEpoch < f.leaseEpoch
                      || (c.fence.leaseEpoch == f.leaseEpoch && c.fence.attemptId == f.attemptId)))
    ensures CommitReady(c, f, r, lanes, t).Some? ==>
              var d := CommitReady(c, f, r, lanes, t).value;
              d.state == READY && d.result == Some(r)
              && (c.state == READY ==> d == c)
              && (c.state == BUILDING ==> d.fence == f && d.lanes == lanes)
              && d.ident == c.ident && d.chunks == c.chunks
  {
  }

  // ---------- what others do ----------

  // RTW may close a build at any time, under any cancel version.
  lemma {:induction false} OthersClose(w: World, state: BuildState, code: string, cancelVersion: int)
    requires state == FAILED || state == CANCELLED
    ensures var after := Apply(w, Elsewhere(RtwCloses(state, code, cancelVersion)));
            after.jobs == w.jobs && after.pg == w.pg && after.rtw.grants == w.rtw.grants
            && if w.rtw.build.state == BUILDING
               then after.rtw.build.state == state && after.rtw.build.errorCode == code
                    && after.rtw.build.cancelVersion == cancelVersion
               else after == w
  {
  }

  // DC may lease a queued or running job to another attempt, ask for its cancellation, or stop it.
  lemma {:induction false} OthersLease(w: World, id: string, worker: string, attempt: string, until: int)
    requires id in w.jobs && w.jobs[id].state in {Queued, Running}
    ensures var j := Apply(w, Elsewhere(DcLeases(id, worker, attempt, until))).jobs[id];
            j.state == Running && j.workerId == worker && j.attemptId == attempt && j.leaseExpiresAt == until
            && j.leaseEpoch == w.jobs[id].leaseEpoch + 1 && j.attempt == w.jobs[id].attempt + 1
    ensures var j := Apply(w, Elsewhere(DcRequestsCancel(id))).jobs[id];
            j.state == CancelRequested && j.cancelVersion == w.jobs[id].cancelVersion + 1
    ensures Apply(w, Elsewhere(DcStops(id, Cancelled))).jobs[id].state == Cancelled
            && Apply(w, Elsewhere(DcStops(id, Failed))).jobs[id].state == Failed
            && Apply(w, Elsewhere(DcStops(id, Queued))).jobs[id].state == Queued
  {
  }

  // Jobs may be submitted, those of other types may be anything, and a build not committed yet
  // may be cancelled.
  lemma {:induction false} OthersSubmitAndCancel(w: World, job: Job, cancelVersion: int)
    ensures job.id !in w.jobs && job.state == Queued && job.result.None? ==>
              Apply(w, Elsewhere(DcSubmits(job))).jobs == w.jobs[job.id := job]
    ensures job.id !in w.jobs && job.jobType != "content.build.v1" ==>
              Apply(w, Elsewhere(DcOther(job))).jobs == w.jobs[job.id := job]
    ensures w.pg.content.state == BUILDING ==>
              var c := Apply(w, Elsewhere(PgCancels(cancelVersion))).pg.content;
              c.state == CANCELLED && c.fence.cancelVersion == cancelVersion
  {
  }
}
