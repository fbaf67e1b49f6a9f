// An ordinary compile attempt, spelled out: which jobs decode, and that nothing stands in the
// way of an attempt whose sources, candidate and result are sound.
module WikiAttempts {
  import opened Basics
  import opened WikiWorld
  import opened WikiWorker

  // A running job of this worker with a frozen ticket, a whole lease, and no cancellation.
  ghost predicate CompileJob(job: Job, workerId: string) {
    workerId != "" && job.id != "" && job.state == Running && job.workerId == workerId && job.attempt >= 1
    && job.attemptId != "" && job.leaseEpoch >= 1 && job.cancelVersion == 0
    && job.leaseExpiresAt <= job.request.deadline
    && job.request.ticket.Some?
  }

  // Exactly such a job decodes, while its lease lasts, and to its own ticket.
  lemma {:induction false} WhatDecodes(job: Job, workerId: string, now: int)
    ensures Decode(job, workerId, now) ==
              if CompileJob(job, workerId) && now < job.leaseExpiresAt then job.request.ticket else None
  {
  }

  // What the worker compares, field by field: RTW's record with ticket and lease, DC's job with
  // the attempt, and an acceptance with both.
  lemma {:induction false} WhatIsSame(c: Compile, current: Job, ticket: Ticket, job: Job, now: int)
    ensures SameTicket(c, ticket, job) <==> c.ticket == ticket && c.cancelVersion == job.cancelVersion
    ensures SameLease(c, job, now) <==>
              c.state == Building && c.attemptId == job.attemptId && c.leaseEpoch == job.leaseEpoch
              && c.cancelVersion == job.cancelVersion && now < c.leaseExpiresAt == job.leaseExpiresAt
    ensures SameAttempt(current, job) <==>
              current.id == job.id && current.inputHash == job.inputHash && current.request == job.request
              && current.workerId == job.workerId && current.attemptId == job.attemptId
              && current.attempt == job.attempt && current.leaseEpoch == job.leaseEpoch
    ensures SameAccepted(c, ticket, job) <==>
              c.state == Accepted && c.ticket == ticket && c.attemptId == job.attemptId
              && c.leaseEpoch == job.leaseEpoch && c.cancelVersion == job.cancelVersion && c.result.Some?
              && c.revisionId != ""
  {
  }

  // A source counts as unchanged exactly if it is still live, in its module and under its hash,
  // with the content that was loaded.
  lemma {:induction false} WhatIsUnchanged(ww: WikiCompileWorker, current: Revision, ticket: Ticket, id: string,
          source: Revision)
    ensures ww.Unchanged(current, ticket, id, source) <==>
              current.revisionId == id && current.moduleId == ticket.moduleId && current.kind == "source"
              && !current.withdrawn && current.objectKey == "sha256/" + current.contentHash
              && ww.sha(current.content) == current.contentHash
              && current.contentHash == source.contentHash && current.content == source.content
  {
  }

  // RTW builds the ticket and has not leased it later than this attempt.
  ghost predicate BuildsTicket(c: Compile, job: Job, ticket: Ticket) {
    c.state == Building && c.ticket == ticket && c.cancelVersion == 0 && c.leaseEpoch < job.leaseEpoch
  }

  // Every source of the ticket is live, and its bytes are those of its hash.
  ghost predicate SourcesAreLive(ww: WikiCompileWorker, w: World, ticket: Ticket) {
    forall i :: 0 <= i < |ticket.sourceIds| ==>
      ticket.sourceIds[i] in w.rtw.revisions
      && var r := w.rtw.revisions[ticket.sourceIds[i]];
         r.revisionId == ticket.sourceIds[i] && r.moduleId == ticket.moduleId && r.kind == "source" && !r.withdrawn
         && r.objectKey == "sha256/" + r.contentHash && ww.sha(r.content) == r.contentHash
  }

  // The run produced one candidate, for this ticket and this attempt, under its own hash.
  ghost predicate Produced(run: RunOutcome, job: Job, ticket: Ticket, s: Store) {
    run.completed && run.candidates == 1
    && var c := run.candidate;
       c.compileId == ticket.compileId && c.generation == ticket.generation && c.inputHash == ticket.inputHash
       && c.attemptId == job.attemptId && c.leaseEpoch == job.leaseEpoch && c.cancelVersion == job.cancelVersion
       && s.sha(c.markdown) == c.contentHash && (c.contentHash in s.objects ==> s.objects[c.contentHash] == c.markdown)
  }

  // RTW's record once it accepted the candidate for this attempt.
  ghost function Recorded(c: Compile, job: Job, candidate: Candidate): Compile {
    var q := AcceptReq(candidate.compileId, candidate.generation, candidate.inputHash, job.attemptId, job.leaseEpoch,
                       job.cancelVersion, "sha256/" + candidate.contentHash, candidate.contentHash, candidate.title,
                       candidate.sourceRefs);
    c.(state := Accepted, attemptId := job.attemptId, leaseEpoch := job.leaseEpoch,
       leaseExpiresAt := job.leaseExpiresAt,
       result := Some(q), revisionId := "wiki/" + candidate.contentHash, errorCode := "")
  }

  // The accepted evidence holds, and its manifest is where the result says.
  ghost predicate ResultIsThere(ww: WikiCompileWorker, w: World, job: Job, candidate: Candidate, ref: ResultRef) {
    "wiki/" + candidate.contentHash in w.rtw.revisions && ww.completionRef.Some?
    && var e := Evidence(w.job, Recorded(w.rtw.compile, job, candidate),
                         w.rtw.revisions["wiki/" + candidate.contentHash], candidate);
       var hash := ww.sha(ww.manifest(e));
       ww.evidenceHolds(e) && ww.completionRef.value(e) == Some(ref)
       && ref.uri == "sha256:" + hash && ref.hash == hash
       && ref.mediaType == "application/vnd.sea.wiki-compile-result+json"
       && hash in w.store.objects && w.store.objects[hash] == ww.manifest(e)
  }

  // Such an attempt can finish.
  lemma {:induction false} OrdinaryCompileCanFinish(ww: WikiCompileWorker, w: World, job: Job, run: RunOutcome,
          ref: ResultRef, now: int)
    requires CompileJob(job, ww.workerId) && now < job.leaseExpiresAt && w.job == job && job.result.None?
    requires BuildsTicket(w.rtw.compile, job, job.request.ticket.value)
    requires SourcesAreLive(ww, w, job.request.ticket.value)
    requires Produced(run, job, job.request.ticket.value, w.store)
    requires ResultIsThere(ww, w, job, run.candidate, ref)
    ensures ww.CanFinish(w, job, run, ref, now)
  {
    var ticket, c := job.request.ticket.value, run.candidate;
    WhatDecodes(job, ww.workerId, now);
    forall q | IsAcceptFor(q, job, c)
      ensures AcceptedFrom(Claimed(w.rtw.compile, job), q) == Recorded(w.rtw.compile, job, c)
    {
    }
  }
}
