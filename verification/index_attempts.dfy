// An ordinary attempt, spelled out: which jobs decode, and that nothing stands in the way of a
// new attempt of a READY build.
module IndexAttempts {
  import opened Basics
  import opened IndexWorld
  import opened IndexWorker

  ghost predicate IsDigest(h: string) {
    |h| == 64 && forall i :: 0 <= i < |h| ==> '0' <= h[i] <= '9' || 'a' <= h[i] <= 'f'
  }

  ghost predicate ResumesFrom(resume: map<string, Ref>) {
    forall lane :: lane in resume ==>
      (lane == "dense" || lane == "sparse" || lane == "multivector") && IsDigest(resume[lane].sha256)
      && resume[lane].key == "sha256/" + resume[lane].sha256
  }

  // A running job of this worker and profile, with a whole lease and a decoded input.
  ghost predicate IndexJob(job: Job, workerId: string, profile: string) {
    workerId != "" && profile != "" && job.id != "" && job.state == Running && job.workerId == workerId
    && job.jobType == "content.build.v1" && job.resourceProfile == profile && job.producer != ""
    && job.operationId != "" && job.attemptId != "" && job.leaseEpoch >= 1 && job.cancelVersion >= 0
    && IsDigest(job.inputHash) && job.input.Some?
    && var input := job.input.value;
       input.buildId != "" && input.releaseId != "" && input.generation >= 1 && IsDigest(input.inputManifestHash)
       && ResumesFrom(input.resume)
  }

  // Such a job decodes while its lease lasts, to its own input and fence; with the lease over it
  // is a conflict, and any other job is invalid.
  lemma {:induction false} WhatDecodes(job: Job, workerId: string, profile: string, now: int)
    ensures var (bad, input, fence) := DecodeIndexClaim(job, workerId, profile, now);
            if !IndexJob(job, workerId, profile) then bad == Some(InvalidJob)
            else if job.leaseExpiresAt <= now then bad == Some(ExpiredLease)
            else bad == None && Some(input) == job.input
                 && fence == Fence(input.buildId, job.attemptId, job.leaseEpoch, job.cancelVersion, job.leaseExpiresAt)
  {
  }

  // A run counts only if it completed once, for this very build and chunks, under this fence.
  lemma {:induction false} WhatIsSound(run: RunOutcome, fixed: Content, fence: Fence, input: IndexJobInput)
    ensures SoundRun(run, fixed, fence) <==>
              run.Ran? && run.completed && run.completions == 1 && run.receipt.ready
              && run.receipt.buildId == fixed.ident.buildId && run.receipt.releaseId == fixed.ident.releaseId
              && run.receipt.generation == fixed.ident.generation && fixed.chunks == Some(run.receipt.chunkManifest)
              && (run.receipt.attemptId, run.receipt.leaseEpoch, run.receipt.cancelVersion)
                 == (fence.attemptId, fence.leaseEpoch, fence.cancelVersion)
    ensures SameIndexBuild(fixed, input) <==>
              fixed.ident.buildId == input.buildId && fixed.ident.releaseId == input.releaseId
              && fixed.ident.generation == input.generation && fixed.ident.manifestHash == input.inputManifestHash
              && fixed.ident.moduleId != "" && fixed.operationId != "" && fixed.chunks.Some?
  {
  }

  // The job is one DC runs for this build, with more than a second left.
  ghost predicate RunsBuild(w: World, job: Job, workerId: string, profile: string, now: int) {
    IndexJob(job, workerId, profile) && job.id in w.jobs && w.jobs[job.id] == job && now + 1000 < job.leaseExpiresAt
    && var input, ident := job.input.value, w.pg.content.ident;
       input.buildId == ident.buildId && input.releaseId == ident.releaseId && input.generation == ident.generation
       && input.inputManifestHash == ident.manifestHash && ident.moduleId != ""
  }

  // The stored manifest lists the three lanes of the committed result, each probed.
  ghost predicate Describes(m: IndexManifest, c: Content) {
    m.schemaVersion == 1 && m.ident == c.ident && Some(m.chunkManifest) == c.chunks
    && |m.lanes| == 3 && m.lanes[0].lane == "dense" && m.lanes[1].lane == "sparse" && m.lanes[2].lane == "multivector"
    && (forall i :: 0 <= i < 3 ==> m.lanes[i].probePassed)
    && c.lanes == map["dense" := m.lanes[0].artifact, "sparse" := m.lanes[1].artifact,
                      "multivector" := m.lanes[2].artifact]
  }

  // The build was committed, and its dispatch deferred to any stage under an earlier lease.
  ghost predicate CommittedAndDeferred(w: World, job: Job, objects: Ref -> Option<IndexManifest>) {
    var c := w.pg.content;
    c.state == READY && c.result.Some? && c.chunks.Some? && c.operationId != "" && c.fence.cancelVersion >= 0
    && objects(c.result.value).Some? && Describes(objects(c.result.value).value, c)
    && w.pg.row.Some? && w.pg.row.value.fence.cancelVersion == c.fence.cancelVersion
    && (w.pg.row.value.jobId == job.id ==> w.pg.row.value.dc.leaseEpoch < job.leaseEpoch)
  }

  // RTW still builds, no earlier than the row's fence, and has not seen this attempt.
  ghost predicate StillBuilding(b: RtwBuild, c: Content, row: Row, job: Job) {
    b.state == BUILDING && b.ident == c.ident && b.cancelVersion == c.fence.cancelVersion == job.cancelVersion
    && b.leaseEpoch >= 0 && row.fence.leaseEpoch <= b.leaseEpoch && b.attemptId != job.attemptId
  }

  // RTW already holds the result, under a fence no earlier than the row's.
  ghost predicate HoldsResult(b: RtwBuild, c: Content, row: Row) {
    b.state == READY && b.ident == c.ident && b.cancelVersion == c.fence.cancelVersion
    && Some(b.indexRef) == c.result && b.errorCode == "" && b.attemptId != "" && b.leaseEpoch >= 1
    && (row.fence.leaseEpoch < b.leaseEpoch
        || (row.fence.leaseEpoch == b.leaseEpoch && row.fence.attemptId == b.attemptId
            && row.fence.expiresAt <= b.leaseExpiresAt))
  }

  // The attempt can take the build up.
  lemma {:induction false} CanTakeUp(w: World, job: Job, workerId: string, profile: string,
          objects: Ref -> Option<IndexManifest>, now: int)
    requires RunsBuild(w, job, workerId, profile, now) && CommittedAndDeferred(w, job, objects)
    requires StillBuilding(w.rtw.build, w.pg.content, w.pg.row.value, job)
             || HoldsResult(w.rtw.build, w.pg.content, w.pg.row.value)
    ensures var c := w.pg.content;
            var dc := Fence(c.ident.buildId, job.attemptId, job.leaseEpoch, job.cancelVersion, job.leaseExpiresAt);
            TakesUp(w, job.id, workerId, dc, now)
  {
    hide ResumesFrom;
    var m := objects(w.pg.content.result.value).value;
    LanesAreThree(m.lanes[0].artifact, m.lanes[1].artifact, m.lanes[2].artifact);
  }

  lemma {:induction false} LanesAreThree(dense: Ref, sparse: Ref, multivector: Ref)
    ensures |map["dense" := dense, "sparse" := sparse, "multivector" := multivector]| == 3
  {
    assert "dense" != "sparse" && "dense" != "multivector" && "sparse" != "multivector";
  }

  // What a receipt of the committed result says is what the stored manifest describes.
  lemma {:induction false} DescribedMatches(m: IndexManifest, c: Content, r: Receipt)
    requires Describes(m, c) && r.lanes == c.lanes && Some(r.chunkManifest) == c.chunks
    ensures ManifestMatches(m, c, r)
  {
  }

  // Where RTW holds the result no run is needed.
  lemma {:induction false} AcceptedBuildCanBeDelivered(iw: IndexWorker, w: World, job: Job, run: RunOutcome, now: int)
    requires RunsBuild(w, job, iw.workerId, iw.resourceProfile, now) && CommittedAndDeferred(w, job, iw.objects)
    requires HoldsResult(w.rtw.build, w.pg.content, w.pg.row.value)
    ensures iw.CanDeliver(w, job, run, now)
  {
    WhatDecodes(job, iw.workerId, iw.resourceProfile, now);
    CanTakeUp(w, job, iw.workerId, iw.resourceProfile, iw.objects, now);
    hide DecodeIndexClaim, TakesUp, Describes, ManifestMatches, IsDigest, ResumesFrom;
    var c := w.pg.content;
    var dc := Fence(c.ident.buildId, job.attemptId, job.leaseEpoch, job.cancelVersion, job.leaseExpiresAt);
    DescribedMatches(iw.objects(c.result.value).value, c, AcceptedReceipt(c, FenceOf(w.rtw.build, dc)));
  }

  // Else the run hands back what was committed, under the fence RTW grants to this attempt.
  lemma {:induction false} BuildingBuildCanBeDelivered(iw: IndexWorker, w: World, job: Job, now: int)
    requires RunsBuild(w, job, iw.workerId, iw.resourceProfile, now) && CommittedAndDeferred(w, job, iw.objects)
    requires StillBuilding(w.rtw.build, w.pg.content, w.pg.row.value, job)
    ensures var c := w.pg.content;
            var receipt := Receipt(c.ident.buildId, c.ident.releaseId, c.ident.generation, c.chunks.value, c.lanes,
                                   c.result.value, true, job.attemptId, w.rtw.build.leaseEpoch + 1, job.cancelVersion);
            iw.CanDeliver(w, job, Ran(true, 1, receipt), now)
  {
    WhatDecodes(job, iw.workerId, iw.resourceProfile, now);
    CanTakeUp(w, job, iw.workerId, iw.resourceProfile, iw.objects, now);
    hide DecodeIndexClaim, TakesUp, Describes, ManifestMatches, IsDigest, ResumesFrom;
    var c := w.pg.content;
    var receipt := Receipt(c.ident.buildId, c.ident.releaseId, c.ident.generation, c.chunks.value, c.lanes,
                           c.result.value, true, job.attemptId, w.rtw.build.leaseEpoch + 1, job.cancelVersion);
    DescribedMatches(iw.objects(c.result.value).value, c, receipt);
    ThreeLanes(iw.objects(c.result.value).value, c);
  }

  lemma {:induction false} ThreeLanes(m: IndexManifest, c: Content)
    requires Describes(m, c)
    ensures |c.lanes| == 3
  {
    LanesAreThree(m.lanes[0].artifact, m.lanes[1].artifact, m.lanes[2].artifact);
  }
}
