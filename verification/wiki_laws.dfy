// What RTW and DC answer to a compile attempt: the whole fence is compared, and an answer once
// given is only repeated.
module WikiLaws {
  import opened Basics
  import opened WikiWorld

  // A claim takes over exactly for the ticket RTW builds, in time, under its cancel version and
  // a later lease, or the same one again.
  lemma {:induction false} WhatIsClaimed(c: Compile, q: ClaimReq, t: int)
    ensures Claim(c, q, t).Some? <==>
              c.state == Building && q.compileId == c.ticket.compileId && q.generation == c.ticket.generation
              && q.inputHash == c.ticket.inputHash && q.cancelVersion == c.cancelVersion && t < q.leaseExpiresAt
              && (c.leaseEpoch < q.leaseEpoch || (c.leaseEpoch == q.leaseEpoch && c.attemptId == q.attemptId))
    ensures Claim(c, q, t).Some? ==>
              var d := Claim(c, q, t).value;
              d.state == Building && d.ticket == c.ticket && d.attemptId == q.attemptId && d.leaseEpoch == q.leaseEpoch
              && d.leaseExpiresAt == q.leaseExpiresAt && d.cancelVersion == c.cancelVersion && d.result == c.result
  {
  }

  // An acceptance is taken exactly for the ticket, under the whole fence: in time if RTW still
  // builds, and later only the identical request again, which changes nothing.
  lemma {:induction false} WhatIsAccepted(c: Compile, q: AcceptReq, t: int)
    ensures Accept(c, q, t).Some? <==>
              q.compileId == c.ticket.compileId && q.generation == c.ticket.generation
              && q.inputHash == c.ticket.inputHash && c.attemptId == q.attemptId && c.leaseEpoch == q.leaseEpoch
              && c.cancelVersion == q.cancelVersion
              && ((c.state == Building && t < c.leaseExpiresAt) || (c.state == Accepted && c.result == Some(q)))
    ensures Accept(c, q, t).Some? ==>
              var d := Accept(c, q, t).value;
              d.state == Accepted && d.result == Some(q) && d.ticket == c.ticket && d.attemptId == c.attemptId
              && d.leaseEpoch == c.leaseEpoch && d.cancelVersion == c.cancelVersion
              && (c.state == Accepted ==> d == c)
  {
  }

  // DC acknowledges a cancellation only to the whole lease and only if one was requested.
  lemma {:induction false} WhatIsAcknowledged(j: Job, l: Lease)
    ensures Acknowledge(j, l).Some? <==>
              j.workerId == l.workerId && j.attemptId == l.attemptId && j.leaseEpoch == l.leaseEpoch
              && j.cancelVersion == l.cancelVersion && (j.state == CancelRequested || j.state == Cancelled)
    ensures Acknowledge(j, l).Some? ==>
              Acknowledge(j, l).value.state == Cancelled && Acknowledge(j, l).value.(state := j.state) == j
  {
  }

  // DC completes a running job, in time, only to the whole lease, and a succeeded one only with
  // the result it has.
  lemma {:induction false} WhatIsCompleted(j: Job, l: Lease, ref: ResultRef, t: int)
    ensures Complete(j, l, ref, t).Some? <==>
              j.workerId == l.workerId && j.attemptId == l.attemptId && j.leaseEpoch == l.leaseEpoch
              && j.cancelVersion == l.cancelVersion
              && ((j.state == Running && t < j.leaseExpiresAt) || (j.state == Succeeded && j.result == Some(ref)))
    ensures Complete(j, l, ref, t).Some? ==>
              var d := Complete(j, l, ref, t).value;
              d.state == Succeeded && d.result == Some(ref) && d.(state := j.state, result := j.result) == j
  {
  }

  // ---------- what others do ----------

  // RTW may close a compile it still builds, or revise a source; the store may gain objects.
  lemma {:induction false} OthersClose(w: World, code: string, cancelVersion: int, id: string, revision: Revision,
          bytes: string)
    ensures w.rtw.compile.state == Building ==>
              var c := Apply(w, Elsewhere(RtwCloses(code, cancelVersion))).rtw.compile;
              c.state == Closed && c.errorCode == code && c.cancelVersion == cancelVersion
    ensures w.rtw.compile.state != Building ==> Apply(w, Elsewhere(RtwCloses(code, cancelVersion))) == w
    ensures Apply(w, Elsewhere(RtwRevises(id, revision))).rtw.revisions == w.rtw.revisions[id := revision]
    ensures w.store.sha(bytes) !in w.store.objects ==>
              Apply(w, Elsewhere(StoreGains(bytes))).store.objects == w.store.objects[w.store.sha(bytes) := bytes]
  {
  }

  // DC may lease a queued or running job to another attempt, or ask for its cancellation.
  lemma {:induction false} OthersLease(w: World, worker: string, attempt: string, until: int)
    requires w.job.state in {Queued, Running}
    ensures var j := Apply(w, Elsewhere(DcLeases(worker, attempt, until))).job;
            j.state == Running && j.workerId == worker && j.attemptId == attempt && j.leaseExpiresAt == until
            && j.leaseEpoch == w.job.leaseEpoch + 1 && j.attempt == w.job.attempt + 1
    ensures var j := Apply(w, Elsewhere(DcRequestsCancel)).job;
            j.state == CancelRequested && j.cancelVersion == w.job.cancelVersion + 1
  {
  }
}
