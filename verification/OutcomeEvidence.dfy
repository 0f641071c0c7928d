/** The evidence outcome packets rest on: how a log records it, and exactly when it stays sound. */
module OutcomeEvidence {
  import opened Prelude
  import opened Outcome
  import opened OutcomeFlow

  /* ---------- sound evidence ---------- */

  ghost predicate VerificationSound(e: Evidence, v: Verification) {
    v.receiptDigest.Some? ==>
      && v.manifestId.Some? && v.manifestId.value in e.manifests && v.result.Some?
      && v.resultDigest == Some(ResultHash(v.result.value))
      && v.receiptDigest.value == ReceiptHash(IdentityOf(v, e.manifests[v.manifestId.value], v.resultDigest.value))
  }

  ghost predicate VerificationsSound(e: Evidence) {
    forall k :: k in e.verifications ==> e.verifications[k].id == k && VerificationSound(e, e.verifications[k])
  }

  ghost predicate RevisionsSound(e: Evidence) {
    forall k :: k in e.revisions ==>
      var r := e.revisions[k]; r.digest == RevisionHash(r.repositoryId, r.objectFormat, r.commitOid, r.treeOid)
  }

  /** Every record sits under its own id and matches its digest. */
  ghost predicate EvidenceSound(e: Evidence) {
    && RevisionsSound(e)
    && (forall k :: k in e.receipts ==> e.receipts[k].id == k && e.receipts[k].digest == DriverHash(e.receipts[k].content))
    && (forall k :: k in e.manifests ==> e.manifests[k].id == k && e.manifests[k].digest == ManifestHash(e.manifests[k].entries))
    && VerificationsSound(e)
    && (forall k :: k in e.validations ==> e.validations[k].validation.id == k)
    && (forall k :: k in e.contexts ==> e.contexts[k].context.id == k)
    && (forall k :: k in e.graphs ==> e.graphs[k].id == k)
  }

  /* ---------- recording ---------- */

  datatype Recording =
    | RevisionRegistered(id: Id, revision: Revision)
    | ManifestRecorded(manifest: Manifest)
    | DriverReceiptRecorded(receipt: DriverReceipt)
    | VerificationRequested(id: Id, runId: Id, jobId: Id, contract: string, at: Time)
    | VerificationReceiptRecorded(id: Id, manifestId: Id, status: VerificationStatus, result: string, resultDigest: Digest, receiptDigest: Digest)
    | VerificationCancelled(id: Id)
    | ContextCompiled(context: Context, digest: Digest)
    | ValidationRecorded(validation: Validation, digest: Digest)
    | GraphApproved(graph: Graph)
    | RunChanged(run: Run)
    | JobChanged(job: Job)
    | AttemptChanged(attempt: Attempt)

  /** The evidence cases of `evolve`: a digest that does not match its content throws; runs, jobs and attempts change freely. */
  function Record(e: Evidence, r: Recording): Result<Evidence> {
    match r
    case RevisionRegistered(id, revision) =>
      if RevisionHash(revision.repositoryId, revision.objectFormat, revision.commitOid, revision.treeOid) != revision.digest then Failure("digest")
      else Success(e.(revisions := e.revisions[id := revision]))
    case ManifestRecorded(manifest) =>
      if ManifestHash(manifest.entries) != manifest.digest then Failure("digest")
      else Success(e.(manifests := e.manifests[manifest.id := manifest]))
    case DriverReceiptRecorded(receipt) =>
      if DriverHash(receipt.content) != receipt.digest then Failure("digest")
      else Success(e.(receipts := e.receipts[receipt.id := receipt]))
    case VerificationRequested(id, runId, jobId, contract, at) =>
      Success(e.(verifications := e.verifications[id := Verification(id, runId, jobId, contract, Requested, None, None, None, None, at)]))
    case VerificationReceiptRecorded(id, manifestId, status, result, resultDigest, receiptDigest) =>
      if id !in e.verifications then Failure("Missing verification")
      else if manifestId !in e.manifests then Failure("Missing artifact manifest")
      else
        var v := e.verifications[id];
        if ResultHash(result) != resultDigest || ReceiptHash(IdentityOf(v, e.manifests[manifestId], resultDigest)) != receiptDigest then Failure("digest")
        else Success(e.(verifications := e.verifications[v.id := v.(
          status := status, manifestId := Some(manifestId), result := Some(result), resultDigest := Some(resultDigest), receiptDigest := Some(receiptDigest))]))
    case VerificationCancelled(id) =>
      if id !in e.verifications then Failure("Missing verification")
      else Success(e.(verifications := e.verifications[e.verifications[id].id := e.verifications[id].(status := CancelledVerification)]))
    case ContextCompiled(context, digest) =>
      if ContextHash(context) != digest then Failure("digest")
      else Success(e.(contexts := e.contexts[context.id := StoredContext(context, digest)]))
    case ValidationRecorded(validation, digest) =>
      if ValidationHash(validation) != digest then Failure("digest")
      else Success(e.(validations := e.validations[validation.id := StoredValidation(validation, digest)]))
    case GraphApproved(graph) => Success(e.(graphs := e.graphs[graph.id := graph]))
    case RunChanged(run) => Success(e.(runs := e.runs[run.id := run]))
    case JobChanged(job) => Success(e.(jobs := e.jobs[job.id := job]))
    case AttemptChanged(attempt) => Success(e.(attempts := e.attempts[attempt.id := attempt]))
  }

  const NoEvidence: Evidence := Evidence(map[], map[], map[], map[], map[], map[], map[], map[], map[], map[])

  function EvidenceOf(log: seq<Recording>): Result<Evidence> {
    if log == [] then Success(NoEvidence)
    else
      var before := EvidenceOf(log[..|log| - 1]);
      if before.Failure? then before else Record(before.value, log[|log| - 1])
  }

  /* ---------- one recording ---------- */

  /** A receipt was given for the verification on the strength of this manifest. */
  ghost predicate RestsOn(v: Verification, manifestId: Id) {
    v.receiptDigest.Some? && v.manifestId == Some(manifestId)
  }

  /** The recording puts other content under the id of a manifest some receipt rests on. */
  ghost predicate Undermines(e: Evidence, r: Recording) {
    && r.ManifestRecorded? && r.manifest.id in e.manifests && r.manifest.digest != e.manifests[r.manifest.id].digest
    && exists k :: k in e.verifications && RestsOn(e.verifications[k], r.manifest.id)
  }

  lemma VerificationsKept(e: Evidence, r: Recording)
    requires VerificationsSound(e) && Record(e, r).Success? && !Undermines(e, r)
    requires forall k :: k in e.manifests ==> e.manifests[k].id == k
    ensures VerificationsSound(Record(e, r).value)
  {
    var n := Record(e, r).value;
    forall k | k in n.verifications ensures n.verifications[k].id == k && VerificationSound(n, n.verifications[k]) {
      if k in e.verifications {
        assert VerificationSound(e, e.verifications[k]);
        assert r.ManifestRecorded? ==> (RestsOn(e.verifications[k], r.manifest.id) ==> r.manifest.digest == e.manifests[r.manifest.id].digest);
      }
    }
  }

  lemma UnderminedIsUnsound(e: Evidence, r: Recording)
    requires VerificationsSound(e) && Record(e, r).Success? && Undermines(e, r)
    ensures !VerificationsSound(Record(e, r).value)
  {
    var n := Record(e, r).value;
    var k :| k in e.verifications && RestsOn(e.verifications[k], r.manifest.id);
    assert VerificationSound(e, e.verifications[k]);
    assert !VerificationSound(n, n.verifications[k]);
  }

  /** A recording keeps the evidence sound exactly when it does not change a manifest some receipt rests on. */
  lemma RecordingKeepsEvidence(e: Evidence, r: Recording)
    requires EvidenceSound(e) && Record(e, r).Success?
    ensures EvidenceSound(Record(e, r).value) <==> !Undermines(e, r)
  {
    if Undermines(e, r) { UnderminedIsUnsound(e, r); } else { VerificationsKept(e, r); }
  }

  /* ---------- every log ---------- */

  lemma {:induction false} PrefixRecords(log: seq<Recording>, n: nat)
    requires EvidenceOf(log).Success? && n <= |log|
    ensures EvidenceOf(log[..n]).Success?
    decreases |log|
  {
    if n == |log| { assert log[..n] == log; } else {
      PrefixRecords(log[..|log| - 1], n);
      assert log[..|log| - 1][..n] == log[..n];
    }
  }

  ghost predicate UnderminedAt(log: seq<Recording>, n: nat)
    requires n < |log|
  {
    EvidenceOf(log[..n]).Success? && Undermines(EvidenceOf(log[..n]).value, log[n])
  }

  ghost predicate NeverUndermined(log: seq<Recording>) {
    forall n: nat :: n < |log| ==> !UnderminedAt(log, n)
  }

  ghost predicate SoundAt(log: seq<Recording>, n: nat)
    requires n <= |log|
  {
    EvidenceOf(log[..n]).Success? && EvidenceSound(EvidenceOf(log[..n]).value)
  }

  ghost predicate AlwaysSound(log: seq<Recording>) {
    forall n: nat :: n <= |log| ==> SoundAt(log, n)
  }

  /** From one position to the next, soundness is lost exactly where the log undermines a receipt. */
  lemma NextSound(log: seq<Recording>, n: nat)
    requires EvidenceOf(log).Success? && n < |log| && SoundAt(log, n)
    ensures SoundAt(log, n + 1) <==> !UnderminedAt(log, n)
  {
    PrefixRecords(log, n + 1);
    assert log[..n + 1][..n] == log[..n] && log[..n + 1][n] == log[n];
    RecordingKeepsEvidence(EvidenceOf(log[..n]).value, log[n]);
  }

  lemma {:induction false} SoundSoFar(log: seq<Recording>, n: nat)
    requires EvidenceOf(log).Success? && n <= |log| && forall m: nat :: m < n ==> !UnderminedAt(log, m)
    ensures SoundAt(log, n)
  {
    if n > 0 {
      SoundSoFar(log, n - 1);
      NextSound(log, n - 1);
    }
  }

  /** Evidence is sound after every step of a log that folds if and only if no step changes a manifest some receipt rests on. */
  lemma AlwaysSoundExactly(log: seq<Recording>)
    requires EvidenceOf(log).Success?
    ensures AlwaysSound(log) <==> NeverUndermined(log)
  {
    if NeverUndermined(log) {
      forall n: nat | n <= |log| ensures SoundAt(log, n) { SoundSoFar(log, n); }
    }
    if AlwaysSound(log) {
      forall n: nat | n < |log| ensures !UnderminedAt(log, n) {
        assert SoundAt(log, n) && SoundAt(log, n + 1);
        NextSound(log, n);
      }
    }
  }

  lemma NeverUnderminedIsSound(log: seq<Recording>)
    requires EvidenceOf(log).Success? && NeverUndermined(log)
    ensures EvidenceSound(EvidenceOf(log).value)
  {
    AlwaysSoundExactly(log);
    assert SoundAt(log, |log|) && log[..|log|] == log;
  }

  /** No artifact manifest id is recorded twice. */
  ghost predicate ManifestsOnce(log: seq<Recording>) {
    forall i, j :: 0 <= i < j < |log| && log[i].ManifestRecorded? && log[j].ManifestRecorded? ==> log[i].manifest.id != log[j].manifest.id
  }

  ghost predicate RecordsManifest(log: seq<Recording>, id: Id) {
    exists i :: 0 <= i < |log| && log[i].ManifestRecorded? && log[i].manifest.id == id
  }

  lemma NewManifest(e: Evidence, r: Recording, id: Id)
    requires Record(e, r).Success? && id in Record(e, r).value.manifests
    ensures id in e.manifests || (r.ManifestRecorded? && r.manifest.id == id)
  {
  }

  lemma {:induction false} ManifestsComeFromLog(log: seq<Recording>, id: Id)
    requires EvidenceOf(log).Success? && id in EvidenceOf(log).value.manifests
    ensures RecordsManifest(log, id)
  {
    var before, last := log[..|log| - 1], log[|log| - 1];
    NewManifest(EvidenceOf(before).value, last, id);
    if id in EvidenceOf(before).value.manifests {
      ManifestsComeFromLog(before, id);
      var i :| 0 <= i < |before| && before[i].ManifestRecorded? && before[i].manifest.id == id;
      assert log[i] == before[i];
    }
  }

  /** Recording every manifest id once is enough. */
  lemma OnceIsNeverUndermined(log: seq<Recording>)
    requires EvidenceOf(log).Success? && ManifestsOnce(log)
    ensures NeverUndermined(log) && EvidenceSound(EvidenceOf(log).value)
  {
    forall n: nat | n < |log| && log[n].ManifestRecorded? && EvidenceOf(log[..n]).Success?
      ensures log[n].manifest.id !in EvidenceOf(log[..n]).value.manifests {
      if log[n].manifest.id in EvidenceOf(log[..n]).value.manifests { ManifestsComeFromLog(log[..n], log[n].manifest.id); }
    }
    NeverUnderminedIsSound(log);
  }
}
