/** The start / resume / finalize / history decision of backend/app/runtime/recovery.py. */
module Recovery {
  import opened Outcomes

  type Id = nat

  /** SHA-256 over canonical JSON, taken to be injective: one constructor per shape hashed. */
  datatype Digest =
    | PayloadDigest(payload: string)
    | ActionDigest(amount: int, input: Digest)
    | ArtifactDigest(runId: Id, input: Digest, config: string)
    | ValueDigest(value: string)

  datatype RunIdentity = RunIdentity(
    runId: Id,
    inputSeq: nat,
    inputHash: Digest,
    configHash: string,
    graphVersion: string)

  datatype Entry = START | RESUME | FINALIZE | HISTORY

  /** `values` is None for a thread that has no checkpoint; otherwise it is the identity that
      the checkpoint carries. `pending` says whether the checkpoint still names a next node. */
  function ChooseEntry(identity: RunIdentity, values: Option<RunIdentity>, pending: bool,
                       hasEvidence: bool, isHead: bool): Result<Entry>
  {
    if values.Some? && values.value.inputSeq > identity.inputSeq then
      Success(HISTORY)
    else if values.Some? && values.value.runId == identity.runId then
      if values.value != identity then
        Failure(RecoveryConflict)
      else
        Success(if pending then RESUME else FINALIZE)
    else if !isHead || hasEvidence || pending then
      Failure(RecoveryConflict)
    else
      Success(START)
  }

  /** A head run may start from scratch exactly when nothing of it survives: no evidence, no
      checkpoint of its own, and no other run left unfinished in the thread. */
  lemma StartIffNothingSurvives(identity: RunIdentity, values: Option<RunIdentity>, pending: bool,
                                hasEvidence: bool, isHead: bool)
    ensures ChooseEntry(identity, values, pending, hasEvidence, isHead) == Success(START)
       <==> && isHead
            && !hasEvidence
            && !pending
            && (values.Some? ==>
                  && values.value.inputSeq <= identity.inputSeq
                  && values.value.runId != identity.runId)
  {
  }
}
