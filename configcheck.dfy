/** The config-check phase of Reconcile: a stored verdict for the current configuration hash
    either stops the reconcile (invalid) or lets it continue after pruning stale verdicts; a
    missing verdict is obtained from the config-check run and stored once it is ready. */
module ConfigCheck {
  import opened Wrappers
  import opened Coordinator

  /** time.Minute, in seconds (the unit of RequeueResult.requeueAfter in this model). */
  const Minute: nat := 60

  /** The config-check run's answer (configCheck, not part of this model). */
  datatype CheckResult = CheckResult(ready: bool, valid: bool)

  datatype ConfigError =
    | HashFailed(reason: string)         // configHash failed
    | ConfigInvalid                      // "current config is invalid"
    | StatusPatchFailed(reason: string)  // "failed to patch status"
    | ValidationFailed(reason: string)   // "failed to validate config"

  /** Whether Reconcile goes on to the next resources, or returns here. */
  datatype Phase = Proceed | Stop(result: Option<RequeueResult>, err: Option<ConfigError>)

  /** The Logging resource's status, which the phase updates in place. */
  class LoggingStatus {
    var configCheckResults: map<string, bool>

    constructor (results: map<string, bool>)
      ensures configCheckResults == results
    {
      configCheckResults := results;
    }
  }

  function Without(results: map<string, bool>, removed: seq<string>): (r: map<string, bool>)
    ensures forall h :: h in r <==> h in results && h !in removed
    ensures forall h :: h in r ==> r[h] == results[h]
  {
    results - (set h | h in removed)
  }

  /** What the phase returns and the verdict map it leaves. The collaborators are answers given in
      advance: `cleanup` is the list of removed hashes (or the cleanup error), `check` the result
      of the config-check run, `patchErr` the outcome of the status patch. */
  function PhaseOutcome(disabled: bool, results: map<string, bool>, hash: Result<string, string>,
                   cleanup: Result<seq<string>, string>, check: Result<CheckResult, string>,
                   patchErr: Option<string>): (p: (Phase, map<string, bool>))
    ensures p.0 == Proceed ==> p.1 == results
    ensures forall h :: h in p.1 ==> (h in results && p.1[h] == results[h]) || (hash.Ok? && h == hash.value && h !in results)
    ensures p.0.Stop? ==> p.0.result.None? || p.0.err.None?
  {
    if disabled then (Proceed, results)
    else if hash.Err? then (Stop(None, Some(HashFailed(hash.error))), results)
    else if hash.value in results then
      if !results[hash.value] then (Stop(None, Some(ConfigInvalid)), results)
      else if cleanup.Err? || |cleanup.value| == 0 then (Proceed, results)
      else
        var pruned := Without(results, cleanup.value);
        (PatchOutcome(patchErr), pruned)
    else if check.Err? then (Stop(None, Some(ValidationFailed(check.error))), results)
    else if check.value.ready then
      (PatchOutcome(patchErr), results[hash.value := check.value.valid])
    else (Stop(Some(RequeueResult(false, Minute)), None), results)
  }

  /** After the status patch: an explicit requeue, or the patch error. */
  function PatchOutcome(patchErr: Option<string>): (p: Phase)
    ensures p.Stop?
    ensures patchErr.None? <==> p == Stop(Some(RequeueResult(true, 0)), None)
    ensures patchErr.Some? ==> p == Stop(None, Some(StatusPatchFailed(patchErr.value)))
  {
    if patchErr.Some? then Stop(None, Some(StatusPatchFailed(patchErr.value)))
    else Stop(Some(RequeueResult(true, 0)), None)
  }

  method ConfigCheckPhase(status: LoggingStatus, disabled: bool, hash: Result<string, string>,
                          cleanup: Result<seq<string>, string>, check: Result<CheckResult, string>,
                          patchErr: Option<string>)
    returns (phase: Phase)
    modifies status
    ensures (phase, status.configCheckResults) ==
      PhaseOutcome(disabled, old(status.configCheckResults), hash, cleanup, check, patchErr)
  {
    if disabled {
      return Proceed;
    }
    if hash.Err? {
      return Stop(None, Some(HashFailed(hash.error)));
    }
    var h := hash.value;
    if h in status.configCheckResults {
      if !status.configCheckResults[h] {
        return Stop(None, Some(ConfigInvalid));
      }
      if cleanup.Err? {
        return Proceed;  // the cleanup error is only logged
      }
      var removed := cleanup.value;
      if |removed| > 0 {
        var i := 0;
        while i < |removed|
          invariant 0 <= i <= |removed|
          invariant status.configCheckResults == Without(old(status.configCheckResults), removed[..i])
        {
          assert removed[..i + 1] == removed[..i] + [removed[i]];
          status.configCheckResults := status.configCheckResults - {removed[i]};
          i := i + 1;
        }
        assert removed[..i] == removed;
        return PatchOutcome(patchErr);
      }
      return Proceed;
    }
    if check.Err? {
      return Stop(None, Some(ValidationFailed(check.error)));
    }
    if check.value.ready {
      status.configCheckResults := status.configCheckResults[h := check.value.valid];
      return PatchOutcome(patchErr);
    }
    return Stop(Some(RequeueResult(false, Minute)), None);
  }

  /** Reconcile gets past the phase only when the check is off or the current hash is stored as
      valid; the verdict map then loses at most the hashes the cleanup removed. */
  lemma ProceedsOnlyWhenValid(disabled: bool, results: map<string, bool>, hash: Result<string, string>,
                              cleanup: Result<seq<string>, string>, check: Result<CheckResult, string>,
                              patchErr: Option<string>)
    ensures var (phase, after) := PhaseOutcome(disabled, results, hash, cleanup, check, patchErr);
      phase == Proceed <==>
        disabled || (hash.Ok? && hash.value in results && results[hash.value] &&
                     (cleanup.Err? || |cleanup.value| == 0))
    ensures var (phase, after) := PhaseOutcome(disabled, results, hash, cleanup, check, patchErr);
      phase == Proceed ==> after == results
  {
  }

  /** A stored `false` verdict fails the reconcile with "current config is invalid" and changes nothing. */
  lemma StoredInvalidVerdictFails(results: map<string, bool>, h: string,
                                  cleanup: Result<seq<string>, string>, check: Result<CheckResult, string>,
                                  patchErr: Option<string>)
    requires h in results && !results[h]
    ensures PhaseOutcome(false, results, Ok(h), cleanup, check, patchErr) == (Stop(None, Some(ConfigInvalid)), results)
  {
  }

  /** A stored `true` verdict with stale hashes to remove: exactly those hashes go, the current one
      stays (the cleanup keeps it), and the reconcile requeues once the status is patched. */
  lemma PruningKeepsValidVerdict(results: map<string, bool>, h: string, removed: seq<string>,
                                 check: Result<CheckResult, string>, patchErr: Option<string>)
    requires h in results && results[h] && |removed| > 0 && h !in removed
    ensures var (phase, after) := PhaseOutcome(false, results, Ok(h), Ok(removed), check, patchErr);
      && h in after && after[h]
      && (forall g :: g in after <==> g in results && g !in removed)
      && phase == PatchOutcome(patchErr)
  {
  }

  /** A ready result is stored under the current hash, nothing else changes, and the reconcile
      requeues (or reports the failed status patch). */
  lemma ReadyVerdictIsStored(results: map<string, bool>, h: string, cleanup: Result<seq<string>, string>,
                             valid: bool, patchErr: Option<string>)
    requires h !in results
    ensures var (phase, after) := PhaseOutcome(false, results, Ok(h), cleanup, Ok(CheckResult(true, valid)), patchErr);
      && after == results[h := valid]
      && (patchErr.None? ==> phase == Stop(Some(RequeueResult(true, 0)), None))
      && (patchErr.Some? ==> phase == Stop(None, Some(StatusPatchFailed(patchErr.value))))
  {
  }

  /** A result that is not ready yet is not stored; the reconcile is retried after one minute. */
  lemma PendingVerdictRetriesAfterAMinute(results: map<string, bool>, h: string, cleanup: Result<seq<string>, string>,
                                          valid: bool, patchErr: Option<string>)
    requires h !in results
    ensures PhaseOutcome(false, results, Ok(h), cleanup, Ok(CheckResult(false, valid)), patchErr)
      == (Stop(Some(RequeueResult(false, Minute)), None), results)
  {
  }
}
