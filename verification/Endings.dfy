/**
  * What a run may do and where it ends, read off the deployment, its configuration and what the
  * environment answers: which checks a deploy has behind it, and what each kind of failure leads to.
  */
module Endings {
  import opened Prelude
  import opened Lifecycle
  import opened Records
  import opened Conduct
  import Verification

  // ------------------------------------------------------- the checks

  /** Production may be touched. A rollback may redeploy what is running and is held to no budget. */
  predicate Cleared(d: Deployment, cfg: Config, script: Script) {
    && !script.frozen && script.providerFound && script.targetValid
    && (cfg.strategy.Canary? || cfg.strategy.BlueGreen? ==> script.canShift)
    && script.current.Some?
    && (!d.isRollback ==>
          && script.current.value != d.version && script.budget.Fine?
          && (cfg.promotes ==> script.promotion.Fine?))
  }

  /** If some gate asks for an approval, every gate opens. */
  predicate Approved(cfg: Config, script: Script) {
    (exists i :: 0 <= i < |cfg.gates| && cfg.gates[i] == Approval) ==>
      forall i :: 0 <= i < |cfg.gates| ==> script.gate(i).Fine?
  }

  /** The provider deploys, and a blue-green switch takes or is not supported. */
  predicate Landed(cfg: Config, script: Script) {
    && script.providerFound && script.deploy.Fine?
    && (cfg.strategy.BlueGreen? ==> !script.flip.ShiftFailed?)
  }

  /** Nothing is wrong with a canary's i-th step: traffic shifts, and a window is judged healthy. */
  predicate StepClean(cfg: Config, script: Script, i: nat)
    requires i < |cfg.steps|
  {
    && !script.cancelled(i)
    && (if cfg.steps[i].VerifyStep? then Verification.Judge(script.windows(i), cfg.policy) == Verification.Healthy
        else script.shifted(i))
  }

  /** Every window that verification meets is judged healthy. */
  predicate AllHealthy(cfg: Config, script: Script) {
    if cfg.strategy.Canary? then
      script.providerFound && forall i :: 0 <= i < |cfg.steps| ==> StepClean(cfg, script, i)
    else Verification.Judge(script.windows(0), cfg.policy) == Verification.Healthy
  }

  /** The step of a run that ends in state s has nothing against it. */
  predicate Passed(s: State, d: Deployment, cfg: Config, script: Script) {
    match s
    case Preflight => Cleared(d, cfg, script)
    case AwaitApproval => Approved(cfg, script)
    case Deploying => Landed(cfg, script)
    case Verifying => AllHealthy(cfg, script)
    case _ => true
  }

  predicate GoesWell(d: Deployment, cfg: Config, script: Script) {
    Cleared(d, cfg, script) && Approved(cfg, script) && Landed(cfg, script) && AllHealthy(cfg, script)
  }

  /**
    * The deploys of a run, whatever happens meanwhile: its own only once it was cleared and approved, the
    * planned rollback only where one is wanted and never in a rollback's own run.
    */
  predicate Warranted(calls: seq<Deploy>, d: Deployment, plan: Option<string>, cfg: Config, script: Script) {
    forall i :: 0 <= i < |calls| ==>
      && (calls[i].key == d.id ==> Cleared(d, cfg, script) && Approved(cfg, script))
      && (calls[i].key == d.id + ":rollback" ==>
            && !d.isRollback && cfg.automaticRollback && script.rollbackProvider
            && plan == Some(calls[i].version))
  }

  // ------------------------------------------------------- what goes wrong

  /** A window is judged, and not healthy: an unclear one is not held against the version. */
  predicate WindowFails(v: Verification.Verdict, cause: Cause) {
    v != Verification.Healthy && (cause == Inconclusive <==> v == Verification.Inconclusive) && cause != Blocked
  }

  /** A canary's i-th step is the first that is not clean. */
  predicate FirstUnclean(cfg: Config, script: Script, i: nat) {
    && i < |cfg.steps| && !StepClean(cfg, script, i)
    && forall j :: 0 <= j < i ==> StepClean(cfg, script, j)
  }

  predicate VerifyingFails(cfg: Config, script: Script, cause: Cause) {
    if !cfg.strategy.Canary? then WindowFails(Verification.Judge(script.windows(0), cfg.policy), cause)
    else exists i: nat ::
      && i < |cfg.steps| && FirstUnclean(cfg, script, i)
      && (if !script.cancelled(i) && cfg.steps[i].VerifyStep?
          then WindowFails(Verification.Judge(script.windows(i), cfg.policy), cause)
          else cause == Other)
  }

  /** What can go wrong once the provider has been asked to deploy. */
  predicate LateFailure(cfg: Config, script: Script, cause: Cause) {
    || script.deploy == Fails(cause)
    || (script.deploy.Fine? && cfg.strategy.BlueGreen? && script.flip.ShiftFailed? && cause == Other)
    || (Landed(cfg, script) && VerifyingFails(cfg, script, cause))
  }

  /** The target is frozen, or runs the version already. */
  predicate NothingToDeploy(d: Deployment, cfg: Config, script: Script) {
    || script.frozen
    || (script.providerFound && script.targetValid
        && (cfg.strategy.Canary? || cfg.strategy.BlueGreen? ==> script.canShift)
        && !d.isRollback && script.current == Some(d.version))
  }

  /** The i-th gate is consulted and is the first that does not open. */
  predicate FirstShut(cfg: Config, script: Script, i: nat, cause: Cause) {
    && (exists k :: 0 <= k < |cfg.gates| && cfg.gates[k] == Approval)
    && i < |cfg.gates| && script.gate(i) == Fails(cause)
    && forall j :: 0 <= j < i ==> script.gate(j).Fine?
  }

  predicate Rolls(d: Deployment, cause: Cause, cfg: Config) {
    !d.isRollback && cause == Other && cfg.automaticRollback
  }

  /** The previous version is back, and so is its traffic. */
  predicate BackAgain(cfg: Config, script: Script) {
    && script.rollbackProvider && script.rollbackDeploys
    && (cfg.strategy.Canary? || cfg.strategy.BlueGreen? ==> !script.rollbackShift.ShiftFailed?)
  }

  /** What an undisturbed run leaves: the row's state and error, and the deploys made. */
  ghost predicate AsItShould(d: Deployment, plan: Option<string>, cfg: Config, script: Script,
                       state: State, error: string, calls: seq<Deploy>)
  {
    && (state == Succeeded <==> d.state == Pending && GoesWell(d, cfg, script))
    && (state == Succeeded ==> calls == [Deploy(d.id, d.version)] && error == d.error)
    && ((exists i :: 0 <= i < |calls| && calls[i].key == d.id) <==>
          d.state == Pending && Cleared(d, cfg, script) && Approved(cfg, script))
    && (state != Succeeded && (script.leaseLost || d.state != Pending) ==> error == "failed")
    && (d.state == Pending && NothingToDeploy(d, cfg, script) && !script.leaseLost ==>
          && state == (if d.isRollback then RollbackFailed else Failed)
          && calls == [] && error == "blocked")
    && (forall i: nat, cause: Cause ::
          d.state == Pending && Cleared(d, cfg, script) && FirstShut(cfg, script, i, cause) && !script.leaseLost
            && !d.isRollback && cause != Other ==>
              state == Failed && calls == [] && Says(error, cause))
    && (forall cause: Cause ::
          d.state == Pending && Cleared(d, cfg, script) && Approved(cfg, script) && LateFailure(cfg, script, cause) ==>
            FailsLate(d, plan, cfg, script, if script.leaseLost then Other else cause, state, error, calls))
  }

  /** What the row says of a failure. */
  predicate Says(error: string, cause: Cause) {
    match cause
    case Blocked => error == "blocked"
    case Inconclusive => error == "verification inconclusive"
    case Other => error == "failed"
  }

  /** A failure after the deploy: rolled back if it is to be and there is something to go back to. */
  predicate FailsLate(d: Deployment, plan: Option<string>, cfg: Config, script: Script, cause: Cause,
                      state: State, error: string, calls: seq<Deploy>)
  {
    && Says(error, cause)
    && (if Rolls(d, cause, cfg) && plan.Some? then
          && state == (if BackAgain(cfg, script) then RolledBack else RollbackFailed)
          && calls == [Deploy(d.id, d.version)]
                      + (if script.rollbackProvider then [Deploy(d.id + ":rollback", plan.value)] else [])
        else
          && state == (if d.isRollback || Rolls(d, cause, cfg) then RollbackFailed else Failed)
          && calls == [Deploy(d.id, d.version)])
  }

  // ------------------------------------------------------- what the steps' results say

  lemma PreflightMeans(d: Deployment, cfg: Config, script: Script)
    ensures PreflightResult(d, cfg, script).Fine? <==> Cleared(d, cfg, script)
    ensures NothingToDeploy(d, cfg, script) ==> PreflightResult(d, cfg, script) == Fails(Blocked)
  {
  }

  lemma {:induction false} GatesMean(cfg: Config, script: Script, i: nat)
    requires i <= |cfg.gates| && forall j :: 0 <= j < i ==> script.gate(j).Fine?
    ensures GatesFrom(cfg.gates, script.gate, i).Fine? <==> forall j :: 0 <= j < |cfg.gates| ==> script.gate(j).Fine?
    ensures forall k: nat, cause: Cause :: FirstShut(cfg, script, k, cause) ==>
              GatesFrom(cfg.gates, script.gate, i) == Fails(cause)
    decreases |cfg.gates| - i
  {
    if i < |cfg.gates| && script.gate(i).Fine? {
      GatesMean(cfg, script, i + 1);
    } else {
      forall k: nat, cause: Cause | FirstShut(cfg, script, k, cause) ensures k == i {
        assert k < i ==> script.gate(k).Fine?;
        assert i < k ==> script.gate(i).Fine?;
      }
    }
  }

  lemma ApprovalMeans(d: Deployment, cfg: Config, script: Script)
    ensures Outcome(d, AwaitApproval, cfg, script).Fine? <==> Approved(cfg, script)
    ensures forall k: nat, cause: Cause :: FirstShut(cfg, script, k, cause) ==>
              Outcome(d, AwaitApproval, cfg, script) == Fails(cause)
  {
    hide FirstShut, GatesFrom;
    GatesMean(cfg, script, 0);
    assert cfg.NeedsApproval() <==> exists i :: 0 <= i < |cfg.gates| && cfg.gates[i] == Approval;
    if !cfg.NeedsApproval() {
      forall k: nat, cause: Cause ensures !FirstShut(cfg, script, k, cause) {
        NoneShut(cfg, script, k, cause);
      }
    }
  }

  lemma NoneShut(cfg: Config, script: Script, k: nat, cause: Cause)
    ensures FirstShut(cfg, script, k, cause) ==> cfg.NeedsApproval()
  {
  }

  lemma DeployMeans(cfg: Config, script: Script)
    ensures DeployResult(cfg, script).Fine? <==> Landed(cfg, script)
  {
  }

  lemma StepMeans(cfg: Config, script: Script, i: nat)
    requires i < |cfg.steps|
    ensures CanaryStepResult(cfg, script, i).Fine? <==> StepClean(cfg, script, i)
    ensures CanaryStepResult(cfg, script, i) != Fails(Blocked)
    ensures CanaryStepResult(cfg, script, i) == Fails(Inconclusive) <==>
              !script.cancelled(i) && cfg.steps[i].VerifyStep?
              && Verification.Judge(script.windows(i), cfg.policy) == Verification.Inconclusive
  {
    hide Verification.Judge;
  }

  lemma {:induction false} CanaryMeans(cfg: Config, script: Script, i: nat)
    requires i <= |cfg.steps| && forall j :: 0 <= j < i ==> StepClean(cfg, script, j)
    ensures CanaryFrom(cfg, script, i).Fine? <==> forall j :: 0 <= j < |cfg.steps| ==> StepClean(cfg, script, j)
    ensures forall k: nat :: FirstUnclean(cfg, script, k) ==>
              CanaryFrom(cfg, script, i) == CanaryStepResult(cfg, script, k)
    decreases |cfg.steps| - i
  {
    hide StepClean, CanaryStepResult;
    if i < |cfg.steps| {
      StepMeans(cfg, script, i);
      if StepClean(cfg, script, i) {
        CanaryMeans(cfg, script, i + 1);
      } else {
        forall k: nat | FirstUnclean(cfg, script, k) ensures k == i {
          assert !StepClean(cfg, script, k);
        }
      }
    }
  }

  /** On each step what its results say. */
  lemma PassedMeans(s: State, d: Deployment, cfg: Config, script: Script)
    requires s in STEPS
    ensures Outcome(d, s, cfg, script).Fine? <==> Passed(s, d, cfg, script)
  {
    hide PreflightResult, GatesFrom, DeployResult, VerifyResult, Cleared, Approved, Landed, AllHealthy;
    PreflightMeans(d, cfg, script);
    ApprovalMeans(d, cfg, script);
    DeployMeans(cfg, script);
    if s == Verifying {
      VerifyMeans(cfg, script);
    }
  }

  lemma VerifyMeans(cfg: Config, script: Script)
    ensures VerifyResult(cfg, script).Fine? <==> AllHealthy(cfg, script)
    ensures forall cause: Cause :: script.providerFound && VerifyingFails(cfg, script, cause) ==>
              VerifyResult(cfg, script) == Fails(cause)
  {
    hide CanaryStepResult, CanaryFrom, StepClean, Verification.Judge;
    if cfg.strategy.Canary? {
      CanaryMeans(cfg, script, 0);
      forall i: nat, cause: Cause |
        && i < |cfg.steps| && FirstUnclean(cfg, script, i)
        && (if !script.cancelled(i) && cfg.steps[i].VerifyStep?
            then WindowFails(Verification.Judge(script.windows(i), cfg.policy), cause)
            else cause == Other)
          && script.providerFound
        ensures VerifyResult(cfg, script) == Fails(cause)
      {
        StepMeans(cfg, script, i);
      }
    }
  }

  // ------------------------------------------------------- the ending, as it should be

  lemma FourSteps(d: Deployment, cfg: Config, script: Script)
    ensures var f := FirstFailure(d, 0, cfg, script);
            && (f == 0 <==> !Cleared(d, cfg, script))
            && (f == 1 <==> Cleared(d, cfg, script) && !Approved(cfg, script))
            && (f == 2 <==> Cleared(d, cfg, script) && Approved(cfg, script) && !Landed(cfg, script))
            && (f == 3 <==>
                  Cleared(d, cfg, script) && Approved(cfg, script) && Landed(cfg, script) && !AllHealthy(cfg, script))
            && (f == 5 <==> GoesWell(d, cfg, script))
            && (f < 5 ==> Outcome(d, STEPS[f], cfg, script).Fails?)
  {
    hide Outcome, Cleared, Approved, Landed, AllHealthy, FirstFailure;
    StepsAre();
    FirstIs(d, 0, cfg, script);
    FirstIs(d, 1, cfg, script);
    FirstIs(d, 2, cfg, script);
    FirstIs(d, 3, cfg, script);
    FirstIs(d, 4, cfg, script);
    PassedMeans(Preflight, d, cfg, script);
    PassedMeans(AwaitApproval, d, cfg, script);
    PassedMeans(Deploying, d, cfg, script);
    NeedsProvider(d, cfg, script);
    if Cleared(d, cfg, script) {
      PassedMeans(Verifying, d, cfg, script);
    }
    NothingToPromote(d, cfg, script);
  }

  lemma StepsAre()
    ensures STEPS == [Preflight, AwaitApproval, Deploying, Verifying, Promoting]
  {
  }

  lemma NeedsProvider(d: Deployment, cfg: Config, script: Script)
    ensures Cleared(d, cfg, script) ==> script.providerFound
    ensures FirstFailure(d, 5, cfg, script) == 5
  {
  }

  lemma NothingToPromote(d: Deployment, cfg: Config, script: Script)
    ensures Outcome(d, Promoting, cfg, script).Fine?
  {
  }

  /** An undisturbed run ends as it should. */
  lemma EndsAsItShould(d: Deployment, plan: Option<string>, cfg: Config, script: Script)
    requires !IsTerminal(d.state)
    ensures var e := RunEnding(d, plan, cfg, script); AsItShould(d, plan, cfg, script, e.state, e.error, e.deploys)
  {
    hide GoesWell, Cleared, Approved, RunEnding, NothingToDeploy, FirstShut, LateFailure, FailsLate, Says;
    EndsWell(d, plan, cfg, script);
    OwnDeployWhenCleared(d, plan, cfg, script);
    EndsBlocked(d, plan, cfg, script);
    forall i: nat, cause: Cause |
      d.state == Pending && Cleared(d, cfg, script) && FirstShut(cfg, script, i, cause) && !script.leaseLost
        && !d.isRollback && cause != Other
      ensures var e := RunEnding(d, plan, cfg, script);
              e.state == Failed && e.deploys == [] && Says(e.error, cause)
    {
      EndsAtGate(d, plan, cfg, script, i, cause);
    }
    forall cause: Cause |
      d.state == Pending && Cleared(d, cfg, script) && Approved(cfg, script) && LateFailure(cfg, script, cause)
      ensures var e := RunEnding(d, plan, cfg, script);
              FailsLate(d, plan, cfg, script, if script.leaseLost then Other else cause, e.state, e.error, e.deploys)
    {
      EndsLate(d, plan, cfg, script, cause);
    }
  }

  lemma EndsWell(d: Deployment, plan: Option<string>, cfg: Config, script: Script)
    requires !IsTerminal(d.state)
    ensures var e := RunEnding(d, plan, cfg, script);
            && (e.state == Succeeded <==> d.state == Pending && GoesWell(d, cfg, script))
            && (e.state == Succeeded ==> e.deploys == [Deploy(d.id, d.version)] && e.error == d.error)
            && (e.state != Succeeded && (script.leaseLost || d.state != Pending) ==> e.error == "failed")
  {
    hide Outcome, GoesWell, FirstFailure, AfterFailure, Redeploys, DeploysBy, Cleared, Approved, Landed, AllHealthy,
         STEPS;
    FourSteps(d, cfg, script);
    StepsAre();
    forall s, cause | s != Succeeded ensures AfterFailure(s, d.isRollback, cause, plan, cfg, script) != Succeeded {
      NoSuccess(s, d.isRollback, cause, plan, cfg, script);
    }
  }

  lemma NoSuccess(s: State, isRollback: bool, cause: Cause, plan: Option<string>, cfg: Config, script: Script)
    requires s != Succeeded
    ensures AfterFailure(s, isRollback, cause, plan, cfg, script) != Succeeded
  {
    hide CanTransition, RollbackWorks;
  }

  /** The keys of a run's two deploys differ, and a key without a colon is no rollback's. */
  lemma KeysDiffer(id: string, id': string)
    ensures RollbackKey(id) != id
    ensures RollbackKey(id) == RollbackKey(id') <==> id == id'
    ensures ':' !in id' ==> RollbackKey(id) != id'
  {
    assert RollbackKey(id)[..|id|] == id && RollbackKey(id')[..|id'|] == id';
    assert RollbackKey(id)[|id|] == ':';
    if RollbackKey(id) == RollbackKey(id') {
      assert |RollbackKey(id)| == |id| + 9 && |RollbackKey(id')| == |id'| + 9;
    }
  }

  /** The deploys behind a step, and perhaps a rollback's. */
  lemma WarrantedSo(calls: seq<Deploy>, calls': seq<Deploy>, d: Deployment, plan: Option<string>, cfg: Config,
                    script: Script)
    requires calls == [] || (calls == [OwnDeploy(d)] && Cleared(d, cfg, script) && Approved(cfg, script))
    requires calls' == calls
             || (!d.isRollback && cfg.automaticRollback && script.rollbackProvider && plan.Some?
                 && calls' == calls + [RollbackDeploy(d.id, plan)])
    ensures Warranted(calls', d, plan, cfg, script) && OnceEach(calls', OwnDeploy(d), RollbackDeploy(d.id, plan))
  {
    hide Cleared, Approved;
    KeysDiffer(d.id, d.id);
  }

  lemma PassedAt(k: nat, d: Deployment, cfg: Config, script: Script)
    requires k < 5 && Passed(STEPS[k], d, cfg, script)
    ensures (k == 0 ==> Cleared(d, cfg, script)) && (k == 1 ==> Approved(cfg, script))
    ensures (k == 2 ==> Landed(cfg, script) && script.providerFound) && (k == 3 ==> AllHealthy(cfg, script))
  {
    hide Cleared, Approved, AllHealthy;
  }

  lemma CanAbort(s: State)
    ensures !IsTerminal(s) ==> (CanTransition(s, Aborted) <==> s != RollingBack)
  {
  }

  lemma NothingCalled(d: Deployment, plan: Option<string>, cfg: Config, script: Script)
    ensures Warranted([], d, plan, cfg, script) && OnceEach([], OwnDeploy(d), RollbackDeploy(d.id, plan))
  {
  }

  lemma SameWarrants(d: Deployment, d': Deployment, calls: seq<Deploy>, plan: Option<string>, cfg: Config,
                     script: Script)
    requires d'.id == d.id && d'.version == d.version && d'.isRollback == d.isRollback
    ensures Warranted(calls, d', plan, cfg, script) <==> Warranted(calls, d, plan, cfg, script)
    ensures GoesWell(d', cfg, script) <==> GoesWell(d, cfg, script)
    ensures OwnDeploy(d') == OwnDeploy(d)
  {
    hide Approved, Landed, AllHealthy;
  }

  lemma NobodyAsked(cfg: Config, script: Script)
    requires !cfg.NeedsApproval()
    ensures Approved(cfg, script)
  {
  }

  /** The checks look at nothing of the row that a run changes. */
  lemma SameChecks(d: Deployment, d': Deployment, cfg: Config, script: Script)
    requires d'.version == d.version && d'.isRollback == d.isRollback
    ensures Cleared(d', cfg, script) <==> Cleared(d, cfg, script)
  {
  }

  lemma OwnDeployWhenCleared(d: Deployment, plan: Option<string>, cfg: Config, script: Script)
    requires !IsTerminal(d.state)
    ensures var calls := RunEnding(d, plan, cfg, script).deploys;
            (exists i :: 0 <= i < |calls| && calls[i].key == d.id) <==>
              d.state == Pending && Cleared(d, cfg, script) && Approved(cfg, script)
  {
    hide Outcome, GoesWell, FirstFailure, AfterFailure, Redeploys, Cleared, Approved, Landed, AllHealthy, STEPS,
         RollbackKey, Explain, CauseAt;
    FourSteps(d, cfg, script);
    KeysDiffer(d.id, d.id);
    NeedsProvider(d, cfg, script);
    var calls := RunEnding(d, plan, cfg, script).deploys;
    if d.state == Pending && Cleared(d, cfg, script) && Approved(cfg, script) {
      assert calls[0] == OwnDeploy(d);
    }
  }

  lemma EndsBlocked(d: Deployment, plan: Option<string>, cfg: Config, script: Script)
    ensures d.state == Pending && NothingToDeploy(d, cfg, script) && !script.leaseLost ==>
      RunEnding(d, plan, cfg, script) == Ending(if d.isRollback then RollbackFailed else Failed, [], "blocked")
  {
    hide FirstFailure, Landed, AllHealthy, PreflightResult;
    if d.state == Pending && NothingToDeploy(d, cfg, script) && !script.leaseLost {
      PreflightMeans(d, cfg, script);
      FourSteps(d, cfg, script);
    }
  }

  lemma EndsAtGate(d: Deployment, plan: Option<string>, cfg: Config, script: Script, i: nat, cause: Cause)
    requires d.state == Pending && Cleared(d, cfg, script) && FirstShut(cfg, script, i, cause)
    requires !script.leaseLost && !d.isRollback && cause != Other
    ensures var e := RunEnding(d, plan, cfg, script);
            e.state == Failed && e.deploys == [] && Says(e.error, cause)
  {
    hide FirstFailure, Landed, AllHealthy, Cleared, FirstShut, Approved, Outcome, STEPS;
    ApprovalMeans(d, cfg, script);
    FourSteps(d, cfg, script);
    StepsAre();
  }

  lemma LateFails(d: Deployment, cfg: Config, script: Script, cause: Cause)
    requires Cleared(d, cfg, script) && Approved(cfg, script) && LateFailure(cfg, script, cause)
    ensures var f := FirstFailure(d, 0, cfg, script);
            f in {2, 3} && Outcome(d, STEPS[f], cfg, script) == Fails(cause)
  {
    hide FirstFailure, Cleared, Approved, VerifyResult, AllHealthy, VerifyingFails, STEPS;
    FourSteps(d, cfg, script);
    StepsAre();
    NeedsProvider(d, cfg, script);
    VerifyMeans(cfg, script);
  }

  lemma EndsLate(d: Deployment, plan: Option<string>, cfg: Config, script: Script, cause: Cause)
    requires d.state == Pending
    requires Cleared(d, cfg, script) && Approved(cfg, script) && LateFailure(cfg, script, cause)
    ensures var e := RunEnding(d, plan, cfg, script);
            FailsLate(d, plan, cfg, script, if script.leaseLost then Other else cause, e.state, e.error, e.deploys)
  {
    hide FirstFailure, Outcome, Approved, LateFailure, STEPS, AfterFailure, Redeploys, FailsLate, RollbackWorks,
         Cleared;
    LateFails(d, cfg, script, cause);
    StepsAre();
    NeedsProvider(d, cfg, script);
    assert [] + [OwnDeploy(d)] == [OwnDeploy(d)];
    FailedLate(d, STEPS[FirstFailure(d, 0, cfg, script)], plan, cfg, script, if script.leaseLost then Other else cause);
  }

  lemma FailedLate(d: Deployment, s: State, plan: Option<string>, cfg: Config, script: Script, cause: Cause)
    requires s in {Deploying, Verifying}
    ensures var e := EndAfterFailure(d.id, s, [OwnDeploy(d)], d.isRollback, cause, plan, cfg, script);
            FailsLate(d, plan, cfg, script, cause, e.state, e.error, e.deploys)
  {
    assert d.id + ":rollback" == RollbackKey(d.id);
  }
}
