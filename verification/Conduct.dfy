/**
  * What a run of the executor may do and where it ends: its configuration, what the environment
  * answers, the trace it leaves, and the ending of a run that nobody disturbs.
  */
module Conduct {
  import opened Prelude
  import opened Lifecycle
  import opened Records
  import opened AuditChain
  import opened Decisions
  import opened Worlds
  import opened Notices
  import Rollbacks
  import Verification

  datatype Strategy = Recreate | Rolling | BlueGreen | Canary

  datatype CanaryStep = SetWeight(weight: int) | VerifyStep

  datatype Gate = Approval | Schedule | Freeze

  datatype Config = Config(
    gates: seq<Gate>, strategy: Strategy, steps: seq<CanaryStep>, policy: Verification.Policy,
    promotes: bool, automaticRollback: bool, checkFloor: bool, manifests: Rollbacks.Source,
    notifiers: seq<string>, node: string)
  {
    /** Gates are consulted only if one of them asks for an approval. */
    predicate NeedsApproval() {
      exists i :: 0 <= i < |gates| && gates[i] == Approval
    }
  }

  /** The loader's rule for a canary: the last step sets the weight to 100. */
  predicate LoaderAccepts(cfg: Config) {
    if cfg.strategy.Canary? then |cfg.steps| > 0 && cfg.steps[|cfg.steps| - 1] == SetWeight(100)
    else cfg.steps == []
  }

  /** How handleFailure tells failures apart. */
  datatype Cause = Blocked | Inconclusive | Other

  datatype StepResult = Fine | Fails(cause: Cause)

  datatype ShiftResult = Shifted | Unsupported | ShiftFailed

  /**
    * What the environment answers during a run. A canary's i-th step is cancelled, shifts its
    * traffic or meets the i-th window of ticks; a bake meets the first window.
    */
  datatype Script = Script(
    leaseLost: bool,
    frozen: bool, providerFound: bool, targetValid: bool, canShift: bool, current: Option<string>,
    budget: StepResult, promotion: StepResult, gate: nat -> StepResult,
    deploy: StepResult, handle: string, flip: ShiftResult,
    windows: nat -> seq<Verification.Tick>, cancelled: nat -> bool, shifted: nat -> bool,
    rollbackProvider: bool, rollbackDeploys: bool, rollbackShift: ShiftResult)

  // ------------------------------------------------------- reading a trace

  /** A provider deploy: its idempotency key and the version deployed. */
  datatype Deploy = Deploy(key: string, version: string)

  /** The provider deploys, in order. */
  function Calls(t: seq<Event>): seq<Deploy> {
    if t == [] then []
    else Calls(t[..|t| - 1]) + (if t[|t| - 1].DeployCalled? then [Deploy(t[|t| - 1].key, t[|t| - 1].version)] else [])
  }

  function LastAccepted(t: seq<Event>): Option<Event> {
    if t == [] then None
    else if t[|t| - 1].Accepted? then Some(t[|t| - 1])
    else LastAccepted(t[..|t| - 1])
  }

  /** The calls, and one more if it was made. */
  function With(calls: seq<Deploy>, made: bool, d: Deploy): seq<Deploy> {
    if made then calls + [d] else calls
  }

  /** The traffic weight last put in place. */
  function LastWeight(t: seq<Event>): Option<int> {
    if t == [] then None
    else if t[|t| - 1].ShiftCalled? && t[|t| - 1].took then Some(t[|t| - 1].weight)
    else LastWeight(t[..|t| - 1])
  }

  function RollbackKey(id: string): string {
    id + ":rollback"
  }

  /** The deploy of a run: its own version under its own id. */
  function OwnDeploy(d: Deployment): Deploy {
    Deploy(d.id, d.version)
  }

  /** The deploy of a run's rollback: the planned version under the rollback key. */
  function RollbackDeploy(id: string, plan: Option<string>): Deploy {
    Deploy(RollbackKey(id), if plan.Some? then plan.value else "")
  }

  /** The state whose commit licenses a provider deploy under a key. */
  predicate Licenses(to: State, key: string, id: string) {
    (to == Deploying && key == id) || (to == RollingBack && key == RollbackKey(id))
  }

  /** The deploy carries the fence of the latest accepted transition, journalled before it, into the right state. */
  predicate Backed(before: seq<Event>, e: Event, id: string)
    requires e.DeployCalled?
  {
    var a := LastAccepted(before);
    && a.Some? && a.value.Accepted? && a.value.id == id
    && a.value.fence == e.fence && a.value.position < e.journaled
    && Licenses(a.value.to, e.key, id)
  }

  /** Every provider deploy of a trace is backed. */
  predicate PersistFirst(t: seq<Event>, id: string) {
    t == [] || (PersistFirst(t[..|t| - 1], id)
                && (t[|t| - 1].DeployCalled? ==> Backed(t[..|t| - 1], t[|t| - 1], id)))
  }

  lemma Append(t: seq<Event>, e: Event, id: string)
    ensures Calls(t + [e]) == Calls(t) + (if e.DeployCalled? then [Deploy(e.key, e.version)] else [])
    ensures LastAccepted(t + [e]) == if e.Accepted? then Some(e) else LastAccepted(t)
    ensures LastWeight(t + [e]) == if e.ShiftCalled? && e.took then Some(e.weight) else LastWeight(t)
    ensures PersistFirst(t + [e], id) <==> PersistFirst(t, id) && (e.DeployCalled? ==> Backed(t, e, id))
  {
    assert (t + [e])[..|t|] == t;
  }

  /** The latest accepted transition is one of the trace's events. */
  lemma {:induction false} LastIsOne(t: seq<Event>)
    ensures LastAccepted(t).Some? ==> LastAccepted(t).value in t && LastAccepted(t).value.Accepted?
  {
    if t != [] && !t[|t| - 1].Accepted? {
      LastIsOne(t[..|t| - 1]);
    }
  }

  // ------------------------------------------------------- where a run ends

  const STEPS: seq<State> := [Preflight, AwaitApproval, Deploying, Verifying, Promoting]

  predicate Shifts(cfg: Config) {
    cfg.strategy.Canary? || cfg.strategy.BlueGreen?
  }

  /** The checks before production is touched, in order; a rollback may redeploy what is running. */
  function PreflightResult(d: Deployment, cfg: Config, script: Script): StepResult {
    if script.frozen then Fails(Blocked)
    else if !script.providerFound || !script.targetValid then Fails(Other)
    else if Shifts(cfg) && !script.canShift then Fails(Other)
    else if script.current.None? then Fails(Other)
    else if d.isRollback then Fine
    else if script.current.value == d.version then Fails(Blocked)
    else if script.budget.Fails? then script.budget
    else if cfg.promotes then script.promotion
    else Fine
  }

  /** The first gate from the i-th on that fails decides. */
  function GatesFrom(gates: seq<Gate>, gate: nat -> StepResult, i: nat): StepResult
    decreases |gates| - i
  {
    if i >= |gates| then Fine
    else if gate(i).Fails? then gate(i)
    else GatesFrom(gates, gate, i + 1)
  }

  function DeployResult(cfg: Config, script: Script): StepResult {
    if !script.providerFound then Fails(Other)
    else if script.deploy.Fails? then script.deploy
    else if cfg.strategy.BlueGreen? && script.flip.ShiftFailed? then Fails(Other)
    else Fine
  }

  /** How a verdict is acted on: an unclear one fails without being held against the version. */
  function OnVerdict(v: Verification.Verdict): StepResult {
    match v
    case Healthy => Fine
    case Inconclusive => Fails(Inconclusive)
    case _ => Fails(Other)
  }

  function WindowResult(cfg: Config, script: Script, i: nat): StepResult {
    OnVerdict(Verification.Judge(script.windows(i), cfg.policy))
  }

  function CanaryStepResult(cfg: Config, script: Script, i: nat): StepResult
    requires i < |cfg.steps|
  {
    if script.cancelled(i) then Fails(Other)
    else if cfg.steps[i].VerifyStep? then WindowResult(cfg, script, i)
    else if script.shifted(i) then Fine
    else Fails(Other)
  }

  /** Outcome of a canary's steps from the i-th on: the first that fails decides. */
  function CanaryFrom(cfg: Config, script: Script, i: nat): StepResult
    decreases |cfg.steps| - i
  {
    if i >= |cfg.steps| then Fine
    else if CanaryStepResult(cfg, script, i).Fails? then CanaryStepResult(cfg, script, i)
    else CanaryFrom(cfg, script, i + 1)
  }

  function VerifyResult(cfg: Config, script: Script): StepResult {
    if !cfg.strategy.Canary? then WindowResult(cfg, script, 0)
    else if !script.providerFound then Fails(Other)
    else CanaryFrom(cfg, script, 0)
  }

  /** What the environment makes of a step of the deployment's run, when the store takes every write. */
  function Outcome(d: Deployment, s: State, cfg: Config, script: Script): StepResult {
    match s
    case Preflight => PreflightResult(d, cfg, script)
    case AwaitApproval => if cfg.NeedsApproval() then GatesFrom(cfg.gates, script.gate, 0) else Fine
    case Deploying => DeployResult(cfg, script)
    case Verifying => VerifyResult(cfg, script)
    case _ => Fine
  }

  lemma SameOutcome(d: Deployment, d': Deployment, s: State, cfg: Config, script: Script)
    requires d'.version == d.version && d'.isRollback == d.isRollback
    ensures Outcome(d', s, cfg, script) == Outcome(d, s, cfg, script)
  {
    hide GatesFrom, DeployResult, VerifyResult;
  }

  /** The first step from the k-th on that fails; five when all succeed. */
  function FirstFailure(d: Deployment, k: nat, cfg: Config, script: Script): (f: nat)
    requires k <= 5
    ensures k <= f <= 5 && (f < 5 ==> Outcome(d, STEPS[f], cfg, script).Fails?)
    decreases 5 - k
  {
    if k == 5 || Outcome(d, STEPS[k], cfg, script).Fails? then k else FirstFailure(d, k + 1, cfg, script)
  }

  /** The state a run from PENDING is in when it comes to its k-th step. */
  function Before(k: nat, cfg: Config): State
    requires k <= 5
  {
    if k == 0 then Pending
    else if k == 2 && !cfg.NeedsApproval() then Preflight
    else STEPS[k - 1]
  }

  function MoveTo(s: State, to: State): State {
    if CanTransition(s, to) then to else s
  }

  /** Whether a rollback that has been started works. */
  predicate RollbackWorks(cfg: Config, script: Script) {
    script.rollbackProvider && script.rollbackDeploys && (Shifts(cfg) ==> !script.rollbackShift.ShiftFailed?)
  }

  /** The state a failure in state s ends in, when the lease stays live; plan is the version to go back to. */
  function AfterFailure(s: State, isRollback: bool, cause: Cause, plan: Option<string>,
                        cfg: Config, script: Script): State
  {
    if isRollback then MoveTo(s, RollbackFailed)
    else if cause != Other || !cfg.automaticRollback then MoveTo(s, Failed)
    else if plan.None? then MoveTo(s, RollbackFailed)
    else if !CanTransition(s, RollingBack) then s
    else if RollbackWorks(cfg, script) then RolledBack
    else RollbackFailed
  }

  /** Whether that failure leads to a second provider deploy. */
  predicate Redeploys(s: State, isRollback: bool, cause: Cause, plan: Option<string>, cfg: Config, script: Script) {
    && !isRollback && cause == Other && cfg.automaticRollback && plan.Some?
    && CanTransition(s, RollingBack) && script.rollbackProvider
  }

  function Lost(script: Script, cause: Cause): Cause {
    if script.leaseLost then Other else cause
  }

  /** What is recorded as the reason of a failure. */
  function Explain(cause: Cause): string {
    match cause
    case Blocked => "blocked"
    case Inconclusive => "verification inconclusive"
    case Other => "failed"
  }

  /** Where an undisturbed run leaves the row, and the provider deploys it makes. */
  datatype Ending = Ending(state: State, deploys: seq<Deploy>, error: string)

  function EndAfterFailure(id: string, s: State, deployed: seq<Deploy>, isRollback: bool, cause: Cause,
                           plan: Option<string>, cfg: Config, script: Script): Ending
  {
    Ending(AfterFailure(s, isRollback, cause, plan, cfg, script),
           With(deployed, Redeploys(s, isRollback, cause, plan, cfg, script), RollbackDeploy(id, plan)),
           Explain(cause))
  }

  /** The deploys made once the k-th step is behind, or fails when the k-th is DEPLOYING. */
  function DeploysBy(dep: Deployment, k: nat, script: Script): seq<Deploy> {
    With([], k >= 2 && script.providerFound, OwnDeploy(dep))
  }

  /** Why the k-th step fails. */
  function CauseAt(d: Deployment, k: nat, cfg: Config, script: Script): Cause
    requires k < 5 && Outcome(d, STEPS[k], cfg, script).Fails?
  {
    Lost(script, Outcome(d, STEPS[k], cfg, script).cause)
  }

  function RunEnding(dep: Deployment, plan: Option<string>, cfg: Config, script: Script): Ending {
    if dep.state != Pending then EndAfterFailure(dep.id, dep.state, [], dep.isRollback, Other, plan, cfg, script)
    else
      var f := FirstFailure(dep, 0, cfg, script);
      if f == 5 then Ending(Succeeded, [OwnDeploy(dep)], dep.error)
      else
        EndAfterFailure(dep.id, STEPS[f], DeploysBy(dep, f, script), dep.isRollback,
                        CauseAt(dep, f, cfg, script), plan, cfg, script)
  }

  // ------------------------------------------------------- the plan

  /** The version that planning a rollback answers with on the rows of a log. */
  function PlanOf(log: seq<Change>, dep: Deployment, cfg: Config): Option<string> {
    match Rollbacks.PlanRollback(ApplyAll(EMPTY_INDEX, log), dep, cfg.checkFloor, cfg.manifests)
    case Ok(target) => Some(target.version)
    case Err(_) => None
  }

  /** An index that a log records plans as the log does. */
  lemma PlanAt(ix: Index, log: seq<Change>, dep: Deployment, cfg: Config)
    requires Recorded(ix, log)
    ensures PlanOf(log, dep, cfg) ==
            match Rollbacks.PlanRollback(ix, dep, cfg.checkFloor, cfg.manifests)
            case Ok(target) => Some(target.version)
            case Err(_) => None
  {
    hide ApplyAll, Rollbacks.FloorRefusal;
  }

  lemma SamePlan(log: seq<Change>, d: Deployment, d': Deployment, cfg: Config)
    requires d'.id == d.id && d'.app == d.app && d'.environment == d.environment && d'.version == d.version
    ensures PlanOf(log, d', cfg) == PlanOf(log, d, cfg)
  {
    hide ApplyAll, Rollbacks.LastBefore;
  }

  /** A planned version is that of the greatest earlier success of the target, and going back to it is safe. */
  lemma PlannedIsSafe(log: seq<Change>, dep: Deployment, cfg: Config)
    requires var ix := ApplyAll(EMPTY_INDEX, log); Rollbacks.Ascending(ix.deployments, ix.order)
    ensures PlanOf(log, dep, cfg).Some? ==>
              exists target ::
                && Rollbacks.Target(ApplyAll(EMPTY_INDEX, log), dep, target)
                && PlanOf(log, dep, cfg) == Some(target.version)
                && (cfg.checkFloor && cfg.manifests.Some? ==> Rollbacks.Safe(dep, target, cfg.manifests.value))
  {
    hide ApplyAll, Rollbacks.Ascending, Rollbacks.Target, Rollbacks.Safe, Rollbacks.PlanRollback;
    Rollbacks.PlansAreSafe(ApplyAll(EMPTY_INDEX, log), dep, cfg.checkFloor, cfg.manifests);
  }

  // ------------------------------------------------------- moving a row

  /** The fields of a row that tell whose run it is. */
  predicate SameRun(d: Deployment, d': Deployment) {
    && d'.id == d.id && d'.fence == d.fence && d'.app == d.app && d'.environment == d.environment
    && d'.isRollback == d.isRollback && d'.version == d.version
  }

  /** The same but for how the executor classifies the deployment. */
  predicate SameButKind(d: Deployment, d': Deployment) {
    SameRun(d, d'.(isRollback := d.isRollback))
  }

  function Lowered(s: string): (t: string)
    ensures |t| == |s|
    ensures forall i :: 0 <= i < |s| ==> t[i] == if 'A' <= s[i] <= 'Z' then s[i] + 32 as char else s[i]
  {
    if s == "" then ""
    else [if 'A' <= s[0] <= 'Z' then s[0] + 32 as char else s[0]] + Lowered(s[1..])
  }

  /** The audit entry of a transition. */
  function MoveDraft(d: Deployment, to: State, reason: string, now: Time): Draft {
    var detail := map["deployment" := d.id, "version" := d.version,
                      "from" := StateName(d.state), "to" := StateName(to)];
    Draft(now, d.triggeredBy, "deployment." + Lowered(StateName(to)), d.Resource(),
          if reason == "" then detail else detail["reason" := reason])
  }

  function MoveNotes(d: Deployment, to: State, payload: string, notifiers: seq<string>): (notes: seq<OutboxEntry>)
    ensures OneEach(notes, d.id, to, notifiers)
  {
    seq(|notifiers|, i requires 0 <= i < |notifiers| =>
      OutboxEntry(0, 0, notifiers[i], payload, 0, 0, None, "", NoteKey(d.id, to, notifiers[i])))
  }

  function MoveOp(d: Deployment, to: State, reason: string, now: Time, notifiers: seq<string>): (op: Op)
    ensures op.Transition? && op.id == d.id && op.fence == d.fence && op.from == d.state && op.to == to
    ensures Announces(op, notifiers)
  {
    Transition(d.id, d.fence, d.state, to, Some(MoveDraft(d, to, reason, now)), MoveNotes(d, to, reason, notifiers))
  }

  lemma SameEnding(d: Deployment, d': Deployment, plan: Option<string>, cfg: Config, script: Script)
    requires d'.id == d.id && d'.state == d.state && d'.isRollback == d.isRollback
    requires d'.version == d.version && d'.error == d.error
    ensures RunEnding(d', plan, cfg, script) == RunEnding(d, plan, cfg, script)
  {
    hide Outcome, AfterFailure, Redeploys;
    SameFailure(d, d', 0, cfg, script);
    forall s ensures Outcome(d', s, cfg, script) == Outcome(d, s, cfg, script) {
      SameOutcome(d, d', s, cfg, script);
    }
  }

  lemma {:induction false} SameFailure(d: Deployment, d': Deployment, k: nat, cfg: Config, script: Script)
    requires d'.version == d.version && d'.isRollback == d.isRollback && k <= 5
    ensures FirstFailure(d', k, cfg, script) == FirstFailure(d, k, cfg, script)
    decreases 5 - k
  {
    hide Outcome;
    if k < 5 {
      SameOutcome(d, d', STEPS[k], cfg, script);
      SameFailure(d, d', k + 1, cfg, script);
    }
  }

  predicate Moving(e: Event, id: string, to: State) {
    e.Accepted? && e.id == id && e.to == to
  }

  predicate OneLonger(t: seq<Event>, t': seq<Event>) {
    |t'| == |t| + 1 && t'[..|t|] == t
  }

  // ------------------------------------------------------- what endings say

  /** The failures whose every follow-up transition the table refuses: the row is left where it is. */
  predicate Stranded(s: State, isRollback: bool, cause: Cause, plan: Option<string>, cfg: Config) {
    match s
    case Preflight => !isRollback && cause == Other && cfg.automaticRollback && plan.Some?
    case AwaitApproval => isRollback || (cause == Other && cfg.automaticRollback)
    case RollingBack => !isRollback && (cause != Other || !cfg.automaticRollback || plan.Some?)
    case _ => false
  }

  /** A run ends in a terminal state unless it fails, or is started again, where no failure edge exists. */
  lemma RunEndsTerminal(dep: Deployment, plan: Option<string>, cfg: Config, script: Script)
    requires !IsTerminal(dep.state)
    ensures IsTerminal(RunEnding(dep, plan, cfg, script).state) <==>
      if dep.state != Pending then !Stranded(dep.state, dep.isRollback, Other, plan, cfg)
      else
        var f := FirstFailure(dep, 0, cfg, script);
        f == 5 || !Stranded(STEPS[f], dep.isRollback, CauseAt(dep, f, cfg, script), plan, cfg)
  {
    hide Outcome, FirstFailure;
    var f := FirstFailure(dep, 0, cfg, script);
    if dep.state != Pending {
      FailureOutcome(dep.state, dep.isRollback, Other, plan, cfg, script);
    } else if f < 5 {
      FailureOutcome(STEPS[f], dep.isRollback, CauseAt(dep, f, cfg, script), plan, cfg, script);
    }
  }

  /** Exactly which terminal state a failure ends in, and when it deploys a second time. */
  lemma FailureOutcome(s: State, isRollback: bool, cause: Cause, plan: Option<string>, cfg: Config, script: Script)
    requires !IsTerminal(s) && s != Pending
    ensures var end := AfterFailure(s, isRollback, cause, plan, cfg, script);
            var rollsBack := !isRollback && cause == Other && cfg.automaticRollback;
            if Stranded(s, isRollback, cause, plan, cfg) then end == s
            else
              && (end == Failed <==> !isRollback && !rollsBack)
              && (end == RolledBack <==> rollsBack && plan.Some? && RollbackWorks(cfg, script))
              && (end == RollbackFailed <==> isRollback || (rollsBack && (plan.None? || !RollbackWorks(cfg, script))))
              && end in {Failed, RolledBack, RollbackFailed}
    ensures s in {Deploying, Verifying, Promoting} ==>
      && !Stranded(s, isRollback, cause, plan, cfg)
      && (Redeploys(s, isRollback, cause, plan, cfg, script) <==>
            !isRollback && cause == Other && cfg.automaticRollback && plan.Some? && script.rollbackProvider)
    ensures s in {Preflight, AwaitApproval, RollingBack} ==> !Redeploys(s, isRollback, cause, plan, cfg, script)
  {
    hide RollbackWorks;
  }

  /** A rollback never triggers another: a rollback's own run makes at most the one deploy it was started for. */
  lemma RollbackNeverRollsBack(dep: Deployment, plan: Option<string>, cfg: Config, script: Script)
    requires dep.isRollback && !IsTerminal(dep.state)
    ensures var end := RunEnding(dep, plan, cfg, script);
            (end.deploys == [] || end.deploys == [OwnDeploy(dep)]) && end.state !in {RollingBack, RolledBack}
  {
    hide Outcome;
  }

  /**
    * Running a deployment again after reconciliation has put it back to VERIFYING verifies nothing:
    * the run starts at PREFLIGHT, is refused, and takes the failure path.
    */
  lemma ResumedIsNotVerified(dep: Deployment, plan: Option<string>, cfg: Config, script: Script)
    requires dep.state == Verifying && !dep.isRollback && cfg.automaticRollback && plan.Some?
    ensures var end := RunEnding(dep, plan, cfg, script);
            && end.state == (if RollbackWorks(cfg, script) then RolledBack else RollbackFailed)
            && end.deploys == (if script.rollbackProvider then [RollbackDeploy(dep.id, plan)] else [])
  {
    hide RollbackWorks;
  }

  // ------------------------------------------------------- the course of a run

  lemma StepAt(k: nat)
    requires k < 5
    ensures |STEPS| == 5
    ensures STEPS[k] in STEPS && (STEPS[k] == Preflight <==> k == 0)
    ensures (STEPS[k] == AwaitApproval <==> k == 1) && (STEPS[k] == Deploying <==> k == 2)
    ensures (STEPS[k] == Verifying <==> k == 3) && (STEPS[k] == Promoting <==> k == 4)
  {
  }

  /** An undisturbed run that began at start stands at state s before its k-th step. */
  predicate Reached(start: Deployment, s: State, k: nat, cfg: Config, script: Script)
    requires k <= 5
  {
    if k == 0 then s == start.state
    else
      && start.state == Pending && s == Before(k, cfg)
      && FirstFailure(start, 0, cfg, script) == FirstFailure(start, k, cfg, script)
      && (k >= 3 ==> script.providerFound)
  }

  lemma SetOut(start: Deployment, cfg: Config, script: Script)
    ensures Reached(start, start.state, 0, cfg, script)
  {
  }

  lemma SkipsApproval(start: Deployment, s: State, cfg: Config, script: Script)
    requires !cfg.NeedsApproval()
    ensures Reached(start, s, 1, cfg, script) ==> Reached(start, s, 2, cfg, script)
  {
    assert FirstFailure(start, 1, cfg, script) == FirstFailure(start, 2, cfg, script);
  }

  lemma Arrives(start: Deployment, plan: Option<string>, cfg: Config, script: Script)
    ensures CanTransition(Promoting, Succeeded)
    ensures forall s :: Reached(start, s, 5, cfg, script) ==>
              && s == Promoting
              && RunEnding(start, plan, cfg, script) == Ending(Succeeded, [OwnDeploy(start)], start.error)
  {
  }

  /** What performing the k-th step in state s leads to: the new state, why it failed, the deploys so far. */
  predicate Stepped(start: Deployment, s: State, k: nat, s': State, failure: Option<Cause>, calls: seq<Deploy>,
                    cfg: Config, script: Script)
    requires k < 5
  {
    if !CanTransition(s, STEPS[k]) then
      failure == Some(Other) && s' == s && calls == With([], k >= 3, OwnDeploy(start))
    else
      && s' == STEPS[k]
      && failure == Failure(Outcome(start, STEPS[k], cfg, script), script)
      && calls == With(With([], k >= 3, OwnDeploy(start)), STEPS[k] == Deploying && script.providerFound,
                       OwnDeploy(start))
  }

  /** Why a step failed; a lost lease is what counts, whatever the step says. */
  function Failure(r: StepResult, script: Script): Option<Cause> {
    match r
    case Fine => None
    case Fails(cause) => Some(Lost(script, cause))
  }

  /** A step of an undisturbed run leads on when it succeeds; when it fails, what is left is the failure path. */
  lemma Course(start: Deployment, s: State, k: nat, s': State, failure: Option<Cause>, calls: seq<Deploy>,
               cfg: Config, script: Script)
    requires k < 5 && Reached(start, s, k, cfg, script) && (k == 1 ==> cfg.NeedsApproval())
    requires Stepped(start, s, k, s', failure, calls, cfg, script)
    ensures failure.None? ==> Reached(start, s', k + 1, cfg, script)
    ensures failure.Some? ==>
      forall plan :: RunEnding(start, plan, cfg, script)
                  == EndAfterFailure(start.id, s', calls, start.isRollback, failure.value, plan, cfg, script)
    ensures failure.Some? && !IsTerminal(start.state) ==> s' != Succeeded
  {
    hide Outcome, EndAfterFailure, CanTransition, STEPS, RunEnding, Before, FirstFailure;
    StepAt(k);
    OnTheWay(start.state, k, cfg);
    assert start.state == Pending || !CanTransition(s, STEPS[k]);
    FirstIs(start, k, cfg, script);
    DeployedByProvider(start, cfg, script);
    if failure.Some? {
      EndsHere(start, k, calls, cfg, script);
    } else {
      BeforeNext(k, cfg);
    }
  }

  lemma BeforeNext(k: nat, cfg: Config)
    requires k < 5 && (k == 1 ==> cfg.NeedsApproval())
    ensures Before(k + 1, cfg) == STEPS[k]
  {
  }

  lemma FirstIs(d: Deployment, k: nat, cfg: Config, script: Script)
    requires k < 5
    ensures FirstFailure(d, k, cfg, script)
         == if Outcome(d, STEPS[k], cfg, script).Fails? then k else FirstFailure(d, k + 1, cfg, script)
  {
    hide Outcome;
  }

  /** The ending of a run whose first failing step is the k-th, or that cannot even begin. */
  lemma EndsHere(start: Deployment, k: nat, calls: seq<Deploy>, cfg: Config, script: Script)
    requires k < 5 && (k == 0 || start.state == Pending)
    requires start.state == Pending ==>
      && FirstFailure(start, 0, cfg, script) == k && (k >= 3 ==> script.providerFound)
      && calls == With(With([], k >= 3, OwnDeploy(start)), STEPS[k] == Deploying && script.providerFound,
                       OwnDeploy(start))
    requires start.state != Pending ==> calls == []
    ensures forall plan :: RunEnding(start, plan, cfg, script)
                        == if start.state != Pending then
                             EndAfterFailure(start.id, start.state, [], start.isRollback, Other, plan, cfg, script)
                           else
                             EndAfterFailure(start.id, STEPS[k], calls, start.isRollback,
                                             CauseAt(start, k, cfg, script), plan, cfg, script)
  {
    hide Outcome, EndAfterFailure, CanTransition, FirstFailure, Before;
    StepAt(k);
  }

  lemma DeployedByProvider(d: Deployment, cfg: Config, script: Script)
    ensures Outcome(d, Deploying, cfg, script).Fine? ==> script.providerFound
  {
  }

  /** No failure path of a run that was started alive ends in success. */
  lemma FailureNoSuccess(id: string, s: State, calls: seq<Deploy>, isRollback: bool, cause: Cause,
                         plan: Option<string>, cfg: Config, script: Script)
    ensures s != Succeeded ==>
      EndAfterFailure(id, s, calls, isRollback, cause, plan, cfg, script).state != Succeeded
  {
    hide CanTransition, RollbackWorks;
  }

  lemma NoEvents(cfg: Config, script: Script, id: string)
    ensures Unfinished([]) && Calls([]) == [] && PersistFirst([], id) && WeightRight(cfg, script, [])
  {
  }

  /** No accepted transition has ended the run. */
  predicate Unfinished(t: seq<Event>) {
    var a := LastAccepted(t);
    a.Some? && a.value.Accepted? ==> a.value.to != Succeeded && a.value.to != RolledBack
  }

  /** At most one deploy and at most one rollback deploy, in that order. */
  predicate OnceEach(calls: seq<Deploy>, own: Deploy, back: Deploy) {
    calls == [] || calls == [own] || calls == [] + [back] || calls == [own] + [back]
  }

  /** Where each step can be entered from: its predecessor, never a later state. */
  lemma OnTheWay(start: State, k: nat, cfg: Config)
    requires k < 5
    ensures CanTransition(start, Preflight) <==> start == Pending
    ensures STEPS[k] != AwaitApproval || cfg.NeedsApproval() ==> CanTransition(Before(k, cfg), STEPS[k])
    ensures Before(0, cfg) == Pending && CanTransition(Before(5, cfg), Succeeded)
  {
  }

  /** A finished run left the traffic where it belongs. */
  predicate WeightRight(cfg: Config, script: Script, t: seq<Event>) {
    var a := LastAccepted(t);
    a.Some? && a.value.Accepted? ==>
      && (a.value.to == Succeeded && cfg.strategy.Canary? && LoaderAccepts(cfg) ==> LastWeight(t) == Some(100))
      && (a.value.to == Succeeded && cfg.strategy.BlueGreen? && script.flip.Shifted? ==> LastWeight(t) == Some(100))
      && (a.value.to == RolledBack && Shifts(cfg) && script.rollbackShift.Shifted? ==> LastWeight(t) == Some(0))
  }
}
