/** One run of the deployment executor: engine/executor.go. */
module Executors {
  import opened Prelude
  import opened Lifecycle
  import opened Records
  import opened Decisions
  import opened Coherence
  import opened Worlds
  import opened Conduct
  import opened Holding
  import opened Endings
  import opened Watching
  import Rollbacks
  import Verification

  class Executor {
    const w: World
    const cfg: Config
    const script: Script
    var dep: Deployment

    /** The version to go back to, as last planned, and the journal it was planned on. */
    ghost var plan: Option<string>
    ghost var planLog: seq<Change>

    ghost predicate Ready()
      reads this, w
    {
      w.Valid() && PersistFirst(w.trace, dep.id)
    }

    /** The deployment's lease is held and stays so up to turn end. */
    ghost predicate Holds(end: nat)
      reads this, w
    {
      Held(w.turns, w.turn, w.now, w.ix, dep, w.settings.leaseTTL, end)
    }

    /** The plan is what planning answers for the deployment on the journal at some point so far. */
    ghost predicate Planned(d: Deployment)
      reads this, w
    {
      planLog <= w.log && plan == PlanOf(planLog, d, cfg)
    }

    constructor (w: World, cfg: Config, script: Script, dep: Deployment)
      ensures this.w == w && this.cfg == cfg && this.script == script && this.dep == dep
    {
      this.w, this.cfg, this.script, this.dep := w, cfg, script, dep;
    }

    // -------------------------------------------------------------- store calls

    /** Lets others act, as they may before any of our calls. */
    method Wait(ghost end: nat)
      requires Ready()
      modifies w`turn, w`now, w`ix, w`log, w`tries
      ensures Ready() && old(w.log) <= w.log && w.turn == old(w.turn) + 1
      ensures w.now == old(w.ComingTime()) >= old(w.now) && w.ix == old(w.Coming())
      ensures old(Ended(w.ix, dep.id)) ==> Ended(w.ix, dep.id)
      ensures old(Holds(end)) && w.turn <= end ==> Holds(end)
    {
      hide InStep, TraceHolds, Named, OutboxCoherent, Recorded, Held, Met, MetTime, PersistFirst, Ended;
      if Ended(w.ix, dep.id) {
        StaysEnded(w.settings, w.ix, w.now, w.turns(w.turn), dep.id);
      }
      if Holds(end) && w.turn < end {
        HeldAdvances(w.settings, w.turns, w.turn, w.now, w.ix, dep, end);
      }
      w.Interlude();
    }

    /** Adds an event to the trace. */
    method Note(e: Event)
      requires Ready() && Logged(e, w.tries) && Onwards(e, w.ix, w.tries) && (e.DeployCalled? ==>
        Backed(w.trace, e, dep.id))
      modifies w`trace
      ensures Ready() && w.trace == old(w.trace) + [e]
    {
      hide InStep, TraceHolds, Logged, Onwards, Named, OutboxCoherent, Recorded, Backed, PersistFirst, Calls,
           LastAccepted, LastWeight;
      Append(w.trace, e, dep.id);
      OneMoreEvent(w.trace, w.ix, w.tries, e);
      w.trace := w.trace + [e];
    }

    /** The lease on the target of the deployment's row. */
    function TargetLease(): Option<Lease>
      reads w`ix, this`dep
    {
      if dep.id !in w.ix.deployments then None
      else
        var r := w.ix.deployments[dep.id].Resource();
        if r in w.ix.leases then Some(w.ix.leases[r]) else None
    }

    /** Notes that the store has accepted a move. */
    method NoteMove(op: Op, group: seq<Change>, ghost met: Index)
      requires Ready() && Named(met) && op.Transition? && op.id == dep.id && op.from == dep.state
      requires op.fence == dep.fence
      requires Decide(w.settings, met, w.now, op) == Write(group) && w.ix == Next(w.settings, met, w.now, op)
      requires w.tries != [] && w.tries[|w.tries| - 1].disk.Accepts? && w.tries[|w.tries| - 1].group.changes == group
      modifies w`trace
      ensures Ready() && Licensed(op.to) && dep.id in w.ix.deployments && w.ix.deployments[dep.id].state == op.to
      ensures OneLonger(old(w.trace), w.trace) && Moving(w.trace[|w.trace| - 1], dep.id, op.to)
      ensures Calls(w.trace) == old(Calls(w.trace)) && LastWeight(w.trace) == old(LastWeight(w.trace))
    {
      hide Decide, Named, OutboxCoherent, Recorded, Writes, Next, InStep, TraceHolds, Logged, Onwards,
           CanTransition, Calls, LastWeight, LastAccepted, PersistFirst;
      WrittenMove(w.settings, met, w.now, op);
      var e := Accepted(dep.id, dep.state, op.to, dep.fence, TargetLease(), w.now, |w.tries| - 1);
      MoveLogged(w.ix, op, e, w.tries);
      Append(w.trace, e, dep.id);
      Note(e);
    }

    /** The state change, its audit row and its notices in one store call. */
    method TransitionAndNotify(to: State, reason: string, ghost end: nat) returns (ok: bool)
      requires Ready()
      modifies this`dep, w
      ensures Ready() && old(w.log) <= w.log
      ensures dep == if ok then old(dep).(state := to) else old(dep)
      ensures ok ==> dep.id in w.ix.deployments && w.ix.deployments[dep.id].state == to
      ensures if ok then Licensed(to) && OneLonger(old(w.trace), w.trace) && Moving(w.trace[|w.trace| - 1], dep.id, to)
              else w.trace == old(w.trace)
      ensures ok ==> Published(old(dep), to, reason, cfg.notifiers, w.log)
      ensures w.turn == old(w.turn) + 1 && w.now == old(w.ComingTime()) >= old(w.now)
      ensures Apart(old(w.Coming()), w.ix, dep.id, dep.Resource()) && w.ix.leases == old(w.Coming()).leases
      ensures Calls(w.trace) == old(Calls(w.trace)) && LastWeight(w.trace) == old(LastWeight(w.trace))
      ensures old(Ended(w.ix, dep.id)) ==> !ok && Ended(w.ix, dep.id)
      ensures old(Holds(end)) && w.turn <= end ==> Holds(end) && (ok <==> CanTransition(old(dep.state), to))
    {
      hide Ended, Decide, Named, OutboxCoherent, Recorded, Held, Writes, Next, Met, MetTime,
           MoveOp, InStep, TraceHolds, CanTransition, Calls, LastWeight, LastAccepted, PersistFirst, Published;
      ghost var at := w.now;
      var op := MoveOp(dep, to, reason, w.now, cfg.notifiers);
      ghost var calm := Holds(end) && w.turn < end;
      if calm {
        HeldAdvances(w.settings, w.turns, w.turn, w.now, w.ix, dep, end);
      }
      ghost var met := w.Coming();
      MetNamed(w.settings, w.ix, w.now, w.turns(w.turn));
      ghost var ended := Ended(w.ix, dep.id);
      if ended {
        StaysEnded(w.settings, w.ix, w.now, w.turns(w.turn), dep.id);
      }
      var d := w.Call(op);
      if ended {
        EndedRefuses(w.settings, met, w.now, op);
        BurnedEnded(met, Writes(w.settings, met, w.now, op), dep.id);
      }
      OwnStep(w.settings, met, w.now, op, dep.id, dep.Resource());
      SameLeases(w.settings, met, w.now, op);
      BurnedApart(met, Writes(w.settings, met, w.now, op), dep.id, dep.Resource());
      if calm {
        HeldMoves(w.settings, w.turns, w.turn, w.now, met, dep, end, op);
      }
      ok := d.Write?;
      if ok {
        WritesAre(w.settings, met, w.now, op);
        MovePublished(w.settings, met, w.now, at, dep, to, reason, cfg.notifiers, d.group, w.log);
        NoteMove(op, d.group, met);
        dep := dep.(state := to);
      }
    }

    /** Writes the whole row; was is the executor's copy as of the last write. */
    method UpdateRow(ghost was: Deployment, ghost end: nat) returns (ok: bool)
      requires Ready() && SameRow(was, dep)
      modifies w`turn, w`now, w`ix, w`log, w`tries
      ensures Ready() && old(w.log) <= w.log
      ensures w.turn == old(w.turn) + 1 && w.now == old(w.ComingTime()) >= old(w.now)
      ensures Apart(old(w.Coming()), w.ix, dep.id, dep.Resource()) && w.ix.leases == old(w.Coming()).leases
      ensures old(Held(w.turns, w.turn, w.now, w.ix, was, w.settings.leaseTTL, end)) && w.turn <= end ==>
        ok && Holds(end)
      ensures old(Ended(w.ix, dep.id)) ==> Ended(w.ix, dep.id)
      ensures ok ==> dep.id in w.ix.deployments && w.ix.deployments[dep.id] == dep.(updatedAt := w.now)
    {
      hide Ended, Decide, Named, OutboxCoherent, Recorded, Held, Writes, Next, Met, MetTime, InStep, TraceHolds,
           PersistFirst;
      ghost var calm := Held(w.turns, w.turn, w.now, w.ix, was, w.settings.leaseTTL, end) && w.turn < end;
      if calm {
        HeldAdvances(w.settings, w.turns, w.turn, w.now, w.ix, was, end);
      }
      ghost var met := w.Coming();
      MetNamed(w.settings, w.ix, w.now, w.turns(w.turn));
      ghost var ended := Ended(w.ix, dep.id);
      if ended {
        StaysEnded(w.settings, w.ix, w.now, w.turns(w.turn), dep.id);
      }
      var d := w.Call(Update(dep));
      if ended {
        EndedUpdates(w.settings, met, w.now, dep, dep.id);
        BurnedEnded(met, Writes(w.settings, met, w.now, Update(dep)), dep.id);
      }
      OwnStep(w.settings, met, w.now, Update(dep), dep.id, dep.Resource());
      SameLeases(w.settings, met, w.now, Update(dep));
      UpdateIsWhole(w.settings, met, w.now, dep);
      BurnedApart(met, Writes(w.settings, met, w.now, Update(dep)), dep.id, dep.Resource());
      if calm {
        HeldUpdates(w.settings, w.turns, w.turn, w.now, met, was, dep, end);
      }
      ok := d.Write?;
    }

    /** Writes a step row; whether that is heeded is up to the caller. */
    method RecordStep(name: string, ghost end: nat) returns (ok: bool)
      requires Ready()
      modifies w`turn, w`now, w`ix, w`log, w`tries
      ensures Ready() && old(w.log) <= w.log && w.turn == old(w.turn) + 1
      ensures w.now == old(w.ComingTime()) >= old(w.now) && w.ix == old(w.Coming())
      ensures ok <==> old(w.turns(w.turn)).disk.Accepts?
      ensures ok ==> w.log != [] && w.log[|w.log| - 1] == OtherRow(name)
      ensures old(Ended(w.ix, dep.id)) ==> Ended(w.ix, dep.id)
      ensures old(Holds(end)) && w.turn <= end ==> ok && Holds(end)
    {
      hide InStep, TraceHolds, Named, OutboxCoherent, Recorded, Held, Met, MetTime, PersistFirst, Ended,
           Writes, Next;
      if Ended(w.ix, dep.id) {
        StaysEnded(w.settings, w.ix, w.now, w.turns(w.turn), dep.id);
      }
      if Holds(end) && w.turn < end {
        HeldAdvances(w.settings, w.turns, w.turn, w.now, w.ix, dep, end);
      }
      ghost var met := w.Coming();
      var d := w.Call(Record(name));
      RecordChangesNothing(w.settings, met, w.now, name);
      return d.Write?;
    }

    // -------------------------------------------------------------- steps

    /** Every check before production is touched; on success the current version goes into the row. */
    method DoPreflight(ghost end: nat) returns (r: StepResult)
      requires Ready()
      modifies this`dep, w
      ensures Ready() && old(w.log) <= w.log && w.trace == old(w.trace) && old(w.turn) <= w.turn
      ensures SameRun(old(dep), dep) && dep.state == old(dep.state) && dep.error == old(dep.error)
      ensures r.Fine? ==> Cleared(dep, cfg, script) && Some(dep.previousVersion) == script.current
      ensures old(Holds(end)) && w.turn <= end ==> Holds(end) && r == PreflightResult(old(dep), cfg, script)
    {
      hide Held, Named, OutboxCoherent, Recorded, InStep, TraceHolds, Met, MetTime, PersistFirst;
      var _ := RecordStep("preflight", end);
      Wait(end);
      if script.frozen {
        return Fails(Blocked);
      }
      if !script.providerFound || !script.targetValid || (Shifts(cfg) && !script.canShift) || script.current.None? {
        return Fails(Other);
      }
      if !dep.isRollback {
        if script.current.value == dep.version {
          return Fails(Blocked);
        }
        Wait(end);
        if script.budget.Fails? {
          return script.budget;
        }
        if cfg.promotes && script.promotion.Fails? {
          return script.promotion;
        }
      }
      ghost var was := dep;
      dep := dep.(previousVersion := script.current.value);
      var ok := UpdateRow(was, end);
      return if ok then Fine else Fails(Other);
    }

    /** Waits for every gate in turn. */
    method AwaitGates(ghost end: nat) returns (r: StepResult)
      requires Ready()
      modifies w`turn, w`now, w`ix, w`log, w`tries
      ensures Ready() && old(w.log) <= w.log && old(w.turn) <= w.turn
      ensures r == GatesFrom(cfg.gates, script.gate, 0)
      ensures old(Holds(end)) && w.turn <= end ==> Holds(end)
    {
      hide Held, Named, OutboxCoherent, Recorded, InStep, TraceHolds, Met, MetTime, PersistFirst;
      for i := 0 to |cfg.gates|
        invariant Ready() && old(w.log) <= w.log && old(w.turn) <= w.turn
        invariant GatesFrom(cfg.gates, script.gate, 0) == GatesFrom(cfg.gates, script.gate, i)
        invariant old(Holds(end)) && w.turn <= end ==> Holds(end)
      {
        Wait(end);
        if script.gate(i).Fails? {
          return script.gate(i);
        }
      }
      return Fine;
    }

    /** The latest accepted transition is ours and licenses a deploy. */
    predicate Licensed(to: State)
      reads w`trace, this`dep
    {
      var a := LastAccepted(w.trace);
      a.Some? && a.value.Accepted? && a.value.id == dep.id && a.value.fence == dep.fence && a.value.to == to
    }

    /** Calls the provider's Deploy. */
    method CallDeploy(to: State, key: string, version: string)
      requires Ready() && Licensed(to) && Licenses(to, key, dep.id)
      modifies w`trace
      ensures Ready() && w.trace == old(w.trace) + [DeployCalled(key, version, dep.fence, |w.tries|)]
      ensures Calls(w.trace) == old(Calls(w.trace)) + [Deploy(key, version)]
      ensures LastAccepted(w.trace) == old(LastAccepted(w.trace)) && LastWeight(w.trace) == old(LastWeight(w.trace))
    {
      hide Named, OutboxCoherent, Recorded;
      LastIsOne(w.trace);
      Append(w.trace, DeployCalled(key, version, dep.fence, |w.tries|), dep.id);
      Note(DeployCalled(key, version, dep.fence, |w.tries|));
    }

    /** Runs the strategy. */
    method DoDeploy(ghost end: nat) returns (r: StepResult)
      requires Ready() && Licensed(Deploying)
      modifies this`dep, w
      ensures Ready() && old(w.log) <= w.log && LastAccepted(w.trace) == old(LastAccepted(w.trace))
      ensures old(w.turn) <= w.turn
      ensures SameRun(old(dep), dep) && dep.state == old(dep.state) && dep.error == old(dep.error)
      ensures Calls(w.trace) == With(old(Calls(w.trace)), script.providerFound, OwnDeploy(dep))
      ensures r.Fine? ==> Landed(cfg, script) && dep.providerHandle == script.handle && OtherRow("deploy") in w.log
      ensures !old(w.turns(w.turn)).disk.Accepts? ==> r.Fails?
      ensures r.Fine? && cfg.strategy.BlueGreen? && script.flip.Shifted? ==> LastWeight(w.trace) == Some(100)
      ensures old(Holds(end)) && w.turn <= end ==> Holds(end) && r == DeployResult(cfg, script)
    {
      hide Held, Named, OutboxCoherent, Recorded, InStep, TraceHolds, Met, MetTime, PersistFirst,
           LastAccepted, Calls;
      if !script.providerFound {
        return Fails(Other);
      }
      CallDeploy(Deploying, dep.id, dep.version);
      var recorded := RecordStep("deploy", end);
      if script.deploy.Fails? {
        return script.deploy;
      }
      if !recorded {
        return Fails(Other);
      }
      ghost var was := dep;
      dep := dep.(providerHandle := script.handle);
      var ok := UpdateRow(was, end);
      if !ok {
        return Fails(Other);
      }
      if cfg.strategy.BlueGreen? {
        Shift(100, script.flip.Shifted?);
        if script.flip.ShiftFailed? {
          return Fails(Other);
        }
      }
      return Fine;
    }

    /** Calls the provider's Shift. */
    method Shift(weight: int, took: bool)
      requires Ready()
      modifies w`trace
      ensures Ready()
      ensures Calls(w.trace) == old(Calls(w.trace)) && LastAccepted(w.trace) == old(LastAccepted(w.trace))
      ensures LastWeight(w.trace) == if took then Some(weight) else old(LastWeight(w.trace))
    {
      hide Named, OutboxCoherent, Recorded;
      Append(w.trace, ShiftCalled(weight, took), dep.id);
      Note(ShiftCalled(weight, took));
    }

    /** Watches a window of ticks; others act as they like meanwhile. */
    method Bake(i: nat, ghost end: nat) returns (r: StepResult)
      requires Ready()
      modifies w`turn, w`now, w`ix, w`log, w`tries
      ensures Ready() && old(w.log) <= w.log && old(w.turn) <= w.turn
      ensures r == WindowResult(cfg, script, i)
      ensures old(Holds(end)) && w.turn <= end ==> Holds(end)
    {
      hide Held, Named, OutboxCoherent, Recorded, InStep, TraceHolds, Met, MetTime, PersistFirst,
           Verification.Judge;
      var verdict, _ := Verification.Verify(script.windows(i), cfg.policy);
      Wait(end);
      return OnVerdict(verdict);
    }

    /** Runs the bake, or the canary's steps. */
    method DoVerify(ghost end: nat) returns (r: StepResult)
      requires Ready()
      modifies w
      ensures Ready() && old(w.log) <= w.log && old(w.turn) <= w.turn
      ensures Calls(w.trace) == old(Calls(w.trace)) && LastAccepted(w.trace) == old(LastAccepted(w.trace))
      ensures r == VerifyResult(cfg, script)
      ensures !cfg.strategy.Canary? ==> w.trace == old(w.trace)
      ensures r.Fine? && cfg.strategy.Canary? && LoaderAccepts(cfg) ==> LastWeight(w.trace) == Some(100)
      ensures old(Holds(end)) && w.turn <= end ==> Holds(end)
    {
      hide Held, Named, OutboxCoherent, Recorded, InStep, TraceHolds, Met, MetTime, PersistFirst,
           LastAccepted, Calls, LastWeight, WindowResult;
      if !cfg.strategy.Canary? {
        r := Bake(0, end);
        return;
      }
      if !script.providerFound {
        return Fails(Other);
      }
      for i := 0 to |cfg.steps|
        invariant Ready() && old(w.log) <= w.log && old(w.turn) <= w.turn
        invariant Calls(w.trace) == old(Calls(w.trace)) && LastAccepted(w.trace) == old(LastAccepted(w.trace))
        invariant CanaryFrom(cfg, script, 0) == CanaryFrom(cfg, script, i)
        invariant i > 0 && cfg.steps[i - 1].SetWeight? ==> LastWeight(w.trace) == Some(cfg.steps[i - 1].weight)
        invariant old(Holds(end)) && w.turn <= end ==> Holds(end)
      {
        r := DoCanaryStep(i, end);
        if r.Fails? {
          return;
        }
      }
      return Fine;
    }

    /** One step of a canary. */
    method DoCanaryStep(i: nat, ghost end: nat) returns (r: StepResult)
      requires Ready() && i < |cfg.steps|
      modifies w
      ensures Ready() && old(w.log) <= w.log && old(w.turn) <= w.turn
      ensures Calls(w.trace) == old(Calls(w.trace)) && LastAccepted(w.trace) == old(LastAccepted(w.trace))
      ensures r == CanaryStepResult(cfg, script, i)
      ensures r.Fine? && cfg.steps[i].SetWeight? ==> LastWeight(w.trace) == Some(cfg.steps[i].weight)
      ensures old(Holds(end)) && w.turn <= end ==> Holds(end)
    {
      hide Held, Named, OutboxCoherent, Recorded, InStep, TraceHolds, Met, MetTime, PersistFirst,
           LastAccepted, Calls, LastWeight, WindowResult;
      if script.cancelled(i) {
        return Fails(Other);
      }
      if cfg.steps[i].VerifyStep? {
        r := Bake(i, end);
        return;
      }
      Shift(cfg.steps[i].weight, script.shifted(i));
      return if script.shifted(i) then Fine else Fails(Other);
    }

    /** The work of one step, its transition already recorded. */
    method Perform(s: State, ghost end: nat) returns (r: StepResult)
      requires Ready() && s in STEPS && Licensed(s) && (s == AwaitApproval ==> cfg.NeedsApproval())
      modifies this`dep, w
      ensures Ready() && old(w.log) <= w.log && LastAccepted(w.trace) == old(LastAccepted(w.trace))
      ensures old(w.turn) <= w.turn
      ensures SameRun(old(dep), dep) && dep.state == old(dep.state) && dep.error == old(dep.error)
      ensures Calls(w.trace) == With(old(Calls(w.trace)), s == Deploying && script.providerFound, OwnDeploy(dep))
      ensures r.Fine? ==> Passed(s, dep, cfg, script)
      ensures s == Deploying && r.Fine? && cfg.strategy.BlueGreen? && script.flip.Shifted? ==>
        LastWeight(w.trace) == Some(100)
      ensures r.Fine? && s == Verifying && cfg.strategy.Canary? && LoaderAccepts(cfg) ==>
        LastWeight(w.trace) == Some(100)
      ensures s == Promoting || (s == Verifying && !cfg.strategy.Canary?) ==> w.trace == old(w.trace)
      ensures old(Holds(end)) && w.turn <= end ==> Holds(end) && r == Outcome(old(dep), s, cfg, script)
    {
      hide Held, Named, OutboxCoherent, Recorded, InStep, TraceHolds, PersistFirst, LastAccepted, Calls,
           LastWeight, DeployResult, VerifyResult, PreflightResult, GatesFrom, LoaderAccepts, Cleared, Approved,
           Landed, AllHealthy, Config.NeedsApproval;
      ApprovalMeans(dep, cfg, script);
      VerifyMeans(cfg, script);
      match s {
        case Preflight => r := DoPreflight(end);
        case AwaitApproval => r := AwaitGates(end);
        case Deploying => r := DoDeploy(end);
        case Verifying => r := DoVerify(end);
        case _ => r := Fine;
      }
    }

    // -------------------------------------------------------------- failure

    /** Deploys the previous version. */
    method ExecuteRollback(version: string, cause: string, ghost end: nat)
      requires Ready() && WeightRight(cfg, script, w.trace) && plan == Some(version)
      modifies this`dep, w
      ensures Ready() && old(w.log) <= w.log && old(w.turn) <= w.turn && WeightRight(cfg, script, w.trace)
      ensures SameButKind(old(dep), dep) && dep.error == old(dep.error)
      ensures Calls(w.trace) == old(Calls(w.trace))
              || (script.rollbackProvider
                  && Calls(w.trace) == old(Calls(w.trace)) + [RollbackDeploy(dep.id, plan)])
      ensures old(Ended(w.ix, dep.id)) ==> Ended(w.ix, dep.id) && w.trace == old(w.trace)
      ensures var s := old(dep.state);
              old(Holds(end)) && w.turn <= end ==>
                && Holds(end)
                && dep.state == (if !CanTransition(s, RollingBack) then s
                                 else if RollbackWorks(cfg, script) then RolledBack else RollbackFailed)
                && Calls(w.trace) == With(old(Calls(w.trace)), CanTransition(s, RollingBack) && script.rollbackProvider,
                                          RollbackDeploy(dep.id, plan))
    {
      hide Ended, Apart, Published, MoveOp, OneLonger, Moving, Held, Named, OutboxCoherent, Recorded,
           InStep, TraceHolds, PersistFirst, LastAccepted, Calls, LastWeight, Met, MetTime;
      var ok := TransitionAndNotify(RollingBack, "", end);
      if ok {
        RedeployPrevious(version, cause, end);
      }
    }

    /** A rollback that has been recorded: the provider deploys the previous version. */
    method RedeployPrevious(version: string, cause: string, ghost end: nat)
      requires Ready() && Licensed(RollingBack) && dep.state == RollingBack && plan == Some(version)
      modifies this`dep, w
      ensures Ready() && old(w.log) <= w.log && old(w.turn) <= w.turn && WeightRight(cfg, script, w.trace)
      ensures SameButKind(old(dep), dep) && dep.error == old(dep.error)
      ensures Calls(w.trace) == With(old(Calls(w.trace)), script.rollbackProvider, RollbackDeploy(dep.id, plan))
      ensures old(Holds(end)) && w.turn <= end ==>
                Holds(end) && dep.state == if RollbackWorks(cfg, script) then RolledBack else RollbackFailed
    {
      hide Apart, Published, MoveOp, OneLonger, Moving, Held, Named, OutboxCoherent, Recorded, InStep, TraceHolds,
           PersistFirst, LastAccepted, Calls, LastWeight, Met, MetTime;
      if !script.rollbackProvider {
        var _ := TransitionAndNotify(RollbackFailed, "", end);
        return;
      }
      CallDeploy(RollingBack, RollbackKey(dep.id), version);
      var _ := RecordStep("rollback", end);
      if script.rollbackDeploys {
        FinishRollback(version, cause, end);
      } else {
        var _ := TransitionAndNotify(RollbackFailed, "", end);
      }
    }

    /** The rest of a rollback once the previous version is deployed: the traffic, then the state. */
    method FinishRollback(version: string, cause: string, ghost end: nat)
      requires Ready() && Licensed(RollingBack) && dep.state == RollingBack
      modifies this`dep, w
      ensures Ready() && old(w.log) <= w.log && old(w.turn) <= w.turn && WeightRight(cfg, script, w.trace)
      ensures SameButKind(old(dep), dep) && dep.error == old(dep.error)
      ensures Calls(w.trace) == old(Calls(w.trace))
      ensures old(Holds(end)) && w.turn <= end ==>
                && Holds(end)
                && dep.state == if Shifts(cfg) && script.rollbackShift.ShiftFailed? then RollbackFailed else RolledBack
      ensures dep.state == RolledBack ==>
        Published(old(dep).(isRollback := true), RolledBack, "rolled back to " + version + ": " + cause, cfg.notifiers,
                  w.log)
    {
      hide Apart, Published, MoveOp, OneLonger, Moving, Held, Named, OutboxCoherent, Recorded, InStep, TraceHolds,
           PersistFirst, LastAccepted, Calls, LastWeight, Met, MetTime;
      if Shifts(cfg) {
        Shift(0, script.rollbackShift.Shifted?);
        if script.rollbackShift.ShiftFailed? {
          var _ := TransitionAndNotify(RollbackFailed, "", end);
          return;
        }
      }
      HeldSame(w.turns, w.turn, w.now, w.ix, dep, true, w.settings.leaseTTL, end);
      dep := dep.(isRollback := true);
      var _ := TransitionAndNotify(RolledBack, "rolled back to " + version + ": " + cause, end);
    }

    /** Plans a rollback on the rows of the moment and executes it, or escalates when there is none to be had. */
    method PlanAndRollBack(message: string, ghost end: nat)
      requires Ready() && WeightRight(cfg, script, w.trace)
      modifies this`dep, this`plan, this`planLog, w
      ensures Ready() && old(w.log) <= w.log && old(w.turn) <= w.turn && WeightRight(cfg, script, w.trace)
      ensures SameButKind(old(dep), dep) && dep.error == old(dep.error)
      ensures Planned(old(dep)) && old(w.log) <= planLog
      ensures Calls(w.trace) == old(Calls(w.trace))
              || (script.rollbackProvider && plan.Some?
                  && Calls(w.trace) == old(Calls(w.trace)) + [RollbackDeploy(dep.id, plan)])
      ensures old(Ended(w.ix, dep.id)) ==> Ended(w.ix, dep.id) && w.trace == old(w.trace)
      ensures var s := old(dep.state);
              old(Holds(end)) && w.turn <= end ==>
                && Holds(end)
                && dep.state == (if plan.None? then MoveTo(s, RollbackFailed)
                                 else if !CanTransition(s, RollingBack) then s
                                 else if RollbackWorks(cfg, script) then RolledBack else RollbackFailed)
                && Calls(w.trace) == With(old(Calls(w.trace)),
                                          plan.Some? && CanTransition(s, RollingBack) && script.rollbackProvider,
                                          RollbackDeploy(dep.id, plan))
    {
      hide Ended, Apart, Published, MoveOp, OneLonger, Moving, Held, Named, OutboxCoherent, Recorded,
           InStep, TraceHolds, PersistFirst, LastAccepted, Calls, LastWeight, Met, MetTime, RollbackWorks,
           CanTransition, PlanOf, Rollbacks.PlanRollback;
      Wait(end);
      var answer := Rollbacks.PlanRollback(w.ix, dep, cfg.checkFloor, cfg.manifests);
      planLog, plan := w.log, PlanOf(w.log, dep, cfg);
      PlanAt(w.ix, w.log, dep, cfg);
      if answer.Err? {
        var _ := TransitionAndNotify(RollbackFailed, message, end);
      } else {
        ExecuteRollback(answer.value.version, message, end);
      }
    }

    /** The row's state as the store has it now, and the failure's reason into the row. */
    method ReadAndRecord(message: string, ghost end: nat) returns (recorded: bool)
      requires Ready()
      modifies this`dep, w`turn, w`now, w`ix, w`log, w`tries
      ensures Ready() && old(w.log) <= w.log && old(w.turn) <= w.turn
      ensures SameRun(old(dep), dep) && dep.error == message
      ensures recorded ==>
        && dep.id in w.ix.deployments
        && w.ix.deployments[dep.id] == old(dep).(state := dep.state, error := message, updatedAt := w.now)
      ensures old(Ended(w.ix, dep.id)) ==> Ended(w.ix, dep.id)
      ensures old(Holds(end)) && w.turn <= end ==> Holds(end) && dep.state == old(dep.state)
    {
      hide Ended, Apart, Held, Named, OutboxCoherent, Recorded, InStep, TraceHolds, PersistFirst, Met, MetTime;
      Wait(end);
      if Holds(end) {
        HeldStands(w.turns, w.turn, w.now, w.ix, dep, w.settings.leaseTTL, end);
      }
      if dep.id in w.ix.deployments {
        dep := dep.(state := w.ix.deployments[dep.id].state);
      }
      ghost var was := dep;
      dep := dep.(error := message);
      recorded := UpdateRow(was, end);
    }

    /** The failure path: no rollback of a rollback, none of a blocked or inconclusive deploy, none without a plan. */
    method HandleFailure(cause: Cause, message: string, ghost end: nat)
      requires Ready() && WeightRight(cfg, script, w.trace) && Planned(dep)
      modifies this`dep, this`plan, this`planLog, w
      ensures Ready() && old(w.log) <= w.log && old(w.turn) <= w.turn && WeightRight(cfg, script, w.trace)
      ensures SameButKind(old(dep), dep) && dep.error == message && Planned(old(dep))
      ensures !old(dep.isRollback) && cause == Other && cfg.automaticRollback ==> old(w.log) <= planLog
      ensures Calls(w.trace) == old(Calls(w.trace))
              || (!old(dep.isRollback) && cause == Other && cfg.automaticRollback && plan.Some?
                  && script.rollbackProvider
                  && Calls(w.trace) == old(Calls(w.trace)) + [RollbackDeploy(dep.id, plan)])
      ensures old(Ended(w.ix, dep.id)) ==> Ended(w.ix, dep.id) && w.trace == old(w.trace)
      ensures old(Holds(end)) && w.turn <= end ==>
                && Holds(end)
                && dep.state == AfterFailure(old(dep.state), old(dep.isRollback), cause, plan, cfg, script)
                && Calls(w.trace) == With(old(Calls(w.trace)),
                                          Redeploys(old(dep.state), old(dep.isRollback), cause, plan, cfg, script),
                                          RollbackDeploy(dep.id, plan))
    {
      hide Ended, Apart, Published, MoveOp, OneLonger, Moving, Held, Named, OutboxCoherent, Recorded,
           InStep, TraceHolds, PersistFirst, LastAccepted, Calls, LastWeight, Met, MetTime, RollbackWorks,
           CanTransition, PlanOf;
      ghost var start := dep;
      var _ := ReadAndRecord(message, end);
      SamePlan(planLog, start, dep, cfg);
      if dep.isRollback {
        var _ := TransitionAndNotify(RollbackFailed, message, end);
      } else if cause != Other || !cfg.automaticRollback {
        var _ := TransitionAndNotify(Failed, message, end);
      } else {
        ghost var read := dep;
        PlanAndRollBack(message, end);
        SamePlan(planLog, start, read, cfg);
      }
    }

    // -------------------------------------------------------------- the run

    /** One step: recorded first, then performed. None when it succeeds, else why it failed. */
    method Advance(k: nat, ghost start: Deployment, ghost end: nat) returns (failure: Option<Cause>)
      requires k < 5 && Underway(k) && SameRun(start, dep) && dep.error == start.error
      requires k == 1 ==> cfg.NeedsApproval()
      modifies this`dep, w
      ensures Ready() && old(w.log) <= w.log && old(w.turn) <= w.turn && Unfinished(w.trace)
      ensures SameRun(start, dep) && dep.error == start.error
      ensures Calls(w.trace) == With([], k >= 3, OwnDeploy(dep)) || (k == 2 && Calls(w.trace) == [OwnDeploy(dep)])
      ensures failure.None? ==> Underway(k + 1)
      ensures old(Ended(w.ix, dep.id)) ==> failure.Some? && Ended(w.ix, dep.id) && w.trace == old(w.trace)
      ensures old(Holds(end)) && w.turn <= end ==>
                Holds(end) && Stepped(start, old(dep.state), k, dep.state, failure, Calls(w.trace), cfg, script)
    {
      hide Ended, Apart, Published, MoveOp, OneLonger, Held, Named, OutboxCoherent, Recorded, InStep, TraceHolds,
           PersistFirst, LastAccepted, Calls, LastWeight, Met, MetTime, CanTransition, LoaderAccepts, Outcome,
           STEPS, Passed, Cleared, Approved, Landed, AllHealthy;
      StepAt(k);
      SameChecks(start, dep, cfg, script);
      var moved := TransitionAndNotify(STEPS[k], "", end);
      if !moved {
        return Some(Other);
      }
      SameOutcome(start, dep, STEPS[k], cfg, script);
      var r := Perform(STEPS[k], end);
      if r.Fine? {
        PassedAt(k, dep, cfg, script);
      }
      SameChecks(start, dep, cfg, script);
      return Failure(r, script);
    }

    /** What holds when the run comes to its k-th step. */
    ghost predicate Underway(k: nat)
      requires k <= 5
      reads this, w
    {
      && Ready() && Unfinished(w.trace)
      && Calls(w.trace) == With([], k >= 3, OwnDeploy(dep))
      && (k >= 1 ==> Cleared(dep, cfg, script)) && (k >= 2 ==> Approved(cfg, script))
      && (k >= 3 ==> Landed(cfg, script)) && (k >= 4 ==> AllHealthy(cfg, script))
      && (k >= 3 && cfg.strategy.BlueGreen? && script.flip.Shifted? ==> LastWeight(w.trace) == Some(100))
      && (k >= 4 && cfg.strategy.Canary? && LoaderAccepts(cfg) ==> LastWeight(w.trace) == Some(100))
    }

    /** The failure path of a run that was started as start. */
    method Fail(cause: Cause, ghost start: Deployment, ghost end: nat)
      requires Ready() && Unfinished(w.trace) && SameRun(start, dep) && Planned(start)
      requires Calls(w.trace) == []
               || (Calls(w.trace) == [OwnDeploy(start)] && Cleared(start, cfg, script) && Approved(cfg, script))
      modifies this`dep, this`plan, this`planLog, w
      ensures Ready() && old(w.log) <= w.log && old(w.turn) <= w.turn && SameButKind(start, dep) && Planned(start)
      ensures WeightRight(cfg, script, w.trace) && Warranted(Calls(w.trace), start, plan, cfg, script)
      ensures OnceEach(Calls(w.trace), OwnDeploy(start), RollbackDeploy(start.id, plan))
      ensures old(Ended(w.ix, dep.id)) ==> Ended(w.ix, dep.id) && w.trace == old(w.trace)
      ensures old(Holds(end)) && w.turn <= end ==>
                && Holds(end)
                && Ending(dep.state, Calls(w.trace), dep.error)
                   == EndAfterFailure(start.id, old(dep.state), old(Calls(w.trace)), start.isRollback, cause, plan,
                                      cfg, script)
    {
      hide Ended, Apart, Published, MoveOp, OneLonger, Held, Named, OutboxCoherent, Recorded, InStep, TraceHolds,
           PersistFirst, LastAccepted, Calls, LastWeight, Met, MetTime, CanTransition, LoaderAccepts,
           AfterFailure, Redeploys, PlanOf, Cleared, Approved, Warranted, OnceEach;
      ghost var failed, calls := dep, Calls(w.trace);
      SamePlan(planLog, start, failed, cfg);
      HandleFailure(cause, Explain(cause), end);
      SamePlan(planLog, start, failed, cfg);
      WarrantedSo(calls, Calls(w.trace), start, plan, cfg, script);
    }

    /** Advances by one step, or takes the failure path. */
    method StepOrFail(k: nat, ghost start: Deployment, ghost end: nat) returns (on: bool)
      requires k < 5 && Underway(k) && SameRun(start, dep) && dep.error == start.error
      requires k == 1 ==> cfg.NeedsApproval()
      requires Planned(start)
      modifies this`dep, this`plan, this`planLog, w
      ensures Ready() && old(w.log) <= w.log && old(w.turn) <= w.turn && SameButKind(start, dep) && Planned(start)
      ensures on ==> Underway(k + 1) && SameRun(start, dep) && dep.error == start.error
      ensures !on ==> WeightRight(cfg, script, w.trace) && Warranted(Calls(w.trace), start, plan, cfg, script)
                      && OnceEach(Calls(w.trace), OwnDeploy(start), RollbackDeploy(start.id, plan))
      ensures old(Ended(w.ix, dep.id)) ==> !on && Ended(w.ix, dep.id) && w.trace == old(w.trace)
      ensures old(Holds(end)) && w.turn <= end && Reached(start, old(dep.state), k, cfg, script) ==>
                && Holds(end)
                && (on ==> Reached(start, dep.state, k + 1, cfg, script))
                && (!on ==> var ending := RunEnding(start, plan, cfg, script);
                            dep.state == ending.state && Calls(w.trace) == ending.deploys && dep.error == ending.error
                            && (!IsTerminal(start.state) ==> ending.state != Succeeded))
    {
      hide Ended, Apart, Published, MoveOp, OneLonger, Held, Named, OutboxCoherent, Recorded, InStep, TraceHolds,
           PersistFirst, LastAccepted, Calls, LastWeight, Met, MetTime, CanTransition, LoaderAccepts,
           AfterFailure, Redeploys, Outcome, RunEnding, Reached, STEPS, PlanOf, Cleared, Approved, Landed, AllHealthy,
           Warranted, OnceEach, Stepped;
      ghost var calm, before := Holds(end) && Reached(start, dep.state, k, cfg, script), dep.state;
      SameChecks(start, dep, cfg, script);
      var failure := Advance(k, start, end);
      if calm && w.turn <= end {
        Course(start, before, k, dep.state, failure, Calls(w.trace), cfg, script);
      }
      if failure.Some? {
        ghost var s, calls := dep.state, Calls(w.trace);
        Fail(failure.value, start, end);
        if calm && w.turn <= end {
          FailureNoSuccess(start.id, s, calls, start.isRollback, failure.value, plan, cfg, script);
        }
      }
      return failure.None?;
    }

    /** The five steps in order, each recorded before it is performed, then SUCCEEDED. */
    method Drive(ghost end: nat) returns (ok: bool)
      requires Ready() && w.trace == [] && !IsTerminal(dep.state) && Planned(dep)
      modifies this`dep, this`plan, this`planLog, w
      ensures Ready() && old(w.log) <= w.log && old(w.turn) <= w.turn && WeightRight(cfg, script, w.trace)
      ensures SameButKind(old(dep), dep) && Planned(old(dep))
      ensures OnceEach(Calls(w.trace), OwnDeploy(old(dep)), RollbackDeploy(dep.id, plan))
      ensures Warranted(Calls(w.trace), old(dep), plan, cfg, script) && (ok ==> GoesWell(old(dep), cfg, script))
      ensures ok ==> Licensed(Succeeded) && dep.id in w.ix.deployments && w.ix.deployments[dep.id].state == Succeeded
      ensures var ending := RunEnding(old(dep), plan, cfg, script);
              old(Holds(end)) && w.turn <= end ==>
                && Holds(end) && dep.state == ending.state && Calls(w.trace) == ending.deploys
                && dep.error == ending.error && (ok <==> ending.state == Succeeded)
    {
      hide Apart, Published, MoveOp, OneLonger, Held, Named, OutboxCoherent, Recorded, InStep, TraceHolds,
           PersistFirst, LastAccepted, Calls, LastWeight, Met, MetTime, CanTransition, LoaderAccepts,
           AfterFailure, Redeploys, Outcome, RunEnding, Reached, STEPS, PlanOf, Cleared, Approved, Landed, AllHealthy,
           Warranted;
      ghost var calm, start := Holds(end), dep;
      NoEvents(cfg, script, dep.id);
      SetOut(start, cfg, script);
      for k := 0 to 5
        invariant Underway(k) && old(w.log) <= w.log && old(w.turn) <= w.turn
        invariant SameRun(start, dep) && dep.error == start.error && Planned(start)
        invariant calm && w.turn <= end ==> Holds(end) && Reached(start, dep.state, k, cfg, script)
      {
        if k == 1 && !cfg.NeedsApproval() {
          SkipsApproval(start, dep.state, cfg, script);
          NobodyAsked(cfg, script);
        } else {
          var on := StepOrFail(k, start, end);
          if !on {
            return false;
          }
        }
      }
      Arrives(start, plan, cfg, script);
      SameChecks(start, dep, cfg, script);
      assert [] + [OwnDeploy(start)] == [OwnDeploy(start)];
      WarrantedSo([OwnDeploy(start)], [OwnDeploy(start)], start, plan, cfg, script);
      ok := TransitionAndNotify(Succeeded, "", end);
    }

    // -------------------------------------------------------------- entry points

    /**
      * The row is there and alive when it is read, and the acquisition that follows is granted and
      * leaves the executor in steady possession up to turn end.
      */
    ghost predicate CalmStart(id: string, end: nat)
      reads w
    {
      && id in w.Coming().deployments && !IsTerminal(w.Coming().deployments[id].state)
      && var row, t := w.Coming().deployments[id], w.turns(w.turn + 1);
         var ix, now := Met(w.settings, w.Coming(), w.ComingTime(), t), MetTime(w.ComingTime(), t);
         var acquire := Acquire(row.Resource(), id, cfg.node);
         var d := Decide(w.settings, ix, now, acquire);
         && t.disk.Accepts? && !d.Refuse?
         && Held(w.turns, w.turn + 2, now, Next(w.settings, ix, now, acquire), row.(fence := Granted(d)),
                 w.settings.leaseTTL, end)
    }

    /** Reads a deployment's row. */
    method Read(id: string) returns (found: bool)
      requires w.Valid() && w.trace == []
      modifies this`dep, this`plan, this`planLog, w`turn, w`now, w`ix, w`log, w`tries
      ensures w.Valid() && old(w.log) <= w.log
      ensures w.turn == old(w.turn) + 1 && w.now == old(w.ComingTime()) && w.ix == old(w.Coming())
      ensures found <==> id in w.ix.deployments && !IsTerminal(w.ix.deployments[id].state)
      ensures id in w.ix.deployments ==> dep == w.ix.deployments[id] && dep.id == id && Planned(dep)
    {
      hide Named, OutboxCoherent, Recorded, InStep, TraceHolds, Met, MetTime, PlanOf;
      w.Interlude();
      if id !in w.ix.deployments {
        return false;
      }
      RowNamed(w.ix, id);
      dep := w.ix.deployments[id];
      planLog, plan := w.log, PlanOf(w.log, dep, cfg);
      return !IsTerminal(dep.state);
    }

    /** The coming acquisition is granted and leaves the executor in steady possession up to turn end. */
    ghost predicate CalmLock(d: Deployment, end: nat)
      reads w
    {
      var acquire := Acquire(d.Resource(), d.id, cfg.node);
      var decision := Decide(w.settings, w.Coming(), w.ComingTime(), acquire);
      && w.turns(w.turn).disk.Accepts? && !decision.Refuse?
      && Held(w.turns, w.turn + 1, w.ComingTime(), Next(w.settings, w.Coming(), w.ComingTime(), acquire),
              d.(fence := Granted(decision)), w.settings.leaseTTL, end)
    }

    /** Takes the lease. */
    method Lock(ghost k: int, ghost end: nat) returns (ok: bool)
      requires Ready()
      modifies this`dep, w`turn, w`now, w`ix, w`log, w`tries
      ensures Ready() && old(w.log) <= w.log && w.turn == old(w.turn) + 1
      ensures dep == old(dep).(fence := dep.fence)
      ensures ok && Unheld(old(w.ix), dep.Resource(), dep.id, k) ==> dep.fence > k
      ensures old(CalmLock(dep, end)) ==> ok && Holds(end)
    {
      hide Held, Named, OutboxCoherent, Recorded, InStep, TraceHolds, PersistFirst, Next, Decide, Met,
           MetTime, Unheld;
      ghost var ix, now, t, was := w.ix, w.now, w.turns(w.turn), dep;
      var d := w.Call(Acquire(dep.Resource(), dep.id, cfg.node));
      dep := dep.(fence := Granted(d));
      assert dep.Resource() == was.Resource();
      if Unheld(ix, dep.Resource(), dep.id, k) && !d.Refuse? {
        StaysUnheld(w.settings, ix, now, t, dep.Resource(), dep.id, k);
        GrantedAnew(w.settings, Met(w.settings, ix, now, t), w.now, dep.Resource(), dep.id, cfg.node, k);
      }
      return !d.Refuse?;
    }

    /** Drives the deployment under its lease, if that can be had. */
    method DriveUnderLease(ghost end: nat) returns (ok: bool)
      requires Ready() && w.trace == [] && !IsTerminal(dep.state) && Planned(dep)
      modifies this`dep, this`plan, this`planLog, w
      ensures Ready() && old(w.log) <= w.log && WeightRight(cfg, script, w.trace)
      ensures dep.id == old(dep.id) && Planned(old(dep))
      ensures OnceEach(Calls(w.trace), OwnDeploy(old(dep)), RollbackDeploy(dep.id, plan))
      ensures Warranted(Calls(w.trace), old(dep), plan, cfg, script) && (ok ==> GoesWell(old(dep), cfg, script))
      ensures ok ==> dep.id in w.ix.deployments && w.ix.deployments[dep.id].state == Succeeded && Licensed(Succeeded)
      ensures old(CalmLock(dep, end)) && w.turn <= end ==>
                var ending := RunEnding(old(dep), plan, cfg, script);
                && dep.id in w.ix.deployments && w.ix.deployments[dep.id].state == ending.state
                && w.ix.deployments[dep.id].error == ending.error
                && Calls(w.trace) == ending.deploys && (ok <==> ending.state == Succeeded)
                && !LiveAt(w.ix, old(dep).Resource(), w.now)
    {
      hide Held, Named, OutboxCoherent, Recorded, InStep, TraceHolds, PersistFirst, LastAccepted, Calls,
           LastWeight, Next, Decide, Met, MetTime, RunEnding, PlanOf, WeightRight, CanTransition, GoesWell,
           Warranted, OnceEach, Cleared, Approved, LiveAt;
      NoEvents(cfg, script, dep.id);
      ghost var row := dep;
      NothingCalled(row, plan, cfg, script);
      var locked := Lock(0, end);
      if !locked {
        return false;
      }
      ghost var start := dep;
      SamePlan(planLog, row, start, cfg);
      ok := Drive(end);
      SamePlan(planLog, row, start, cfg);
      SameEnding(row, start, plan, cfg, script);
      SameWarrants(row, start, Calls(w.trace), plan, cfg, script);
      SameResource(row, dep);
      Unlock(end);
    }

    /** Drives one deployment: takes the lease, runs the steps, gives the lease back. */
    method Run(id: string, configured: bool, ghost end: nat) returns (ok: bool)
      requires w.Valid() && w.trace == []
      modifies this`dep, this`plan, this`planLog, w
      ensures w.Valid() && old(w.log) <= w.log
      ensures PersistFirst(w.trace, id) && WeightRight(cfg, script, w.trace)
      ensures var met := old(w.Coming());
              if id in met.deployments then
                && OnceEach(Calls(w.trace), OwnDeploy(met.deployments[id]), RollbackDeploy(id, plan))
                && Warranted(Calls(w.trace), met.deployments[id], plan, cfg, script)
                && Planned(met.deployments[id]) && (ok ==> GoesWell(met.deployments[id], cfg, script))
              else Calls(w.trace) == []
      ensures ok ==> id in w.ix.deployments && w.ix.deployments[id].state == Succeeded
      ensures ok ==> LastAccepted(w.trace).Some? && Moving(LastAccepted(w.trace).value, id, Succeeded)
      ensures old(CalmStart(id, end)) && configured && w.turn <= end ==>
                var ending := RunEnding(old(w.Coming()).deployments[id], plan, cfg, script);
                && id in w.ix.deployments && w.ix.deployments[id].state == ending.state
                && w.ix.deployments[id].error == ending.error
                && Calls(w.trace) == ending.deploys && (ok <==> ending.state == Succeeded)
                && AsItShould(old(w.Coming()).deployments[id], plan, cfg, script,
                              w.ix.deployments[id].state, w.ix.deployments[id].error, Calls(w.trace))
                && !LiveAt(w.ix, old(w.Coming()).deployments[id].Resource(), w.now)
    {
      hide Held, Named, OutboxCoherent, Recorded, InStep, TraceHolds, PersistFirst, LastAccepted, Calls,
           LastWeight, Next, Decide, Met, MetTime, RunEnding, PlanOf, WeightRight, GoesWell, Warranted, AsItShould,
           OnceEach, LiveAt;
      NoEvents(cfg, script, id);
      ghost var calm, row := CalmStart(id, end), w.Coming();
      var found := Read(id);
      NothingCalled(dep, plan, cfg, script);
      if !found || !configured {
        return false;
      }
      assert calm ==> CalmLock(dep, end);
      ok := DriveUnderLease(end);
      EndsAsItShould(row.deployments[id], plan, cfg, script);
    }

    /** Gives the lease back. */
    method Unlock(ghost end: nat)
      requires Ready()
      modifies w`turn, w`now, w`ix, w`log, w`tries
      ensures Ready() && old(w.log) <= w.log
      ensures w.turn == old(w.turn) + 1 && w.now == old(w.ComingTime()) >= old(w.now)
      ensures if old(w.turns(w.turn)).disk.Accepts? then
                w.ix == Next(w.settings, old(w.Coming()), w.now, Release(dep.Resource(), dep.id))
              else w.ix == old(w.Coming())
      ensures old(Ended(w.ix, dep.id)) ==>
        Ended(w.ix, dep.id) && w.ix.deployments[dep.id].state == old(w.ix.deployments[dep.id].state)
      ensures old(Holds(end)) && w.turn <= end ==> Stands(w.ix, dep) && !LiveAt(w.ix, dep.Resource(), w.now)
    {
      hide Held, Named, OutboxCoherent, Recorded, InStep, TraceHolds, PersistFirst, Next, Decide, Met, MetTime;
      ghost var met, was, before, t := w.Coming(), w.ix, w.now, w.turns(w.turn);
      var release := Release(dep.Resource(), dep.id);
      if Holds(end) && w.turn < end {
        HeldAdvances(w.settings, w.turns, w.turn, w.now, w.ix, dep, end);
        HeldStands(w.turns, w.turn + 1, w.ComingTime(), met, dep, w.settings.leaseTTL, end);
      }
      if Ended(w.ix, dep.id) {
        StaysEnded(w.settings, w.ix, w.now, w.turns(w.turn), dep.id);
      }
      var _ := w.Call(release);
      if dep.Resource() in met.leases && met.leases[dep.Resource()].holder == dep.id {
        MetNamed(w.settings, was, before, t);
        ReleasedLease(w.settings, met, w.now, dep.Resource(), dep.id);
      }
      WritesAre(w.settings, met, w.now, release);
      ReleaseKeepsRows(w.settings, met, w.now, dep.Resource(), dep.id);
      ReleaseBurnsNothing(w.settings, met, w.now, dep.Resource(), dep.id);
    }

    /** Ends a deployment: breaks its own lease, takes a new one, records ABORTED. */
    method Abort(id: string, actor: string, ghost end: nat) returns (ok: bool)
      requires w.Valid() && w.trace == []
      modifies this`dep, this`plan, this`planLog, w
      ensures w.Valid() && old(w.log) <= w.log && Calls(w.trace) == []
      ensures ok ==> id in w.ix.deployments && w.ix.deployments[id].state == Aborted
      ensures ok ==>
        && LastAccepted(w.trace).Some? && Moving(LastAccepted(w.trace).value, id, Aborted)
        && id in old(w.Coming()).deployments
        && PublishedIn(old(w.Coming()).deployments[id], Aborted, "aborted by " + actor, cfg.notifiers, w.log)
        && var r := old(w.Coming()).deployments[id].Resource();
           (r in old(w.ix).leases && old(w.ix).leases[r].holder == id ==>
              LastAccepted(w.trace).value.fence > old(w.ix).leases[r].fenceToken)
      ensures id in old(w.Coming()).deployments && !IsTerminal(old(w.Coming()).deployments[id].state)
              && old(Abortable(w.Coming().deployments[id], end)) && w.turn <= end ==>
                (ok <==> old(w.Coming()).deployments[id].state != RollingBack)
    {
      hide Held, Named, OutboxCoherent, Recorded, InStep, TraceHolds, PersistFirst, LastAccepted, Calls,
           LastWeight, Next, Decide, Met, MetTime, Published, PublishedIn, Apart, PlanOf, Unheld, Undisturbed, Brisk,
           LiveAt, Stands, IsTerminal;
      NoEvents(cfg, script, id);
      ghost var before, now0, t0, turn0 := w.ix, w.now, w.turns(w.turn), w.turn;
      ghost var row := if id in w.Coming().deployments then w.Coming().deployments[id] else dep;
      ghost var calm := Abortable(row, end);
      var found := Read(id);
      if !found {
        return false;
      }
      ghost var r := dep.Resource();
      if calm && turn0 < end {
        StaysAbortable(w.settings, w.turns, turn0, before, now0, dep, end);
      }
      StandsAsRead(w.ix, dep);
      ghost var read, free := w.ix, Abortable(dep, end);
      var broken := BreakOwn(id, actor, before, now0, t0, end);
      if !broken {
        return false;
      }
      ghost var h := Horizon(end);
      if free && w.turn < end {
        StandsNow(read, w.ix, dep);
        FreeToLock(dep, end, h);
      }
      ok := AbortUnderLease(actor, if r in before.leases then before.leases[r].fenceToken else 0, h);
    }

    /** Takes the lease, records ABORTED and gives the lease back. */
    method AbortUnderLease(actor: string, ghost k: int, ghost h: nat) returns (ok: bool)
      requires Ready() && w.trace == [] && !IsTerminal(dep.state)
      modifies this`dep, w
      ensures w.Valid() && old(w.log) <= w.log && Calls(w.trace) == []
      ensures old(w.turn) < w.turn <= old(w.turn) + 3
      ensures ok ==> dep.id in w.ix.deployments && w.ix.deployments[dep.id].state == Aborted && dep.id == old(dep.id)
      ensures ok ==>
        && LastAccepted(w.trace).Some? && Moving(LastAccepted(w.trace).value, dep.id, Aborted)
        && (Unheld(old(w.ix), old(dep.Resource()), dep.id, k) ==> LastAccepted(w.trace).value.fence > k)
        && PublishedIn(old(dep), Aborted, "aborted by " + actor, cfg.notifiers, w.log)
      ensures old(CalmLock(dep, h)) && w.turn <= h ==> (ok <==> old(dep.state) != RollingBack)
    {
      hide Held, Named, OutboxCoherent, Recorded, InStep, TraceHolds, PersistFirst, LastAccepted, Calls,
           LastWeight, Next, Decide, Met, MetTime, Published, PublishedIn, Apart, Unheld, CanTransition;
      NoEvents(cfg, script, dep.id);
      ghost var was := dep;
      var locked := Lock(k, h);
      SameResource(was, dep);
      if !locked {
        return false;
      }
      CanAbort(dep.state);
      ghost var locked' := dep;
      ok := TransitionAndNotify(Aborted, "aborted by " + actor, h);
      ghost var log := w.log;
      Unlock(h);
      PublishedBefore(was, locked', Aborted, "aborted by " + actor, cfg.notifiers, log, w.log);
    }

    /** Seven turns on, or as far as end. */
    ghost function Horizon(end: nat): nat
      reads w`turn
    {
      if w.turn + 7 < end then w.turn + 7 else end
    }

    /** Up to turn end nobody disturbs the row or its target, and no other deployment holds that now. */
    ghost predicate Abortable(d: Deployment, end: nat)
      reads w
    {
      && d.id != "" && w.settings.leaseTTL > 0
      && Undisturbed(w.turns, w.turn, end, d.id, d.Resource()) && Brisk(w.turns, w.turn, end, w.settings.leaseTTL)
      && (LiveAt(w.ix, d.Resource(), w.now) ==> w.ix.leases[d.Resource()].holder == d.id)
    }

    /** Nobody holds the target, so that taking its lease puts the deployment in possession. */
    lemma FreeToLock(d: Deployment, end: nat, h: nat)
      requires w.Valid() && Stands(w.ix, d) && !LiveAt(w.ix, d.Resource(), w.now)
      requires d.id != "" && w.settings.leaseTTL > 0 && w.turn < h <= end && h <= w.turn + 7
      requires Undisturbed(w.turns, w.turn, end, d.id, d.Resource())
      requires Brisk(w.turns, w.turn, end, w.settings.leaseTTL)
      ensures CalmLock(d, h)
    {
      hide Held, Named, OutboxCoherent, Recorded, InStep, TraceHolds, Next, Decide, Met, MetTime, Stands, LiveAt,
           Undisturbed, Brisk, Steady;
      var cf, ix, now, turn, x := w.settings, w.ix, w.now, w.turn, Watch(d.id, d.Resource(), end);
      var t := w.turns(turn);
      MetNamed(cf, ix, now, t);
      UndisturbedNow(w.turns, turn, x);
      MetSpares(cf, ix, now, t, x.id, x.r);
      StandsNow(ix, w.Coming(), d);
      NewLeaseSteady(w.turns, turn, now, x, h, Token(w.Coming(), x.r) + 1, cf.leaseTTL);
      GrantHolds(cf, w.turns, turn + 1, w.ComingTime(), w.Coming(), d, cfg.node, h);
    }

    /** Breaks the lease on the deployment's target if the deployment holds it. */
    method BreakOwn(id: string, actor: string, ghost before: Index, ghost now0: Time, ghost t0: Turn, ghost end: nat)
      returns (ok: bool)
      requires w.Valid() && Named(before) && w.ix == Met(w.settings, before, now0, t0) && dep.id == id
      modifies w`turn, w`now, w`ix, w`log, w`tries
      ensures w.Valid() && old(w.log) <= w.log && old(w.turn) < w.turn
      ensures old(Abortable(dep, end)) && w.turn <= end ==>
                && ok && RowKept(old(w.ix), w.ix, id) && !LiveAt(w.ix, dep.Resource(), w.now)
                && Undisturbed(w.turns, w.turn, end, id, dep.Resource())
                && Brisk(w.turns, w.turn, end, w.settings.leaseTTL)
      ensures var r := dep.Resource();
              ok && r in before.leases && before.leases[r].holder == id ==>
                Unheld(w.ix, r, id, before.leases[r].fenceToken)
    {
      hide Named, OutboxCoherent, Recorded, InStep, TraceHolds, Next, Decide, Met, MetTime, Undisturbed, Brisk;
      var r := dep.Resource();
      ghost var read, now1, turn1, x := w.ix, w.now, w.turn, Watch(id, r, end);
      ghost var t1, calm := w.turns(turn1), Abortable(dep, end) && turn1 < end;
      if calm {
        StaysAbortable(w.settings, w.turns, turn1, read, now1, dep, end);
      }
      w.Interlude();
      if r in before.leases {
        TokenStays(w.settings, before, now0, t0, r);
        TokenStays(w.settings, read, now1, t1, r);
      }
      if r in w.ix.leases && w.ix.leases[r].holder == id {
        ghost var held, now2, turn2 := w.ix, w.now, w.turn;
        ghost var t2 := w.turns(turn2);
        MetNamed(w.settings, held, now2, t2);
        if calm && turn2 < end {
          BreakFrees(w.settings, w.turns, turn2, held, now2, dep, actor, end);
        }
        var b := w.Call(Break(r, actor));
        if b.Refuse? {
          return false;
        }
        if r in before.leases {
          TokenStays(w.settings, held, now2, t2, r);
          BreakUnholds(w.settings, Met(w.settings, held, now2, t2), w.now, r, actor, id, before.leases[r].fenceToken);
        }
      }
      return true;
    }
  }
}
