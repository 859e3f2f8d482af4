/** Recovery after a restart: engine/reconcile.go, over the same store calls as a run. */
module Reconciling {
  import opened Prelude
  import opened Lifecycle
  import opened Records
  import opened Decisions
  import opened Coherence
  import opened Runs
  import opened Walks
  import opened Worlds
  import opened Conduct
  import opened Holding
  import opened Watching
  import opened Executors
  import opened Recovery
  import Fencing

  // ------------------------------------------------------- what we do to others

  /** The lease on r is in id's hands, or was given back. */
  predicate Ours(ix: Index, r: string, id: string) {
    r in ix.leases && (ix.leases[r].holder == id || ix.leases[r].holder == "")
  }

  /** What work on one deployment leaves of the row of id and the lease on r. */
  predicate Frame(ix: Index, now: Time, ix': Index, now': Time, id: string, r: string, d: Deployment) {
    && (id != d.id ==> RowKept(ix, ix', id))
    && (if r != d.Resource() then LeaseIdle(ix, now, ix', now', r) else (Ours(ix, r, d.id) ==> Ours(ix', r, d.id)))
  }

  lemma ApartFrames(ix: Index, ix': Index, now: Time, id: string, r: string, d: Deployment)
    requires Apart(ix, ix', d.id, d.Resource())
    ensures id != d.id ==> RowKept(ix, ix', id)
    ensures r != d.Resource() ==> LeaseIdle(ix, now, ix', now, r)
  {
    hide Deployment.Resource;
    assert id != d.id ==> (id in ix.deployments - {d.id} <==> id in ix'.deployments - {d.id});
    assert r != d.Resource() ==> (r in ix.leases - {d.Resource()} <==> r in ix'.leases - {d.Resource()});
  }

  /** A call of ours after an interlude, as far as the row of id and the lease on r are concerned. */
  lemma CallFrames(cf: Settings, ix: Index, now: Time, t: Turn, ix': Index, id: string, r: string, d: Deployment)
    requires Named(ix) && AllAside(t.foreign, id, r)
    requires Apart(Met(cf, ix, now, t), ix', d.id, d.Resource())
    requires Ours(Met(cf, ix, now, t), d.Resource(), d.id) ==> Ours(ix', d.Resource(), d.id)
    ensures Frame(ix, now, ix', MetTime(now, t), id, r, d)
  {
    hide Met, MetTime, Named, AllAside, Deployment.Resource, Apart;
    MetSpares(cf, ix, now, t, id, r);
    ApartFrames(Met(cf, ix, now, t), ix', MetTime(now, t), id, r, d);
  }

  lemma AcquireOurs(cf: Settings, ix: Index, now: Time, r: string, id: string, node: string)
    requires Named(ix)
    ensures var ix' := Next(cf, ix, now, Acquire(r, id, node));
            && (Ours(ix, r, id) ==> Ours(ix', r, id))
            && (!LiveAt(ix, r, now) ==> Decide(cf, ix, now, Acquire(r, id, node)).Write? && Ours(ix', r, id))
  {
    hide Next, Named;
    Fencing.LeaseStep(cf, ix, now, Acquire(r, id, node));
  }

  /** Once released, a lease is nobody's. */
  lemma ReleaseClears(cf: Settings, ix: Index, now: Time, r: string, id: string)
    requires Named(ix)
    ensures var ix' := Next(cf, ix, now, Release(r, id));
            && ix'.deployments == ix.deployments && Apart(ix, ix', id, r)
            && (Ours(ix, r, id) ==> Ours(ix', r, id) && !LiveAt(ix', r, now))
  {
    hide Next, Named;
    ReleaseKeepsRows(cf, ix, now, r, id);
    Fencing.LeaseStep(cf, ix, now, Release(r, id));
    OwnStep(cf, ix, now, Release(r, id), id, r);
  }

  // ------------------------------------------------------- what is written

  /** Nothing in the trace but moves that recovery may make. */
  predicate OnlyRecovers(t: seq<Event>) {
    forall i :: 0 <= i < |t| ==> t[i].Accepted? && t[i].to in {Failed, Verifying, Unknown}
  }

  lemma {:induction false} NoDeploys(t: seq<Event>, id: string)
    requires OnlyRecovers(t)
    ensures PersistFirst(t, id) && Calls(t) == []
  {
    if t != [] {
      NoDeploys(t[..|t| - 1], id);
    }
  }

  /** The trace has only been added to, and only with moves of id. */
  predicate OnlyOf(t: seq<Event>, t': seq<Event>, id: string) {
    t <= t' && forall i :: |t| <= i < |t'| ==> t'[i].Accepted? && t'[i].id == id
  }

  /** No move of id has been added. */
  predicate Silent(t: seq<Event>, t': seq<Event>, id: string) {
    t <= t' && forall i :: |t| <= i < |t'| ==> t'[i].Accepted? && t'[i].id != id
  }

  /** The audit entry says that the deployment's state is unknown. */
  predicate TellsUnknown(a: AuditEntry, id: string, s: State) {
    && a.actor == "reconciler" && a.action == "deployment.unknown"
    && a.detail.Keys == {"deployment", "state", "reason"}
    && a.detail["deployment"] == id && a.detail["state"] == StateName(s)
  }

  /** An entry that says so has been journalled. */
  predicate Told(log: seq<Change>, log': seq<Change>, id: string, s: State) {
    exists k :: |log| <= k < |log'| && log'[k].AuditRow? && TellsUnknown(log'[k].entry, id, s)
  }

  lemma TellsLast(cf: Settings, ix: Index, now: Time, d: Deployment, reason: string, at: Time)
    requires Named(ix)
    ensures var op := AppendAudit(UnknownDraft(d, reason, at));
            var decision, ix' := Decide(cf, ix, now, op), Next(cf, ix, now, op);
            && decision.Write? && |decision.group| == 1 && decision.group[0].AuditRow?
            && TellsUnknown(decision.group[0].entry, d.id, d.state)
            && ix'.deployments == ix.deployments && ix'.leases == ix.leases && Apart(ix, ix', d.id, d.Resource())
  {
    var op := AppendAudit(UnknownDraft(d, reason, at));
    OwnStep(cf, ix, now, op, d.id, d.Resource());
    ApplyTwo(ix, Writes(cf, ix, now, op)[0], Writes(cf, ix, now, op)[0]);
  }

  lemma TellIsTold(log: seq<Change>, log': seq<Change>, group: seq<Change>, id: string,
                   s: State)
    requires log <= log' && |log| + |group| <= |log'| && log'[|log'| - |group|..] == group
    requires |group| == 1 && group[0].AuditRow? && TellsUnknown(group[0].entry, id, s)
    ensures Told(log, log', id, s)
  {
    assert log'[|log'| - 1] == group[0];
  }

  /** The row is where the choice leaves it; given up, it says why, and an entry tells of it if it stays. */
  predicate Settles(ix: Index, log: seq<Change>, log': seq<Change>, d: Deployment, c: Choice) {
    && d.id in ix.deployments && ix.deployments[d.id].state == Settled(d.state, c)
    && ix.deployments[d.id].Resource() == d.Resource()
    && (!(c.Move? && CanTransition(d.state, c.to)) ==> ix.deployments[d.id].error != "")
    && (OnlyTold(d.state, c) ==> Told(log, log', d.id, d.state))
  }

  // ------------------------------------------------------- the pass

  /** The store as it is at some point of a pass. */
  datatype Sight = Sight(ix: Index, now: Time, log: seq<Change>)

  /**
    * What a pass has done so far about a row nobody else touches, its target found as given when the
    * row was visited: nothing before the visit; nothing if the target was live; else it has settled
    * the row by the choice and given the lease back.
    */
  ghost predicate Left(log: seq<Change>, s: Sight, d: Deployment, c: Choice, found: Option<Sight>, brisk: bool) {
    if found.None? || LiveAt(found.value.ix, d.Resource(), found.value.now) then
      d.id in s.ix.deployments && s.ix.deployments[d.id] == d
    else !LiveAt(s.ix, d.Resource(), s.now) && (brisk ==> Settles(s.ix, log, s.log, d, c))
  }

  /** How the watched row was found if it is among the first i visited; it is not moved unless its target was free. */
  ghost predicate Passing(log: seq<Change>, t: seq<Event>, log': seq<Change>, t': seq<Event>, ds: seq<Deployment>,
                          i: nat, id: string, r: string, found: Option<Sight>)
    requires i <= |ds|
  {
    && log <= log' && t <= t'
    && (found.Some? <==> exists j :: 0 <= j < i && ds[j].id == id)
    && (found.Some? ==> Recorded(found.value.ix, found.value.log) && log <= found.value.log <= log')
    && (found.None? || LiveAt(found.value.ix, r, found.value.now) ==> Silent(t, t', id))
  }

  /** What a pass began with, as far as the watched row is concerned, and what may be assumed of the schedule. */
  datatype Basis = Basis(log: seq<Change>, trace: seq<Event>, d: Deployment, choice: Choice,
                         calm: bool, brisk: bool, idle: bool)

  class Reconciler {
    const e: Executor

    constructor (e: Executor)
      ensures this.e == e
    {
      this.e := e;
    }

    ghost predicate Ready()
      reads this, e, e.w
    {
      e.w.Valid() && OnlyRecovers(e.w.trace)
    }

    /** Nobody disturbs the watched row and its target. */
    ghost predicate Calmly(x: Watch)
      reads e.w
    {
      Undisturbed(e.w.turns, e.w.turn, x.end, x.id, x.r)
    }

    ghost predicate Briskly(x: Watch)
      reads e.w
    {
      Brisk(e.w.turns, e.w.turn, x.end, e.w.settings.leaseTTL) && e.w.settings.leaseTTL > 0
    }

    /** Taking the lease will put us in possession of it up to turn h: it is free, or ours already. */
    ghost predicate Takeable(d: Deployment, x: Watch, h: nat)
      reads this, e, e.w
    {
      || (Stands(e.w.ix, d) && !LiveAt(e.w.ix, d.Resource(), e.w.now) && d.id != ""
          && x.id == d.id && x.r == d.Resource() && Calmly(x) && Briskly(x) && h <= x.end && h <= e.w.turn + 7)
      || (e.dep == d && e.Holds(h))
    }

    /** Takes the lease in the deployment's name. */
    method TakeLease(d: Deployment, ghost x: Watch, ghost h: nat) returns (ok: bool)
      requires Ready()
      modifies e`dep, e.w`turn, e.w`now, e.w`ix, e.w`log, e.w`tries
      ensures Ready() && e.Ready() && old(e.w.log) <= e.w.log
      ensures e.w.turn == old(e.w.turn) + 1 && old(e.w.now) <= e.w.now
      ensures e.dep == d.(fence := e.dep.fence)
      ensures old(Calmly(x)) && e.w.turn <= x.end ==>
                && Frame(old(e.w.ix), old(e.w.now), e.w.ix, e.w.now, x.id, x.r, d)
                && (x.r == d.Resource() && !LiveAt(old(e.w.ix), x.r, old(e.w.now)) ==> ok && Ours(e.w.ix, x.r, d.id))
      ensures old(Takeable(d, x, h)) && e.w.turn <= h ==> ok && e.Holds(h)
    {
      hide Held, Named, OutboxCoherent, Recorded, InStep, TraceHolds, PersistFirst, Next, Decide, Met,
           MetTime, Apart, OnlyRecovers, Frame, Ours, Steady, Brisk, Undisturbed, Stands;
      ghost var calm, take := Calmly(x) && e.w.turn < x.end, Takeable(d, x, h) && e.w.turn < h;
      ghost var ix, now, t, turn, was := e.w.ix, e.w.now, e.w.turns(e.w.turn), e.w.turn, e.dep;
      var acquire := Acquire(d.Resource(), d.id, e.cfg.node);
      NoDeploys(e.w.trace, d.id);
      if take {
        TakingHolds(was, d, x, h, acquire);
      }
      e.dep := d;
      MetNamed(e.w.settings, ix, now, t);
      var decision := e.w.Call(acquire);
      e.dep := d.(fence := Granted(decision));
      if calm {
        UndisturbedNow(e.w.turns, turn, x);
        AcquireOurs(e.w.settings, Met(e.w.settings, ix, now, t), e.w.now, d.Resource(), d.id, e.cfg.node);
        OwnStep(e.w.settings, Met(e.w.settings, ix, now, t), e.w.now, acquire, d.id, d.Resource());
        CallFrames(e.w.settings, ix, now, t, e.w.ix, x.id, x.r, d);
        MetSpares(e.w.settings, ix, now, t, x.id, x.r);
      }
      return !decision.Refuse?;
    }

    /** What taking the lease comes to, from either of the states it can be taken in. */
    lemma TakingHolds(was: Deployment, d: Deployment, x: Watch, h: nat, acquire: Op)
      requires e.w.Valid() && was == e.dep && Takeable(d, x, h) && e.w.turn < h
      requires acquire == Acquire(d.Resource(), d.id, e.cfg.node)
      ensures e.w.turns(e.w.turn).disk.Accepts?
      ensures var decision := Decide(e.w.settings, e.w.Coming(), e.w.ComingTime(), acquire);
              && !decision.Refuse?
              && Held(e.w.turns, e.w.turn + 1, e.w.ComingTime(),
                      Next(e.w.settings, e.w.Coming(), e.w.ComingTime(), acquire),
                      d.(fence := Granted(decision)), e.w.settings.leaseTTL, h)
    {
      hide Held, Named, OutboxCoherent, Recorded, InStep, TraceHolds, Next, Decide, Met, MetTime, Steady,
           Stands, LiveAt;
      var cf, ix, now, turn := e.w.settings, e.w.ix, e.w.now, e.w.turn;
      var t := e.w.turns(turn);
      MetNamed(cf, ix, now, t);
      if e.dep == d && e.Holds(h) {
        HeldAdvances(cf, e.w.turns, turn, now, ix, d, h);
        HoldsAgain(cf, e.w.turns, turn + 1, e.w.ComingTime(), e.w.Coming(), d, e.cfg.node, h);
      } else {
        UndisturbedNow(e.w.turns, turn, x);
        MetSpares(cf, ix, now, t, x.id, x.r);
        StandsNow(ix, e.w.Coming(), d);
        NewLeaseSteady(e.w.turns, turn, now, x, h, Token(e.w.Coming(), x.r) + 1, cf.leaseTTL);
        GrantHolds(cf, e.w.turns, turn + 1, e.w.ComingTime(), e.w.Coming(), d, e.cfg.node, h);
      }
    }

    /** Writes the failure reason into the row. */
    method RecordError(reason: string, ghost d: Deployment, ghost x: Watch, ghost h: nat)
      requires Ready() && e.Ready() && e.dep.id == d.id && e.dep.Resource() == d.Resource()
      modifies e`dep, e.w`turn, e.w`now, e.w`ix, e.w`log, e.w`tries
      ensures Ready() && e.Ready() && old(e.w.log) <= e.w.log
      ensures e.w.turn == old(e.w.turn) + 1 && old(e.w.now) <= e.w.now
      ensures e.dep == old(e.dep).(error := reason) && e.dep.Resource() == d.Resource()
      ensures old(Calmly(x)) && e.w.turn <= x.end ==> Frame(old(e.w.ix), old(e.w.now), e.w.ix, e.w.now, x.id, x.r, d)
      ensures old(e.Holds(h)) && e.w.turn <= h ==> e.Holds(h)
    {
      hide Held, Named, OutboxCoherent, Recorded, InStep, TraceHolds, PersistFirst, Met, MetTime, Apart,
           OnlyRecovers, Frame, Undisturbed;
      ghost var ix, now, t, turn := e.w.ix, e.w.now, e.w.turns(e.w.turn), e.w.turn;
      ghost var was := e.dep;
      e.dep := e.dep.(error := reason);
      var _ := e.UpdateRow(was, h);
      SameResource(was, e.dep);
      if Undisturbed(e.w.turns, turn, x.end, x.id, x.r) && turn < x.end {
        UndisturbedNow(e.w.turns, turn, x);
        CallFrames(e.w.settings, ix, now, t, e.w.ix, x.id, x.r, d);
      }
    }

    /** Moves the row, notifying. */
    method Go(to: State, reason: string, ghost d: Deployment, ghost x: Watch, ghost h: nat)
      requires Ready() && e.Ready() && to in {Failed, Verifying, Unknown}
      requires e.dep.id == d.id && e.dep.Resource() == d.Resource()
      modifies e`dep, e.w
      ensures Ready() && e.Ready() && old(e.w.log) <= e.w.log && OnlyOf(old(e.w.trace), e.w.trace, d.id)
      ensures e.w.turn == old(e.w.turn) + 1 && old(e.w.now) <= e.w.now
      ensures e.dep == old(e.dep).(state := e.dep.state) && e.dep.Resource() == d.Resource()
      ensures old(Calmly(x)) && e.w.turn <= x.end ==> Frame(old(e.w.ix), old(e.w.now), e.w.ix, e.w.now, x.id, x.r, d)
      ensures old(e.Holds(h)) && e.w.turn <= h ==>
                e.Holds(h) && (CanTransition(old(e.dep.state), to) ==> e.dep.state == to)
    {
      hide Held, Named, OutboxCoherent, Recorded, InStep, TraceHolds, PersistFirst, Met, MetTime, Apart,
           CanTransition, Published, MoveOp, Calls, LastWeight, Frame, Undisturbed;
      ghost var ix, now, t, turn, was, trace := e.w.ix, e.w.now, e.w.turns(e.w.turn), e.w.turn, e.dep, e.w.trace;
      var ok := e.TransitionAndNotify(to, reason, h);
      SameResource(was, e.dep);
      assert ok ==> e.w.trace == trace + [e.w.trace[|trace|]];
      if Undisturbed(e.w.turns, turn, x.end, x.id, x.r) && turn < x.end {
        UndisturbedNow(e.w.turns, turn, x);
        CallFrames(e.w.settings, ix, now, t, e.w.ix, x.id, x.r, d);
      }
    }

    /** Gives the lease back, if it is still ours to give. */
    method GiveBack(ghost d: Deployment, ghost x: Watch)
      requires Ready() && e.Ready() && e.dep.id == d.id && e.dep.Resource() == d.Resource()
      modifies e.w`turn, e.w`now, e.w`ix, e.w`log, e.w`tries
      ensures Ready() && e.Ready() && old(e.w.log) <= e.w.log
      ensures e.w.turn == old(e.w.turn) + 1 && old(e.w.now) <= e.w.now
      ensures old(Calmly(x)) && e.w.turn <= x.end ==>
                && Frame(old(e.w.ix), old(e.w.now), e.w.ix, e.w.now, x.id, x.r, d)
                && RowKept(old(e.w.ix), e.w.ix, x.id)
                && (x.r == d.Resource() && Ours(old(e.w.ix), x.r, d.id) ==> !LiveAt(e.w.ix, x.r, e.w.now))
    {
      hide Held, Named, OutboxCoherent, Recorded, InStep, TraceHolds, PersistFirst, Met, MetTime, Next, Apart,
           OnlyRecovers, Frame, Undisturbed, LiveAt;
      ghost var ix, now, t, turn := e.w.ix, e.w.now, e.w.turns(e.w.turn), e.w.turn;
      MetNamed(e.w.settings, ix, now, t);
      e.Unlock(0);
      if Undisturbed(e.w.turns, turn, x.end, x.id, x.r) && turn < x.end {
        UndisturbedNow(e.w.turns, turn, x);
        MetSpares(e.w.settings, ix, now, t, x.id, x.r);
        ReleaseClears(e.w.settings, Met(e.w.settings, ix, now, t), e.w.now, d.Resource(), d.id);
        CallFrames(e.w.settings, ix, now, t, e.w.ix, x.id, x.r, d);
      }
    }

    /** Writes the audit entry that tells of a row left where it is. */
    method Tell(reason: string, ghost d: Deployment, ghost x: Watch)
      requires Ready() && e.Ready() && e.dep.id == d.id && e.dep.Resource() == d.Resource()
      modifies e.w`turn, e.w`now, e.w`ix, e.w`log, e.w`tries
      ensures Ready() && e.Ready() && old(e.w.log) <= e.w.log
      ensures e.w.turn == old(e.w.turn) + 1 && old(e.w.now) <= e.w.now
      ensures old(Calmly(x)) && e.w.turn <= x.end ==>
                && Frame(old(e.w.ix), old(e.w.now), e.w.ix, e.w.now, x.id, x.r, d)
                && RowKept(old(e.w.ix), e.w.ix, x.id) && Told(old(e.w.log), e.w.log, d.id, e.dep.state)
    {
      hide Held, Named, OutboxCoherent, Recorded, InStep, TraceHolds, PersistFirst, Met, MetTime, Next, Apart,
           Decide, OnlyRecovers, Frame, Undisturbed, TellsUnknown, Told;
      ghost var ix, now, t, turn, log := e.w.ix, e.w.now, e.w.turns(e.w.turn), e.w.turn, e.w.log;
      MetNamed(e.w.settings, ix, now, t);
      var op := AppendAudit(UnknownDraft(e.dep, reason, e.w.now));
      var decision := e.w.Call(op);
      if Undisturbed(e.w.turns, turn, x.end, x.id, x.r) && turn < x.end {
        UndisturbedNow(e.w.turns, turn, x);
        MetSpares(e.w.settings, ix, now, t, x.id, x.r);
        TellsLast(e.w.settings, Met(e.w.settings, ix, now, t), e.w.now, e.dep, reason, now);
        CallFrames(e.w.settings, ix, now, t, e.w.ix, x.id, x.r, d);
        TellIsTold(log, e.w.log, decision.group, d.id, e.dep.state);
      }
    }

    /** With the lease in hand: UNKNOWN where the table has it, an audit entry where it has not. */
    method Stop(reason: string, ghost d: Deployment, ghost x: Watch, ghost h: nat)
      requires Ready() && e.Ready() && e.dep.id == d.id && e.dep.Resource() == d.Resource() && e.dep.state == d.state
      requires reason != ""
      modifies e`dep, e.w
      ensures Ready() && e.Ready() && old(e.w.log) <= e.w.log && OnlyOf(old(e.w.trace), e.w.trace, d.id)
      ensures e.w.turn == old(e.w.turn) + 2 && old(e.w.now) <= e.w.now
      ensures e.dep.id == d.id && e.dep.Resource() == d.Resource()
      ensures old(Calmly(x)) && e.w.turn <= x.end ==> Frame(old(e.w.ix), old(e.w.now), e.w.ix, e.w.now, x.id, x.r, d)
      ensures old(e.Holds(h) && Calmly(x)) && x.id == d.id && e.w.turn <= h && e.w.turn <= x.end ==>
                Settles(e.w.ix, old(e.w.log), e.w.log, d, GiveUp)
    {
      hide Held, Named, OutboxCoherent, Recorded, InStep, TraceHolds, PersistFirst, Met, MetTime,
           CanTransition, Frame, OnlyRecovers, Settles, Told, Stands;
      ghost var ix0, now0, log0, turn0 := e.w.ix, e.w.now, e.w.log, e.w.turn;
      RecordError(reason, d, x, h);
      ghost var ix1, now1, log1 := e.w.ix, e.w.now, e.w.log;
      ghost var held := e.Holds(h);
      if held {
        HeldStands(e.w.turns, e.w.turn, e.w.now, e.w.ix, e.dep, e.w.settings.leaseTTL, h);
      }
      if CanTransition(e.dep.state, Unknown) {
        Go(Unknown, reason, d, x, h);
        if held && e.w.turn <= h {
          HeldStands(e.w.turns, e.w.turn, e.w.now, e.w.ix, e.dep, e.w.settings.leaseTTL, h);
          SettlesMoved(e.w.ix, e.dep, log0, e.w.log, d, GiveUp);
        }
      } else {
        Tell(reason, d, x);
        if Undisturbed(e.w.turns, turn0, x.end, x.id, x.r) && x.id == d.id && Stands(ix1, e.dep) && e.w.turn <= x.end {
          StandsNow(ix1, e.w.ix, e.dep);
          SettlesTold(e.w.ix, e.dep, log0, log1, e.w.log, d);
        }
      }
      if Undisturbed(e.w.turns, turn0, x.end, x.id, x.r) && e.w.turn <= x.end {
        FrameTrans(ix0, now0, ix1, now1, e.w.ix, e.w.now, x.id, x.r, d);
      }
    }

    /** Stops and tells a human: takes the lease, leaves the row UNKNOWN or told of, gives the lease back. */
    method MarkUnknown(d: Deployment, reason: string, ghost x: Watch, ghost h: nat)
      requires Ready() && reason != ""
      modifies e`dep, e.w
      ensures Ready() && e.Ready() && old(e.w.log) <= e.w.log && OnlyOf(old(e.w.trace), e.w.trace, d.id)
      ensures old(e.w.turn) <= e.w.turn <= old(e.w.turn) + 4 && old(e.w.now) <= e.w.now
      ensures e.dep.id == d.id && e.dep.Resource() == d.Resource()
      ensures old(Calmly(x)) && e.w.turn <= x.end ==>
                && Frame(old(e.w.ix), old(e.w.now), e.w.ix, e.w.now, x.id, x.r, d)
                && (x.r == d.Resource() && !LiveAt(old(e.w.ix), x.r, old(e.w.now)) ==> !LiveAt(e.w.ix, x.r, e.w.now))
      ensures old(Takeable(d, x, h) && Calmly(x)) && x.id == d.id && e.w.turn <= h && e.w.turn <= x.end ==>
                Settles(e.w.ix, old(e.w.log), e.w.log, d, GiveUp)
    {
      hide Held, Named, OutboxCoherent, Recorded, InStep, TraceHolds, PersistFirst, Met, MetTime,
           CanTransition, Frame, OnlyRecovers, Settles, Stands, Brisk, Ours, LiveAt;
      ghost var ix0, now0, log0, turn0, calm := e.w.ix, e.w.now, e.w.log, e.w.turn, Calmly(x);
      var ok := TakeLease(d, x, h);
      SameResource(d, e.dep);
      ghost var ix1, now1, log1 := e.w.ix, e.w.now, e.w.log;
      if !ok {
        return;
      }
      Stop(reason, d, x, h);
      ghost var ix2, now2, log2 := e.w.ix, e.w.now, e.w.log;
      GiveBack(d, x);
      if calm && e.w.turn <= x.end {
        FrameTrans(ix0, now0, ix1, now1, ix2, now2, x.id, x.r, d);
        FrameTrans(ix0, now0, ix2, now2, e.w.ix, e.w.now, x.id, x.r, d);
        FrameOurs(ix1, now1, ix2, now2, x.id, x.r, d);
        SettlesKept(ix2, e.w.ix, log0, log1, log2, e.w.log, d, GiveUp);
      }
    }

    /** With the lease in hand: the move where the table has it, UNKNOWN or an audit entry where it has not. */
    method MoveOrStop(to: State, reason: string, ghost d: Deployment, ghost x: Watch, ghost h: nat)
      requires Ready() && e.Ready() && to in {Failed, Verifying} && reason != ""
      requires e.dep.id == d.id && e.dep.Resource() == d.Resource() && e.dep.state == d.state
      modifies e`dep, e.w
      ensures Ready() && e.Ready() && old(e.w.log) <= e.w.log && OnlyOf(old(e.w.trace), e.w.trace, d.id)
      ensures old(e.w.turn) <= e.w.turn <= old(e.w.turn) + 4 && old(e.w.now) <= e.w.now
      ensures e.dep.id == d.id && e.dep.Resource() == d.Resource()
      ensures old(Calmly(x)) && e.w.turn <= x.end ==> Frame(old(e.w.ix), old(e.w.now), e.w.ix, e.w.now, x.id, x.r, d)
      ensures old(e.Holds(h) && Calmly(x)) && x.id == d.id != "" && e.w.turn <= h && e.w.turn <= x.end ==>
                Settles(e.w.ix, old(e.w.log), e.w.log, d, Move(to))
    {
      hide Held, Named, OutboxCoherent, Recorded, InStep, TraceHolds, PersistFirst, Met, MetTime,
           CanTransition, Frame, OnlyRecovers, Settles, Stands, Brisk, Ours, LiveAt, Undisturbed;
      ghost var ix0, now0, log0, taken, held := e.w.ix, e.w.now, e.w.log, e.dep, e.Holds(h);
      if CanTransition(e.dep.state, to) {
        Go(to, reason, d, x, h);
        if held && e.w.turn <= h {
          HeldStands(e.w.turns, e.w.turn, e.w.now, e.w.ix, e.dep, e.w.settings.leaseTTL, h);
          SettlesMoved(e.w.ix, e.dep, log0, e.w.log, d, Move(to));
        }
      } else {
        MarkUnknown(e.dep, reason, x, h);
        FrameSame(ix0, now0, e.w.ix, e.w.now, x.id, x.r, taken, d);
        SettlesSame(e.w.ix, log0, e.w.log, taken, d, to);
      }
    }

    /** Takes the lease and moves the row, or stops where the table has no such move. */
    method Recover(d: Deployment, to: State, reason: string, ghost x: Watch, ghost h: nat)
      requires Ready() && to in {Failed, Verifying} && reason != ""
      modifies e`dep, e.w
      ensures Ready() && old(e.w.log) <= e.w.log && OnlyOf(old(e.w.trace), e.w.trace, d.id)
      ensures old(e.w.turn) <= e.w.turn <= old(e.w.turn) + 6 && old(e.w.now) <= e.w.now
      ensures old(Calmly(x)) && e.w.turn <= x.end ==>
                && Frame(old(e.w.ix), old(e.w.now), e.w.ix, e.w.now, x.id, x.r, d)
                && (x.r == d.Resource() && !LiveAt(old(e.w.ix), x.r, old(e.w.now)) ==> !LiveAt(e.w.ix, x.r, e.w.now))
      ensures old(Takeable(d, x, h) && Calmly(x)) && x.id == d.id != "" && e.w.turn <= h && e.w.turn <= x.end ==>
                Settles(e.w.ix, old(e.w.log), e.w.log, d, Move(to))
    {
      hide Held, Named, OutboxCoherent, Recorded, InStep, TraceHolds, PersistFirst, Met, MetTime,
           CanTransition, Frame, OnlyRecovers, Settles, Stands, Brisk, Ours, LiveAt, Takeable;
      ghost var ix0, now0, log0, calm := e.w.ix, e.w.now, e.w.log, Calmly(x);
      var ok := TakeLease(d, x, h);
      SameResource(d, e.dep);
      ghost var ix1, now1, log1 := e.w.ix, e.w.now, e.w.log;
      if !ok {
        return;
      }
      MoveOrStop(to, reason, d, x, h);
      ghost var ix2, now2, log2 := e.w.ix, e.w.now, e.w.log;
      GiveBack(d, x);
      if calm && e.w.turn <= x.end {
        FrameTrans(ix0, now0, ix1, now1, ix2, now2, x.id, x.r, d);
        FrameTrans(ix0, now0, ix2, now2, e.w.ix, e.w.now, x.id, x.r, d);
        FrameOurs(ix1, now1, ix2, now2, x.id, x.r, d);
        SettlesKept(ix2, e.w.ix, log0, log1, log2, e.w.log, d, Move(to));
      }
    }

    /** One orphan whose lease is free. */
    method RecoverOne(d: Deployment, p: Probe, ghost x: Watch, ghost h: nat) returns (c: Choice)
      requires Ready() && !IsTerminal(d.state)
      modifies e`dep, e.w
      ensures Ready() && old(e.w.log) <= e.w.log && OnlyOf(old(e.w.trace), e.w.trace, d.id) && c == Choose(d, p)
      ensures old(e.w.turn) <= e.w.turn <= old(e.w.turn) + 6 && old(e.w.now) <= e.w.now
      ensures old(Calmly(x)) && e.w.turn <= x.end ==>
                && Frame(old(e.w.ix), old(e.w.now), e.w.ix, e.w.now, x.id, x.r, d)
                && (x.r == d.Resource() && !LiveAt(old(e.w.ix), x.r, old(e.w.now)) ==> !LiveAt(e.w.ix, x.r, e.w.now))
      ensures old(Takeable(d, x, h) && Calmly(x)) && x.id == d.id != "" && e.w.turn <= h && e.w.turn <= x.end ==>
                Settles(e.w.ix, old(e.w.log), e.w.log, d, c)
    {
      hide Named, OutboxCoherent, Recorded, InStep, TraceHolds, OnlyRecovers, CanTransition, Takeable, Frame,
           LiveAt, Settles, OnlyOf, Undisturbed, Deployment.Resource, Met, MetTime, Held, PersistFirst, Stands;
      if p.NoConfig? {
        MarkUnknown(d, "the configuration no longer defines the target", x, h);
        return GiveUp;
      }
      if d.state == Pending || d.state == Preflight {
        Recover(d, Failed, "interrupted before any deployment was attempted", x, h);
        return Move(Failed);
      }
      if !p.Running? {
        MarkUnknown(d, "the provider cannot say what is deployed", x, h);
        return GiveUp;
      }
      if p.version == d.version {
        Recover(d, Verifying, "the new version is live but was never verified", x, h);
        return Move(Verifying);
      }
      if p.version == d.previousVersion {
        Recover(d, Failed, "the previous version is still live", x, h);
        return Move(Failed);
      }
      MarkUnknown(d, "unexpected version", x, h);
      return GiveUp;
    }

    /** One orphan: skipped while somebody holds its target. */
    method Visit(d: Deployment, p: Probe, ghost x: Watch) returns (c: Option<Choice>, ghost found: Sight)
      requires Ready() && !IsTerminal(d.state)
      modifies e`dep, e.w
      ensures Ready() && old(e.w.log) <= e.w.log && OnlyOf(old(e.w.trace), e.w.trace, d.id)
      ensures old(e.w.turn) <= e.w.turn && old(e.w.now) <= e.w.now
      ensures found.ix == old(e.w.Coming()) && found.now == old(e.w.ComingTime()) && Recorded(found.ix, found.log)
      ensures old(e.w.log) <= found.log <= e.w.log && found.now <= e.w.now
      ensures c.None? <==> LiveAt(found.ix, d.Resource(), found.now)
      ensures c.None? ==> e.w.trace == old(e.w.trace)
      ensures c.Some? ==> c.value == Choose(d, p)
      ensures old(Calmly(x)) && e.w.turn <= x.end ==>
                && (x.id != d.id || c.None? ==> RowKept(old(e.w.ix), e.w.ix, x.id))
                && (!LiveAt(old(e.w.ix), x.r, old(e.w.now)) ==> !LiveAt(found.ix, x.r, found.now))
                && (!LiveAt(old(e.w.ix), x.r, old(e.w.now)) || (x.r == d.Resource() && c.Some?) ==>
                      !LiveAt(e.w.ix, x.r, e.w.now))
      ensures old(Calmly(x) && Briskly(x) && Stands(e.w.ix, d)) && e.w.turn <= x.end
              && x.id == d.id != "" && x.r == d.Resource() && c.Some? ==>
                Settles(e.w.ix, old(e.w.log), e.w.log, d, c.value)
    {
      hide Held, Named, OutboxCoherent, Recorded, InStep, TraceHolds, OnlyRecovers, CanTransition, Settles,
           Choose, Met, MetTime, Stands, LiveAt, Undisturbed, Brisk, AllAside;
      ghost var ix0, now0, t0, turn0, log0 := e.w.ix, e.w.now, e.w.turns(e.w.turn), e.w.turn, e.w.log;
      e.w.Interlude();
      ghost var ix1, log1, turn1 := e.w.ix, e.w.log, e.w.turn;
      if Undisturbed(e.w.turns, turn0, x.end, x.id, x.r) && turn0 < x.end {
        UndisturbedNow(e.w.turns, turn0, x);
        MetSpares(e.w.settings, ix0, now0, t0, x.id, x.r);
      }
      UndisturbedLater(e.w.turns, turn0, turn1, x.end, x.id, x.r, e.w.settings.leaseTTL);
      found := Sight(ix1, e.w.now, log1);
      if LiveAt(e.w.ix, d.Resource(), e.w.now) {
        return None, found;
      }
      if x.id == d.id {
        StandsNow(ix0, ix1, d);
      }
      var choice := RecoverOne(d, p, x, if turn1 + 7 < x.end then turn1 + 7 else x.end);
      SettlesKept(e.w.ix, e.w.ix, log0, log1, e.w.log, e.w.log, d, choice);
      return Some(choice), found;
    }

    ghost function Here(): Sight
      reads e, e.w
    {
      Sight(e.w.ix, e.w.now, e.w.log)
    }

    /** The state of a pass before its i-th visit. */
    ghost predicate Midway(b: Basis, x: Watch, orphans: seq<Deployment>, i: nat, found: Option<Sight>)
      requires i <= |orphans|
      reads this, e, e.w
    {
      && Ready() && b.log <= e.w.log
      && Passing(b.log, b.trace, e.w.log, e.w.trace, orphans, i, x.id, b.d.Resource(), found)
      && (b.calm && e.w.turn <= x.end ==>
            && Calmly(x) && (b.brisk ==> Briskly(x)) && Left(b.log, Here(), b.d, b.choice, found, b.brisk)
            && (b.idle ==> !LiveAt(e.w.ix, x.r, e.w.now)
                           && (found.Some? ==> !LiveAt(found.value.ix, x.r, found.value.now))))
    }

    /** Reads the orphans. */
    method Begin(ghost c: Choice, ghost x: Watch) returns (orphans: seq<Deployment>, ghost b: Basis)
      requires Ready()
      modifies e.w`turn, e.w`now, e.w`ix, e.w`log, e.w`tries
      ensures e.w.ix == old(e.w.Coming()) && orphans == Orphans(e.w.ix, e.w.ix.order)
      ensures e.w.turn == old(e.w.turn) + 1 && old(e.w.log) <= e.w.log && Midway(b, x, orphans, 0, None)
      ensures b.log == old(e.w.log) && b.trace == old(e.w.trace) && b.choice == c
      ensures x.id in e.w.ix.deployments ==> b.d == e.w.ix.deployments[x.id] && b.d.id == x.id
      ensures b.calm <==> old(Calmly(x)) && x.id in e.w.ix.deployments && x.r == b.d.Resource()
      ensures (b.brisk <==> old(Briskly(x)) && x.id != "") && (b.idle <==> !LiveAt(old(e.w.ix), x.r, old(e.w.now)))
      ensures DistinctIds(orphans) && forall i :: 0 <= i < |orphans| ==> RowOf(e.w.ix, e.w.ix.order, orphans[i])
      ensures forall i :: 0 <= i < |orphans| ==> !IsTerminal(orphans[i].state)
      ensures forall id :: id in e.w.ix.deployments && !IsTerminal(e.w.ix.deployments[id].state) ==>
                e.w.ix.deployments[id] in orphans
    {
      hide Held, Named, OutboxCoherent, Recorded, InStep, TraceHolds, PersistFirst, Met, MetTime, OnlyRecovers,
           Settles, LiveAt, Left, Undisturbed, Brisk, AllAside, Passing, DistinctIds, RowOf, RowKept, IsTerminal;
      ghost var ix0, now0, log0, turn0, t0 := e.w.ix, e.w.now, e.w.log, e.w.turn, e.w.turns(e.w.turn);
      ghost var calm, brisk := Calmly(x), x.id != "" && Briskly(x);
      e.w.Interlude();
      orphans := Orphans(e.w.ix, e.w.ix.order);
      if calm && turn0 < x.end {
        UndisturbedNow(e.w.turns, turn0, x);
        MetSpares(e.w.settings, ix0, now0, t0, x.id, x.r);
      }
      UndisturbedLater(e.w.turns, turn0, e.w.turn, x.end, x.id, x.r, e.w.settings.leaseTTL);
      EachOnce(e.w.ix, e.w.log, orphans);
      ghost var d := if x.id in e.w.ix.deployments then e.w.ix.deployments[x.id] else e.dep;
      b := Basis(log0, e.w.trace, d, c, calm && x.id in e.w.ix.deployments && x.r == d.Resource(), brisk,
                 !LiveAt(ix0, x.r, now0));
      PassBegins(log0, e.w.trace, e.w.log, orphans, x.id, d.Resource());
      if x.id in e.w.ix.deployments {
        RowNamed(e.w.ix, x.id);
        NothingDone(log0, Here(), d, c, brisk);
      }
    }

    /** Visits the i-th orphan. */
    method Attend(orphans: seq<Deployment>, i: nat, p: Probe, ghost start: Index, ghost b: Basis, ghost x: Watch,
                  ghost found: Option<Sight>)
      returns (c: Option<Choice>, ghost found': Option<Sight>)
      requires i < |orphans| && Midway(b, x, orphans, i, found)
      requires DistinctIds(orphans) && RowOf(start, start.order, orphans[i]) && !IsTerminal(orphans[i].state)
      requires x.id in start.deployments ==>
                 && b.d == start.deployments[x.id] && b.d.id == x.id
                 && (orphans[i].id == x.id ==> b.choice == Choose(b.d, p))
      requires b.calm ==> x.id in start.deployments && x.r == b.d.Resource()
      requires b.brisk ==> x.id != ""
      modifies e`dep, e.w
      ensures Midway(b, x, orphans, i + 1, found') && old(e.w.turn) <= e.w.turn && old(e.w.log) <= e.w.log
      ensures c.Some? ==> c.value == Choose(orphans[i], p)
    {
      hide Held, Named, OutboxCoherent, Recorded, InStep, TraceHolds, PersistFirst, Met, MetTime,
           OnlyRecovers, Settles, Choose, Deployment.Resource, LiveAt, Left, Undisturbed, Brisk, AllAside,
           Passing, OnlyOf, DistinctIds, RowOf, RowKept, IsTerminal;
      ghost var here, trace, turn, d := Here(), e.w.trace, e.w.turn, orphans[i];
      ghost var ready := b.calm && turn <= x.end;
      OneOfThem(start, orphans, i, x.id, found, b.log, b.trace, here.log, trace, b.d.Resource());
      if ready && found.None? {
        StandsUnseen(b.log, here, b.d, b.choice, b.brisk);
      }
      ghost var f;
      c, f := Visit(orphans[i], p, x);
      UndisturbedLater(e.w.turns, turn, e.w.turn, x.end, x.id, x.r, e.w.settings.leaseTTL);
      found' := if d.id == x.id then Some(f) else found;
      PassOn(b.log, b.trace, here.log, trace, e.w.log, e.w.trace, orphans, i, x.id, b.d.Resource(), c, found, f);
      if ready && e.w.turn <= x.end {
        PassStep(b.log, here, Here(), b.d, d, b.choice, c, found, f, b.brisk);
      }
    }

    /** Visits the orphans in order. */
    method VisitAll(orphans: seq<Deployment>, probe: string -> Probe, ghost start: Index, ghost b: Basis,
                    ghost x: Watch)
      returns (tally: Tally, ghost found: Option<Sight>, ghost choices: seq<Option<Choice>>)
      requires Midway(b, x, orphans, 0, None) && DistinctIds(orphans)
      requires forall i :: 0 <= i < |orphans| ==> RowOf(start, start.order, orphans[i]) && !IsTerminal(orphans[i].state)
      requires x.id in start.deployments ==>
                 b.d == start.deployments[x.id] && b.d.id == x.id && b.choice == Choose(b.d, probe(x.id))
      requires b.calm ==> x.id in start.deployments && x.r == b.d.Resource()
      requires b.brisk ==> x.id != ""
      modifies e`dep, e.w
      ensures Midway(b, x, orphans, |orphans|, found) && old(e.w.turn) <= e.w.turn && old(e.w.log) <= e.w.log
      ensures tally.Adds() && tally.Counts(choices) && |choices| == |orphans|
      ensures forall i :: 0 <= i < |orphans| && choices[i].Some? ==>
                choices[i].value == Choose(orphans[i], probe(orphans[i].id))
    {
      hide Midway, DistinctIds, RowOf, IsTerminal, Choose, Deployment.Resource, Tally.Count;
      found, tally, choices := None, Tally(0, 0, 0, 0, 0), [];
      for i := 0 to |orphans|
        invariant Midway(b, x, orphans, i, found) && old(e.w.turn) <= e.w.turn && old(e.w.log) <= e.w.log
        invariant tally.Adds() && tally.Counts(choices) && |choices| == i
        invariant forall j :: 0 <= j < i && choices[j].Some? ==>
                    choices[j].value == Choose(orphans[j], probe(orphans[j].id))
      {
        var c;
        c, found := Attend(orphans, i, probe(orphans[i].id), start, b, x, found);
        CountsOneMore(tally, choices, c, orphans[i], probe(orphans[i].id));
        tally, choices := tally.Count(c), choices + [c];
      }
    }

    /** One pass over the rows a crash left behind. */
    method Reconcile(probe: string -> Probe, ghost x: Watch)
      returns (tally: Tally, ghost found: Option<Sight>, ghost choices: seq<Option<Choice>>)
      requires Ready()
      modifies e`dep, e.w
      ensures Ready() && old(e.w.log) <= e.w.log && old(e.w.turn) < e.w.turn && Calls(e.w.trace) == []
      ensures var orphans := Orphans(old(e.w.Coming()), old(e.w.Coming()).order);
              && tally.Adds() && tally.Counts(choices) && |choices| == |orphans|
              && forall i :: 0 <= i < |orphans| && choices[i].Some? ==>
                   choices[i].value == Choose(orphans[i], probe(orphans[i].id))
      ensures found.Some? <==> x.id in old(e.w.Coming()).deployments
                               && !IsTerminal(old(e.w.Coming()).deployments[x.id].state)
      ensures found.Some? ==> Recorded(found.value.ix, found.value.log) && old(e.w.log) <= found.value.log <= e.w.log
      ensures found.None? || LiveAt(found.value.ix, old(e.w.Coming()).deployments[x.id].Resource(), found.value.now) ==>
                Silent(old(e.w.trace), e.w.trace, x.id)
      ensures old(Calmly(x)) && e.w.turn <= x.end
              && x.id in old(e.w.Coming()).deployments && x.r == old(e.w.Coming()).deployments[x.id].Resource() ==>
                var d := old(e.w.Coming()).deployments[x.id];
                && Left(old(e.w.log), Here(), d, Choose(d, probe(x.id)), found, x.id != "" && old(Briskly(x)))
                && (!LiveAt(old(e.w.ix), x.r, old(e.w.now)) ==>
                      !LiveAt(e.w.ix, x.r, e.w.now)
                      && (found.Some? ==> !LiveAt(found.value.ix, x.r, found.value.now)))
      ensures old(Calmly(x) && Briskly(x)) && e.w.turn <= x.end && x.id != ""
              && x.id in old(e.w.Coming()).deployments && x.r == old(e.w.Coming()).deployments[x.id].Resource()
              && found.Some? && !LiveAt(found.value.ix, x.r, found.value.now) ==>
                Shown(e.w.ix, old(e.w.log), e.w.log, old(e.w.Coming()).deployments[x.id], probe(x.id))
    {
      hide Held, Named, OutboxCoherent, Recorded, InStep, TraceHolds, PersistFirst, Met, MetTime,
           OnlyRecovers, Settles, Choose, Deployment.Resource, LiveAt, Calls, Left, Undisturbed, Brisk,
           Passing, Silent, DistinctIds, RowOf, IsTerminal, Shown;
      ghost var met := e.w.Coming();
      ghost var choice := if x.id in met.deployments then Choose(met.deployments[x.id], probe(x.id)) else GiveUp;
      var orphans, b := Begin(choice, x);
      tally, found, choices := VisitAll(orphans, probe, met, b, x);
      NoDeploys(e.w.trace, "");
      if x.id in met.deployments && !IsTerminal(met.deployments[x.id].state) {
        LeftAsShown(b.log, Here(), met.deployments[x.id], probe(x.id), found);
      }
      PassEnds(met, b.log, b.trace, e.w.log, e.w.trace, orphans, x.id, b.d.Resource(), found);
    }

    /**
      * Two passes, whatever the targets answer each time. A row that a deploy was working on, its
      * lease run out and nobody else touching it, has ended: it is FAILED or UNKNOWN.
      */
    method ReconcileTwice(probe: string -> Probe, probe': string -> Probe, ghost x: Watch)
      requires Ready()
      modifies e`dep, e.w
      ensures Ready() && old(e.w.log) <= e.w.log && Calls(e.w.trace) == []
      ensures old(Calmly(x) && Briskly(x)) && e.w.turn <= x.end && x.id != ""
              && x.id in old(e.w.Coming()).deployments && x.r == old(e.w.Coming()).deployments[x.id].Resource()
              && old(e.w.Coming()).deployments[x.id].state in {Deploying, Verifying, Promoting, RollingBack}
              && !LiveAt(old(e.w.ix), x.r, old(e.w.now)) ==>
                x.id in e.w.ix.deployments && e.w.ix.deployments[x.id].state in {Failed, Unknown}
    {
      hide Held, Named, OutboxCoherent, Recorded, InStep, TraceHolds, PersistFirst, Met, MetTime,
           OnlyRecovers, Settles, Choose, Deployment.Resource, LiveAt, Calls, Left, Undisturbed, Brisk, Silent,
           AllAside, RowKept, Orphans;
      ghost var met, log0, turn0, calm := e.w.Coming(), e.w.log, e.w.turn, Calmly(x) && Briskly(x) && x.id != "";
      ghost var idle := !LiveAt(e.w.ix, x.r, e.w.now);
      RowMet(e.w);
      var _, found, _ := Reconcile(probe, x);
      UndisturbedLater(e.w.turns, turn0, e.w.turn, x.end, x.id, x.r, e.w.settings.leaseTTL);
      ghost var one, t, met', turn1 := Here(), e.w.turns(e.w.turn), e.w.Coming(), e.w.turn;
      RowMet(e.w);
      var _, found', _ := Reconcile(probe', x);
      if calm && idle && e.w.turn <= x.end && x.id in met.deployments && x.r == met.deployments[x.id].Resource()
         && met.deployments[x.id].state in {Deploying, Verifying, Promoting, RollingBack}
      {
        UndisturbedNow(e.w.turns, turn1, x);
        MetSpares(e.w.settings, one.ix, one.now, t, x.id, x.r);
        var d := met.deployments[x.id];
        SettledOnce(log0, one, met', d, Choose(d, probe(x.id)), found);
        var d' := met'.deployments[x.id];
        SettledTwice(one.log, Here(), d, d', probe(x.id), probe'(x.id), found');
      }
    }

    /** The row that the coming call will find is under its own id. */
    lemma RowMet(w: World)
      requires w.Valid()
      ensures forall id :: id in w.Coming().deployments ==> w.Coming().deployments[id].id == id
    {
      hide OutboxCoherent, Recorded, InStep, TraceHolds, Met;
      MetNamed(w.settings, w.ix, w.now, w.turns(w.turn));
    }
  }

  lemma FrameTrans(ix1: Index, now1: Time, ix2: Index, now2: Time, ix3: Index, now3: Time,
                   id: string, r: string, d: Deployment)
    requires Frame(ix1, now1, ix2, now2, id, r, d) && Frame(ix2, now2, ix3, now3, id, r, d)
    ensures Frame(ix1, now1, ix3, now3, id, r, d)
  {
    hide LiveAt, Ours, Deployment.Resource;
  }

  lemma FrameOurs(ix: Index, now: Time, ix': Index, now': Time, id: string, r: string, d: Deployment)
    requires Frame(ix, now, ix', now', id, r, d)
    ensures r == d.Resource() && Ours(ix, r, d.id) ==> Ours(ix', r, d.id)
  {
  }

  /** The executor's row has been moved where the choice leads. */
  lemma SettlesMoved(ix: Index, d': Deployment, log: seq<Change>, log': seq<Change>, d: Deployment, c: Choice)
    requires Stands(ix, d') && d'.id == d.id && d'.Resource() == d.Resource()
    requires d'.state == Settled(d.state, c) && !OnlyTold(d.state, c)
    requires (c.Move? && CanTransition(d.state, c.to)) || d'.error != ""
    ensures Settles(ix, log, log', d, c)
  {
  }

  /** The executor's row stands where it was, and has been told of. */
  lemma SettlesTold(ix: Index, d': Deployment, log: seq<Change>, log1: seq<Change>, log': seq<Change>, d: Deployment)
    requires Stands(ix, d') && d'.id == d.id && d'.Resource() == d.Resource() && d'.state == d.state
    requires !CanTransition(d.state, Unknown) && d'.error != "" && log <= log1 && Told(log1, log', d.id, d.state)
    ensures Settles(ix, log, log', d, GiveUp)
  {
  }

  lemma SettlesKept(ix: Index, ix': Index, log: seq<Change>, log1: seq<Change>, log2: seq<Change>, log': seq<Change>,
                    d: Deployment, c: Choice)
    requires log <= log1 && log2 <= log'
    ensures Settles(ix, log1, log2, d, c) && RowKept(ix, ix', d.id) ==> Settles(ix', log, log', d, c)
  {
    if OnlyTold(d.state, c) && Told(log1, log2, d.id, d.state) {
      var k :| |log1| <= k < |log2| && log2[k].AuditRow? && TellsUnknown(log2[k].entry, d.id, d.state);
      assert log'[k] == log2[k];
    }
  }

  lemma FrameSame(ix: Index, now: Time, ix': Index, now': Time, id: string, r: string, d: Deployment, d': Deployment)
    requires d'.id == d.id && d'.Resource() == d.Resource()
    ensures Frame(ix, now, ix', now', id, r, d) <==> Frame(ix, now, ix', now', id, r, d')
  {
    hide RowKept, LeaseIdle, Ours;
  }

  /** Giving up on a row that cannot be moved where it should is what that move comes to. */
  lemma SettlesSame(ix: Index, log: seq<Change>, log': seq<Change>, d: Deployment, d': Deployment, to: State)
    requires d'.id == d.id && d'.Resource() == d.Resource() && d'.state == d.state && !CanTransition(d.state, to)
    ensures Settles(ix, log, log', d, GiveUp) ==> Settles(ix, log, log', d', Move(to))
  {
    hide Told, CanTransition;
  }

  lemma EachOnce(ix: Index, log: seq<Change>, ds: seq<Deployment>)
    requires Named(ix) && Recorded(ix, log) && ds == Orphans(ix, ix.order)
    ensures DistinctIds(ds) && forall i :: 0 <= i < |ds| ==> !IsTerminal(ds[i].state) && RowOf(ix, ix.order, ds[i])
    ensures forall id :: id in ix.deployments && !IsTerminal(ix.deployments[id].state) ==> ix.deployments[id] in ds
  {
    hide ApplyAll;
    GroupKeepsOrder(EMPTY_INDEX, log);
    OrphansComplete(ix, ix.order);
    assert forall i :: 0 <= i < |ds| ==> ds[i] in ds;
  }

  /** The orphan visited is the index's row, and no earlier one was the same. */
  lemma OneOfThem(ix: Index, ds: seq<Deployment>, i: nat, id: string, found: Option<Sight>,
                  log: seq<Change>, t: seq<Event>, log': seq<Change>, t': seq<Event>, r: string)
    requires DistinctIds(ds) && i < |ds| && RowOf(ix, ix.order, ds[i])
    requires Passing(log, t, log', t', ds, i, id, r, found)
    ensures ds[i].id == id ==> id in ix.deployments && ds[i] == ix.deployments[id] && found.None?
  {
    hide Silent, LiveAt, Recorded;
  }

  lemma PassBegins(log: seq<Change>, t: seq<Event>, log': seq<Change>, ds: seq<Deployment>, id: string, r: string)
    requires log <= log'
    ensures Passing(log, t, log', t, ds, 0, id, r, None)
  {
  }

  lemma PassOn(log: seq<Change>, t: seq<Event>, log1: seq<Change>, t1: seq<Event>, log2: seq<Change>, t2: seq<Event>,
               ds: seq<Deployment>, i: nat, id: string, r: string, c: Option<Choice>, found: Option<Sight>, f: Sight)
    requires i < |ds| && Passing(log, t, log1, t1, ds, i, id, r, found)
    requires log1 <= f.log <= log2 && Recorded(f.ix, f.log) && OnlyOf(t1, t2, ds[i].id) && (c.None? ==> t2 == t1)
    requires ds[i].id == id ==> found.None? && (c.None? <==> LiveAt(f.ix, r, f.now))
    ensures Passing(log, t, log2, t2, ds, i + 1, id, r, if ds[i].id == id then Some(f) else found)
  {
    hide LiveAt, Recorded;
    SilentOn(t, t1, t2, ds[i].id, id);
    assert ds[i].id == id ==> exists j :: 0 <= j < i + 1 && ds[j].id == id;
  }

  /** A pass visits the watched row exactly if it is an orphan. */
  lemma PassEnds(ix: Index, log: seq<Change>, t: seq<Event>, log': seq<Change>, t': seq<Event>, ds: seq<Deployment>,
                 id: string, r: string, found: Option<Sight>)
    requires Passing(log, t, log', t', ds, |ds|, id, r, found)
    requires forall i :: 0 <= i < |ds| ==> !IsTerminal(ds[i].state) && RowOf(ix, ix.order, ds[i])
    requires forall k :: k in ix.deployments && !IsTerminal(ix.deployments[k].state) ==> ix.deployments[k] in ds
    requires id in ix.deployments ==> ix.deployments[id].id == id
    ensures found.Some? <==> id in ix.deployments && !IsTerminal(ix.deployments[id].state)
    ensures found.Some? ==> Recorded(found.value.ix, found.value.log) && log <= found.value.log <= log'
    ensures found.None? || LiveAt(found.value.ix, r, found.value.now) ==> Silent(t, t', id)
  {
    hide LiveAt, Recorded, Silent;
    if id in ix.deployments && !IsTerminal(ix.deployments[id].state) {
      assert ix.deployments[id] in ds && ix.deployments[id].id == id;
    }
  }

  lemma NothingDone(log: seq<Change>, s: Sight, d: Deployment, c: Choice, brisk: bool)
    requires d.id in s.ix.deployments && s.ix.deployments[d.id] == d
    ensures Left(log, s, d, c, None, brisk)
  {
  }

  lemma StandsUnseen(log: seq<Change>, s: Sight, d: Deployment, c: Choice, brisk: bool)
    requires Left(log, s, d, c, None, brisk)
    ensures Stands(s.ix, d)
  {
  }

  lemma SilentOn(t0: seq<Event>, t1: seq<Event>, t2: seq<Event>, id: string, watched: string)
    requires t0 <= t1 && OnlyOf(t1, t2, id)
    ensures t0 <= t2
    ensures Silent(t0, t1, watched) && (id != watched || t2 == t1) ==> Silent(t0, t2, watched)
  {
  }

  /** One visit of a pass, as far as the watched row is concerned. */
  lemma PassStep(log: seq<Change>, s1: Sight, s2: Sight, d: Deployment, visited: Deployment, choice: Choice,
                 c: Option<Choice>, found: Option<Sight>, f: Sight, brisk: bool)
    requires Left(log, s1, d, choice, found, brisk) && log <= s1.log <= s2.log
    requires visited.id == d.id ==> visited == d && found.None?
    requires c.None? <==> LiveAt(f.ix, visited.Resource(), f.now)
    requires d.id != visited.id || c.None? ==> RowKept(s1.ix, s2.ix, d.id)
    requires !LiveAt(s1.ix, d.Resource(), s1.now) || (d.Resource() == visited.Resource() && c.Some?) ==>
               !LiveAt(s2.ix, d.Resource(), s2.now)
    requires brisk && visited.id == d.id && c.Some? ==> Settles(s2.ix, s1.log, s2.log, d, choice)
    ensures Left(log, s2, d, choice, if visited.id == d.id then Some(f) else found, brisk)
  {
    hide Deployment.Resource, LiveAt, Settles;
    SettlesKept(s1.ix, s2.ix, log, log, s1.log, s2.log, d, choice);
    SettlesKept(s2.ix, s2.ix, log, s1.log, s2.log, s2.log, d, choice);
  }

  /** The row is where what its target runs leaves it; given up, it says why, and an entry tells of it if it stays. */
  predicate Shown(ix: Index, log: seq<Change>, log': seq<Change>, d: Deployment, p: Probe) {
    && d.id in ix.deployments && Evident(d, p, ix.deployments[d.id].state)
    && (ix.deployments[d.id].state in {d.state, Unknown} ==> ix.deployments[d.id].error != "")
    && (ix.deployments[d.id].state == d.state ==> Told(log, log', d.id, d.state))
  }

  lemma LeftAsShown(log: seq<Change>, s: Sight, d: Deployment, p: Probe, found: Option<Sight>)
    requires !IsTerminal(d.state)
    ensures Left(log, s, d, Choose(d, p), found, true)
            && found.Some? && !LiveAt(found.value.ix, d.Resource(), found.value.now) ==>
              Shown(s.ix, log, s.log, d, p)
  {
    hide Deployment.Resource, LiveAt, Settled, Told, Choose, Evident, OnlyTold;
    EvidenceDecides(d, p);
    SettlingDescends(d, p);
    GivenUp(d, p);
  }

  lemma SettledOnce(log: seq<Change>, s: Sight, met: Index, d: Deployment, c: Choice, found: Option<Sight>)
    requires Left(log, s, d, c, found, true) && found.Some? && !LiveAt(found.value.ix, d.Resource(), found.value.now)
    requires RowKept(s.ix, met, d.id)
    ensures d.id in met.deployments
    ensures var d' := met.deployments[d.id]; d'.state == Settled(d.state, c) && d'.Resource() == d.Resource()
  {
    hide Deployment.Resource, LiveAt, Settled, Told;
  }

  lemma SettledTwice(log: seq<Change>, s: Sight, d: Deployment, d': Deployment, p: Probe, p': Probe,
                     found: Option<Sight>)
    requires d.state in {Deploying, Verifying, Promoting, RollingBack}
    requires d'.id == d.id && d'.state == Settled(d.state, Choose(d, p)) && d'.Resource() == d.Resource()
    requires Left(log, s, d', Choose(d', p'), found, true)
    requires found.Some? <==> !IsTerminal(d'.state)
    requires found.Some? ==> !LiveAt(found.value.ix, d.Resource(), found.value.now)
    ensures d.id in s.ix.deployments && s.ix.deployments[d.id].state in {Failed, Unknown}
  {
    hide Deployment.Resource, LiveAt, Settled, Told, Choose;
    TwoPasses(d, d', p, p');
  }
}
