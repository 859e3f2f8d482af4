/**
  * Holding a lease: what it takes to keep it while others use the store, and what the store calls
  * of its holder do to the row, the lease and everything else.
  */
module Holding {
  import opened Prelude
  import opened Lifecycle
  import opened Records
  import opened AuditChain
  import opened Decisions
  import opened Coherence
  import opened Runs
  import opened Walks
  import opened Worlds
  import opened Conduct
  import Fencing
  import J = Journal
  import T = Tears

  /**
    * The disk takes the coming write, others leave the row of id and, heartbeats aside, the lease
    * on r alone, and they and we are in time: before the lease, which runs out at u when the turn
    * begins, has run out, its renewals among them counted.
    */
  predicate Calm(t: Turn, u: Time, id: string, r: string, fence: int, ttl: int) {
    var beat := Renew(r, id, fence);
    && t.disk.Accepts? && AllHarmless(t.foreign, id, r)
    && InTime(u, t.foreign, beat, ttl) && t.at < Extended(u, t.foreign, beat, ttl)
  }

  /** All turns from n to end are calm for a lease that runs out at u when the first begins. */
  ghost predicate Steady(turns: nat -> Turn, n: nat, end: nat, u: Time, id: string, r: string, fence: int, ttl: int)
    decreases end - n
  {
    n < end ==>
      && Calm(turns(n), u, id, r, fence, ttl)
      && Steady(turns, n + 1, end, Extended(u, turns(n).foreign, Renew(r, id, fence), ttl), id, r, fence, ttl)
  }

  /** What the executor has learnt about its deployment is in the row. */
  predicate Saved(row: Deployment, d: Deployment) {
    && row.version == d.version && row.previousVersion == d.previousVersion
    && row.providerHandle == d.providerHandle && row.error == d.error
  }

  /** The row is as the executor has it. */
  predicate Stands(ix: Index, d: Deployment) {
    && d.id in ix.deployments && ix.deployments[d.id].state == d.state
    && ix.deployments[d.id].Resource() == d.Resource() && Saved(ix.deployments[d.id], d)
  }

  /** The row is as the executor has it, the executor holds the live lease, and that stays so up to turn end. */
  ghost predicate Held(turns: nat -> Turn, turn: nat, now: Time, ix: Index, d: Deployment, ttl: int, end: nat) {
    var r := d.Resource();
    && Stands(ix, d)
    && r in ix.leases && ix.leases[r].holder == d.id != "" && ix.leases[r].fenceToken == d.fence
    && now < ix.leases[r].expiresAt <= now + ttl && ttl > 0
    && Steady(turns, turn, end, ix.leases[r].expiresAt, d.id, r, d.fence, ttl)
  }

  // ------------------------------------------------------- time

  lemma {:induction false} ExtendedGrows(u: Time, v: Time, ins: seq<Input>, beat: Op, ttl: int)
    requires u <= v
    ensures u <= Extended(u, ins, beat, ttl) <= Extended(v, ins, beat, ttl)
  {
    if ins != [] {
      ExtendedGrows(u, v, ins[..|ins| - 1], beat, ttl);
    }
  }

  lemma CalmLonger(t: Turn, u: Time, v: Time, id: string, r: string, fence: int, ttl: int)
    requires Calm(t, u, id, r, fence, ttl) && u <= v
    ensures Calm(t, v, id, r, fence, ttl)
  {
    hide AllHarmless, Extended;
    var beat := Renew(r, id, fence);
    ExtendedGrows(u, v, t.foreign, beat, ttl);
    forall k | 0 <= k < |t.foreign| ensures t.foreign[k].now < Extended(v, t.foreign[..k], beat, ttl) {
      ExtendedGrows(u, v, t.foreign[..k], beat, ttl);
    }
  }

  /** What is steady for a lease is steady for one that runs out later. */
  lemma {:induction false} SteadyLonger(turns: nat -> Turn, n: nat, end: nat, u: Time, v: Time,
                                        id: string, r: string, fence: int, ttl: int)
    requires Steady(turns, n, end, u, id, r, fence, ttl) && u <= v
    ensures Steady(turns, n, end, v, id, r, fence, ttl)
    decreases end - n
  {
    hide Calm, Extended;
    if n < end {
      var beat := Renew(r, id, fence);
      CalmLonger(turns(n), u, v, id, r, fence, ttl);
      ExtendedGrows(u, v, turns(n).foreign, beat, ttl);
      SteadyLonger(turns, n + 1, end, Extended(u, turns(n).foreign, beat, ttl),
                   Extended(v, turns(n).foreign, beat, ttl), id, r, fence, ttl);
    }
  }

  /** The lease is renewed every so often, beginning one interval after start. */
  predicate Beating(ins: seq<Input>, start: Time, every: int, beat: Op) {
    forall i :: 0 <= i < |ins| ==> ins[i] == Input(start + (i + 1) * every, beat, J.Accepts)
  }

  lemma {:induction false} BeatsExtend(ins: seq<Input>, start: Time, every: int, r: string, id: string, fence: int,
                                       ttl: int)
    requires Beating(ins, start, every, Renew(r, id, fence)) && 0 < every
    ensures Extended(start + ttl, ins, Renew(r, id, fence), ttl) == start + |ins| * every + ttl
  {
    if ins != [] {
      BeatsExtend(ins[..|ins| - 1], start, every, r, id, fence, ttl);
    }
  }

  /** A wait of any length is calm if the holder renews its lease more often than it runs out. */
  lemma {:induction false} BeatingIsCalm(t: Turn, start: Time, every: int, id: string, r: string, fence: int, ttl: int)
    requires t.disk.Accepts? && 0 < every < ttl && Beating(t.foreign, start, every, Renew(r, id, fence))
    requires t.at <= start + (|t.foreign| + 1) * every
    ensures Calm(t, start + ttl, id, r, fence, ttl)
  {
    var ins, beat := t.foreign, Renew(r, id, fence);
    BeatsExtend(ins, start, every, r, id, fence, ttl);
    assert start + (|ins| + 1) * every == start + |ins| * every + every;
    forall k | 0 <= k < |ins| ensures ins[k].now < Extended(start + ttl, ins[..k], beat, ttl) {
      BeatsExtend(ins[..k], start, every, r, id, fence, ttl);
      assert start + (k + 1) * every == start + k * every + every;
    }
  }

  // ------------------------------------------------------- keeping hold

  /** Whatever happens in a calm turn before our call, the row and the lease are still ours when it comes. */
  lemma HeldAdvances(cf: Settings, turns: nat -> Turn, turn: nat, now: Time, ix: Index, d: Deployment, end: nat)
    requires Named(ix) && Held(turns, turn, now, ix, d, cf.leaseTTL, end) && turn < end
    ensures turns(turn).disk.Accepts?
    ensures var t := turns(turn);
            Held(turns, turn + 1, MetTime(now, t), Met(cf, ix, now, t), d, cf.leaseTTL, end)
  {
    hide Exec, Deployment.Resource, Named, AllHarmless, InTime, Extended, Latest, Clocked;
    var r, t := d.Resource(), turns(turn);
    var u, beat := ix.leases[r].expiresAt, Renew(r, d.id, d.fence);
    HarmlessRun(cf, ix, now, u, t.foreign, d.id, r);
    LatestInTime(now, u, t.foreign, beat, cf.leaseTTL);
    SteadyLonger(turns, turn + 1, end, Extended(u, t.foreign, beat, cf.leaseTTL),
                 Met(cf, ix, now, t).leases[r].expiresAt, d.id, r, d.fence, cf.leaseTTL);
  }

  /** A holder's transition is accepted exactly when the table allows it, and the holder keeps hold. */
  lemma HeldMoves(cf: Settings, turns: nat -> Turn, turn: nat, now: Time, ix: Index, d: Deployment, end: nat, op: Op)
    requires Named(ix) && Held(turns, turn, now, ix, d, cf.leaseTTL, end)
    requires op.Transition? && op.id == d.id && op.fence == d.fence && op.from == d.state
    ensures Decide(cf, ix, now, op).Write? <==> CanTransition(d.state, op.to)
    ensures var decision := Decide(cf, ix, now, op);
            Held(turns, turn, now, Next(cf, ix, now, op), if decision.Write? then d.(state := op.to) else d,
                 cf.leaseTTL, end)
  {
    hide Guarded, CanTransition, TransitionRows, ApplyAll, Steady, Moved;
    var row := ix.deployments[d.id];
    assert d.(state := op.to).Resource() == d.Resource();
    RowNamed(ix, d.id);
    if Decide(cf, ix, now, op).Write? {
      MovedKeeps(row, op.to, now);
      Fencing.TransitionLeavesLeases(cf, ix, now, row, op.to, op.entry, op.notes);
      TransitionRow(cf, ix, now, row, op.to, op.entry, op.notes);
    } else {
      NothingApplied(ix);
    }
  }

  lemma NothingApplied(ix: Index)
    ensures ApplyAll(ix, []) == ix
  {
  }

  lemma TransitionRow(cf: Settings, ix: Index, now: Time, d: Deployment, to: State,
                      entry: Option<Draft>, notes: seq<OutboxEntry>)
    ensures var ix' := ApplyAll(ix, TransitionRows(cf, ix, now, d, to, entry, notes));
            d.id in ix'.deployments && ix'.deployments[d.id] == Moved(d, to, now)
  {
    hide ApplyAll, NextEntry, Moved, Stamped;
    var cs := TransitionRows(cf, ix, now, d, to, entry, notes);
    var row := Moved(d, to, now);
    MovedKeeps(d, to, now);
    RowGroup(ix, row, cs[1..]);
    assert cs == [DeploymentRow(row)] + cs[1..];
  }

  lemma MovedKeeps(d: Deployment, to: State, now: Time)
    ensures Moved(d, to, now).id == d.id && Moved(d, to, now).state == to
    ensures Moved(d, to, now).Resource() == d.Resource() && Saved(Moved(d, to, now), d)
  {
  }

  /** The same run as far as the store is concerned: only what the executor has learnt may differ. */
  predicate SameRow(d: Deployment, d': Deployment) {
    && d'.id == d.id && d'.fence == d.fence && d'.state == d.state
    && d'.app == d.app && d'.environment == d.environment
  }

  /** Writing the row saves whatever the executor has changed in its copy. */
  lemma HeldUpdates(cf: Settings, turns: nat -> Turn, turn: nat, now: Time, ix: Index,
                    was: Deployment, d: Deployment, end: nat)
    requires Held(turns, turn, now, ix, was, cf.leaseTTL, end) && SameRow(was, d)
    ensures Decide(cf, ix, now, Update(d)).Write?
    ensures Held(turns, turn, now, Next(cf, ix, now, Update(d)), d, cf.leaseTTL, end)
  {
    hide Steady;
    var row := DeploymentRow(d.(updatedAt := now));
    ApplyTwo(ix, row, row);
    assert d.(updatedAt := now).Resource() == d.Resource() == was.Resource();
  }

  lemma HeldStands(turns: nat -> Turn, turn: nat, now: Time, ix: Index, d: Deployment, ttl: int, end: nat)
    requires Held(turns, turn, now, ix, d, ttl, end)
    ensures Stands(ix, d) && d.Resource() in ix.leases && ix.leases[d.Resource()].holder == d.id
  {
  }

  /** Being held does not depend on how the executor classifies the deployment. */
  lemma HeldSame(turns: nat -> Turn, turn: nat, now: Time, ix: Index, d: Deployment, isRollback: bool, ttl: int,
                 end: nat)
    ensures Held(turns, turn, now, ix, d, ttl, end)
       <==> Held(turns, turn, now, ix, d.(isRollback := isRollback), ttl, end)
  {
    hide Steady;
    assert d.Resource() == d.(isRollback := isRollback).Resource();
  }

  // ------------------------------------------------------- taking hold

  predicate LiveAt(ix: Index, r: string, now: Time) {
    r in ix.leases && ix.leases[r].Live(now)
  }

  /** The token an acquisition answers with. */
  function Granted(d: Decision): int {
    match d
    case Keep(token) => token
    case Write(group) => if group != [] && group[0].LeaseRow? then group[0].lease.fenceToken else 0
    case Refuse(_) => 0
  }

  /** A lease that nobody holds is granted, for one TTL, and held as long as the schedule is steady. */
  lemma GrantHolds(cf: Settings, turns: nat -> Turn, turn: nat, now: Time, ix: Index, d: Deployment, node: string,
                   end: nat)
    requires Named(ix) && Stands(ix, d) && d.id != "" && cf.leaseTTL > 0 && !LiveAt(ix, d.Resource(), now)
    requires Steady(turns, turn, end, now + cf.leaseTTL, d.id, d.Resource(), Token(ix, d.Resource()) + 1, cf.leaseTTL)
    ensures var acquire := Acquire(d.Resource(), d.id, node);
            var decision := Decide(cf, ix, now, acquire);
            && decision.Write?
            && Held(turns, turn, now, Next(cf, ix, now, acquire), d.(fence := Granted(decision)), cf.leaseTTL, end)
  {
    hide Steady;
    var r := d.Resource();
    var group := Writes(cf, ix, now, Acquire(r, d.id, node));
    ApplyTwo(ix, group[0], group[0]);
    assert d.(fence := Token(ix, r) + 1).Resource() == r;
  }

  /** A holder that asks for its lease again keeps it as it is. */
  lemma HoldsAgain(cf: Settings, turns: nat -> Turn, turn: nat, now: Time, ix: Index, d: Deployment, node: string,
                   end: nat)
    requires Held(turns, turn, now, ix, d, cf.leaseTTL, end)
    ensures var acquire := Acquire(d.Resource(), d.id, node);
            Decide(cf, ix, now, acquire) == Keep(d.fence) && Next(cf, ix, now, acquire) == ix
  {
    hide Steady;
    NothingApplied(ix);
  }

  /** The lease has been granted beyond token k, or is not in the hands of id. */
  predicate Unheld(ix: Index, r: string, id: string, k: int) {
    r in ix.leases && ix.leases[r].fenceToken >= k
    && (ix.leases[r].fenceToken == k ==> ix.leases[r].holder == "" || ix.leases[r].holder != id)
  }

  lemma StaysUnheld(cf: Settings, ix: Index, now: Time, t: Turn, r: string, id: string, k: int)
    requires Named(ix) && Unheld(ix, r, id, k)
    ensures Unheld(Met(cf, ix, now, t), r, id, k)
  {
    hide Exec, Clocked;
    Fencing.TokensGrow(cf, ix, Clocked(now, t.foreign), r);
  }

  lemma TokenStays(cf: Settings, ix: Index, now: Time, t: Turn, r: string)
    requires Named(ix) && r in ix.leases
    ensures var ix' := Met(cf, ix, now, t); r in ix'.leases && ix'.leases[r].fenceToken >= ix.leases[r].fenceToken
    ensures Met(cf, ix, now, t).leases[r].holder !in {"", ix.leases[r].holder} ==>
              Met(cf, ix, now, t).leases[r].fenceToken > ix.leases[r].fenceToken
  {
    hide Exec, Clocked;
    Fencing.TokensGrow(cf, ix, Clocked(now, t.foreign), r);
  }

  lemma BreakUnholds(cf: Settings, ix: Index, now: Time, r: string, actor: string, id: string, k: int)
    requires Named(ix) && r in ix.leases && ix.leases[r].fenceToken >= k
    ensures Unheld(Next(cf, ix, now, Break(r, actor)), r, id, k)
  {
    hide Next;
    Fencing.LeaseStep(cf, ix, now, Break(r, actor));
  }

  /** Who does not hold a lease under token k is granted it only under a larger one. */
  lemma GrantedAnew(cf: Settings, ix: Index, now: Time, r: string, id: string, node: string, k: int)
    requires Unheld(ix, r, id, k) && !Decide(cf, ix, now, Acquire(r, id, node)).Refuse?
    ensures Granted(Decide(cf, ix, now, Acquire(r, id, node))) > k
  {
  }

  // ------------------------------------------------------- what a call leaves alone

  /** An operation on one deployment's row, its target's lease, the audit log or the outbox. */
  predicate Own(op: Op, id: string, r: string) {
    match op
    case Create(_, _) => false
    case Transition(i, _, _, _, _, _) => i == id
    case Update(d) => d.id == id
    case Acquire(res, _, _) => res == r
    case Renew(res, _, _) => res == r
    case Release(res, _) => res == r
    case Break(res, _) => res == r
    case _ => true
  }

  /** Only the row of id and the lease on r may differ, and no audit entry is lost. */
  predicate Apart(ix: Index, ix': Index, id: string, r: string) {
    && ix'.deployments - {id} == ix.deployments - {id}
    && ix'.leases - {r} == ix.leases - {r}
    && ix.audit <= ix'.audit
  }

  lemma OwnStep(cf: Settings, ix: Index, now: Time, op: Op, id: string, r: string)
    requires Named(ix) && Own(op, id, r)
    ensures Apart(ix, Next(cf, ix, now, op), id, r)
  {
    hide NextEntry, Moved, CreatedDraft, BrokenDraft, Marked, Refusal, ApplyAll, ApplyRecord, Writes, Named;
    Fencing.LeaseStep(cf, ix, now, op);
    OwnRows(cf, ix, now, op, id, r);
    RowsApart(ix, Writes(cf, ix, now, op), id);
    OwnLease(cf, ix, now, op, id, r);
  }

  /** Only lease operations touch leases. */
  lemma SameLeases(cf: Settings, ix: Index, now: Time, op: Op)
    requires Named(ix) && (op.Transition? || op.Update? || op.AppendAudit?)
    ensures Next(cf, ix, now, op).leases == ix.leases
  {
    hide Next;
    Fencing.LeaseStep(cf, ix, now, op);
  }

  /** Rows that nothing here reads leave everything here as it is. */
  lemma RecordChangesNothing(cf: Settings, ix: Index, now: Time, text: string)
    ensures Next(cf, ix, now, Record(text)) == ix && Burned(ix, Writes(cf, ix, now, Record(text))) == ix
    ensures Decide(cf, ix, now, Record(text)).Write?
  {
    ApplyTwo(ix, OtherRow(text), OtherRow(text));
    BurnsNothing(ix, [OtherRow(text)]);
  }

  /** A rewrite that is accepted puts the caller's whole copy in place, whatever has become of the row meanwhile. */
  lemma UpdateIsWhole(cf: Settings, ix: Index, now: Time, d: Deployment)
    ensures var ix' := Next(cf, ix, now, Update(d));
            Decide(cf, ix, now, Update(d)).Write? ==>
              d.id in ix'.deployments && ix'.deployments[d.id] == d.(updatedAt := now)
  {
    var row := DeploymentRow(d.(updatedAt := now));
    ApplyTwo(ix, row, row);
  }

  lemma BurnedApart(ix: Index, group: seq<Change>, id: string, r: string)
    ensures Apart(ix, Burned(ix, group), id, r)
  {
  }

  lemma OwnLease(cf: Settings, ix: Index, now: Time, op: Op, id: string, r: string)
    requires Own(op, id, r)
    ensures Fencing.LeasesAfter(cf, ix, now, op) - {r} == ix.leases - {r}
  {
  }

  lemma OwnRows(cf: Settings, ix: Index, now: Time, op: Op, id: string, r: string)
    requires Named(ix) && Own(op, id, r)
    ensures var cs := Writes(cf, ix, now, op); forall i :: 0 <= i < |cs| && cs[i].DeploymentRow? ==> IsRow(cs[i], id)
  {
    hide NextEntry, BrokenDraft, Marked, FenceOk, Stamped, Guarded, CanTransition, IsTerminal;
  }

  lemma {:induction false} RowsApart(ix: Index, cs: seq<Change>, id: string)
    requires forall i :: 0 <= i < |cs| && cs[i].DeploymentRow? ==> IsRow(cs[i], id)
    ensures ApplyAll(ix, cs).deployments - {id} == ix.deployments - {id}
    ensures ix.audit <= ApplyAll(ix, cs).audit
  {
    if cs != [] {
      RowsApart(ix, cs[..|cs| - 1], id);
    }
  }

  lemma ReleaseKeepsRows(cf: Settings, ix: Index, now: Time, resource: string, holder: string)
    ensures Next(cf, ix, now, Release(resource, holder)).deployments == ix.deployments
  {
    var group := Writes(cf, ix, now, Release(resource, holder));
    if group != [] {
      ApplyTwo(ix, group[0], group[0]);
    }
  }

  /** A lease given back by its holder is nobody's. */
  lemma ReleasedLease(cf: Settings, ix: Index, now: Time, r: string, id: string)
    requires Named(ix) && r in ix.leases && ix.leases[r].holder == id
    ensures !LiveAt(Next(cf, ix, now, Release(r, id)), r, now)
  {
    hide Next;
    Fencing.LeaseStep(cf, ix, now, Release(r, id));
  }

  lemma ReleaseBurnsNothing(cf: Settings, ix: Index, now: Time, resource: string, holder: string)
    ensures Burned(ix, Writes(cf, ix, now, Release(resource, holder))) == ix
  {
    BurnsNothing(ix, Writes(cf, ix, now, Release(resource, holder)));
  }

  // ------------------------------------------------------- after the end

  /** The deployment has ended, however that came about. */
  predicate Ended(ix: Index, id: string) {
    id in ix.deployments && IsTerminal(ix.deployments[id].state)
  }

  lemma StaysEnded(cf: Settings, ix: Index, now: Time, t: Turn, id: string)
    requires Named(ix) && Ended(ix, id)
    ensures Ended(Met(cf, ix, now, t), id)
    ensures Met(cf, ix, now, t).deployments[id].state == ix.deployments[id].state
  {
    hide Exec, Clocked, Named;
    TerminalAbsorbs(cf, ix, Clocked(now, t.foreign), id);
  }

  /** Whatever a caller takes its state to be, a deployment that has ended is not moved again. */
  lemma EndedRefuses(cf: Settings, ix: Index, now: Time, op: Op)
    requires op.Transition? && Ended(ix, op.id)
    ensures Decide(cf, ix, now, op).Refuse? && Next(cf, ix, now, op) == ix
  {
    NothingApplied(ix);
  }

  lemma BurnedEnded(ix: Index, group: seq<Change>, id: string)
    ensures Ended(Burned(ix, group), id) <==> Ended(ix, id)
  {
  }

  lemma EndedUpdates(cf: Settings, ix: Index, now: Time, d: Deployment, id: string)
    requires Named(ix) && Ended(ix, id)
    ensures Ended(Next(cf, ix, now, Update(d)), id)
  {
    hide Named;
    WritesAre(cf, ix, now, Update(d));
    var row := DeploymentRow(d.(updatedAt := now));
    ApplyTwo(ix, row, row);
  }

  // ------------------------------------------------------- moves

  /** A written transition puts the row first in its group, and was legal and fenced. */
  lemma WrittenMove(cf: Settings, ix: Index, now: Time, op: Op)
    requires Named(ix) && op.Transition? && Decide(cf, ix, now, op).Write?
    ensures var d := Decide(cf, ix, now, op);
            && MovesRow(d.group, op.id, op.to)
            && op.id in ix.deployments && CanTransition(op.from, op.to)
    ensures var ix' := Next(cf, ix, now, op);
            && op.id in ix'.deployments && ix'.leases == ix.leases
            && ix'.deployments[op.id].Resource() == ix.deployments[op.id].Resource()
            && ix'.deployments[op.id].state == op.to
    ensures op.from != Pending || op.to == Preflight ==>
              FenceOk(ix, ix.deployments[op.id].Resource(), op.id, op.fence, now)
  {
    hide Guarded, CanTransition, ApplyAll, Moved, FenceOk, NextEntry;
    RowNamed(ix, op.id);
    RefusesUnknown(ix, now, op.id, op.fence, op.from, op.to);
    NeedsLease(op.from, op.to);
    var row := ix.deployments[op.id];
    MovedKeeps(row, op.to, now);
    Fencing.TransitionLeavesLeases(cf, ix, now, row, op.to, op.entry, op.notes);
    TransitionRow(cf, ix, now, row, op.to, op.entry, op.notes);
  }

  /** The audit entry of a move: who, what, on which target, from where to where, and why if that is known. */
  predicate Tells(e: AuditEntry, d: Deployment, to: State, reason: string) {
    && e.actor == d.triggeredBy && e.action == "deployment." + Lowered(StateName(to))
    && e.resource == "app:" + d.app + "/env:" + d.environment
    && e.detail.Keys == {"deployment", "version", "from", "to"} + (if reason == "" then {} else {"reason"})
    && e.detail["deployment"] == d.id && e.detail["version"] == d.version
    && e.detail["from"] == StateName(d.state) && e.detail["to"] == StateName(to)
    && (reason != "" ==> e.detail["reason"] == reason)
  }

  /** The notice of a move for one notifier, still to be delivered. */
  predicate Notice(n: OutboxEntry, d: Deployment, to: State, reason: string, notifier: string) {
    && n.notifier == notifier && n.payload == reason && n.dedupeKey == NoteKey(d.id, to, notifier)
    && n.attempts == 0 && n.deliveredAt.None?
  }

  /** The group of a move: the row, its audit entry and one note per notifier. */
  predicate Publishes(group: seq<Change>, d: Deployment, to: State, reason: string, notifiers: seq<string>) {
    && |group| == 2 + |notifiers|
    && group[0].DeploymentRow? && group[0].deployment.id == d.id && group[0].deployment.state == to
    && group[1].AuditRow? && Tells(group[1].entry, d, to, reason)
    && forall j :: 2 <= j < |group| ==>
         group[j].OutboxRow? && Notice(group[j].note, d, to, reason, notifiers[j - 2])
  }

  /** The last group in the journal is the move's. */
  predicate Published(d: Deployment, to: State, reason: string, notifiers: seq<string>, log: seq<Change>) {
    var n := 2 + |notifiers|;
    n <= |log| && Publishes(log[|log| - n..], d, to, reason, notifiers)
  }

  /** The move has been published at some point of the journal. */
  ghost predicate PublishedIn(d: Deployment, to: State, reason: string, notifiers: seq<string>, log: seq<Change>) {
    exists n: nat :: n <= |log| && Published(d, to, reason, notifiers, log[..n])
  }

  lemma PublishedBefore(d: Deployment, d': Deployment, to: State, reason: string, notifiers: seq<string>,
                        log: seq<Change>, log': seq<Change>)
    requires log <= log' && d' == d.(fence := d'.fence)
    ensures Published(d', to, reason, notifiers, log) ==> PublishedIn(d, to, reason, notifiers, log')
  {
    hide Publishes;
    assert log'[..|log|] == log;
    if Published(d', to, reason, notifiers, log) {
      FenceAside(log[|log| - 2 - |notifiers|..], d, d', to, reason, notifiers);
      assert Published(d, to, reason, notifiers, log'[..|log|]);
    }
  }

  lemma FenceAside(group: seq<Change>, d: Deployment, d': Deployment, to: State, reason: string, notifiers: seq<string>)
    requires d' == d.(fence := d'.fence) && Publishes(group, d', to, reason, notifiers)
    ensures Publishes(group, d, to, reason, notifiers)
  {
    hide Lowered, StateName;
    forall j | 2 <= j < |group| ensures group[j].OutboxRow? && Notice(group[j].note, d, to, reason, notifiers[j - 2]) {
      assert Notice(group[j].note, d', to, reason, notifiers[j - 2]);
    }
  }

  /** A move that is accepted is published by its group. */
  lemma MovePublished(cf: Settings, ix: Index, now: Time, at: Time, d: Deployment, to: State, reason: string,
                      notifiers: seq<string>, group: seq<Change>, log: seq<Change>)
    requires Named(ix) && Decide(cf, ix, now, MoveOp(d, to, reason, at, notifiers)) == Write(group)
    requires |group| <= |log| && log[|log| - |group|..] == group
    ensures Published(d, to, reason, notifiers, log)
  {
    hide Refusal, TransitionRows, Publishes, MoveDraft, MoveNotes;
    var op := MoveOp(d, to, reason, at, notifiers);
    RefusesUnknown(ix, now, op.id, op.fence, op.from, op.to);
    RowNamed(ix, d.id);
    GroupPublishes(cf, ix, now, at, d, ix.deployments[d.id], to, reason, notifiers);
    SizeOf(group, d, to, reason, notifiers);
  }

  lemma SizeOf(group: seq<Change>, d: Deployment, to: State, reason: string, notifiers: seq<string>)
    requires Publishes(group, d, to, reason, notifiers)
    ensures |group| == 2 + |notifiers|
  {
  }

  lemma GroupPublishes(cf: Settings, ix: Index, now: Time, at: Time, d: Deployment, row: Deployment, to: State,
                       reason: string, notifiers: seq<string>)
    requires row.id == d.id
    ensures Publishes(TransitionRows(cf, ix, now, row, to, Some(MoveDraft(d, to, reason, at)),
                                     MoveNotes(d, to, reason, notifiers)),
                      d, to, reason, notifiers)
  {
    hide NextEntry, Tells, Notice, NoteRows, Moved, Completed, MoveDraft, MoveNotes;
    MovedKeeps(row, to, now);
    var first, notes := DeploymentRow(Moved(row, to, now)), MoveNotes(d, to, reason, notifiers);
    EntryTells(cf, ix, [first], now, at, d, row, to, reason);
    NotesAre(notes, ix.outboxSeq, now, d, to, reason, notifiers);
  }

  lemma EntryTells(cf: Settings, ix: Index, recs: seq<Change>, now: Time, at: Time, d: Deployment, row: Deployment,
                   to: State, reason: string)
    ensures Tells(NextEntry(cf.hasher, ix, recs, Completed(MoveDraft(d, to, reason, at), row, now)), d, to, reason)
  {
    hide AuditHash, LastHash, AuditRows, StateName, Lowered;
    assert |d.Resource()| > 0;
  }

  lemma NotesAre(notes: seq<OutboxEntry>, top: int, now: Time, d: Deployment, to: State, reason: string,
                 notifiers: seq<string>)
    requires notes == MoveNotes(d, to, reason, notifiers)
    ensures |notes| == |notifiers|
    ensures var rows := NoteRows(notes, top, now);
            forall i :: 0 <= i < |rows| ==> rows[i].OutboxRow? && Notice(rows[i].note, d, to, reason, notifiers[i])
  {
  }

  lemma WritesAre(cf: Settings, ix: Index, now: Time, op: Op)
    ensures var d := Decide(cf, ix, now, op); d.Write? ==> Writes(cf, ix, now, op) == d.group
    ensures !Decide(cf, ix, now, op).Write? ==> Next(cf, ix, now, op) == ix
  {
    hide Decide;
  }

  /** A move that the store has just accepted. */
  lemma MoveLogged(ix: Index, op: Op, e: Event, tries: seq<T.Try>)
    requires op.Transition? && e.Accepted? && e.id == op.id && e.from == op.from && e.to == op.to && e.fence == op.fence
    requires tries != [] && e.position == |tries| - 1 && tries[|tries| - 1].disk.Accepts?
    requires MovesRow(tries[|tries| - 1].group.changes, op.id, op.to) && CanTransition(op.from, op.to)
    requires op.id in ix.deployments && ix.deployments[op.id].state == op.to
    requires var r := ix.deployments[op.id].Resource(); e.lease == if r in ix.leases then Some(ix.leases[r]) else None
    requires op.from != Pending || op.to == Preflight ==>
               FenceOk(ix, ix.deployments[op.id].Resource(), op.id, op.fence, e.at)
    ensures Logged(e, tries) && Onwards(e, ix, tries)
  {
  }
}
