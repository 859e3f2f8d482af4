/** Schedules in which others keep away from one row and its target altogether, and what that row can count on. */
module Watching {
  import opened Prelude
  import opened Records
  import opened Decisions
  import opened Coherence
  import opened Runs
  import opened Walks
  import opened Worlds
  import opened Holding
  import Fencing

  /** An operation that leaves the row of id and, heartbeats aside, the lease on r alone. */
  predicate Aside(op: Op, id: string, r: string) {
    match op
    case Transition(i, _, _, _, _, _) => i != id
    case Update(d) => d.id != id
    case Acquire(res, _, _) => res != r
    case Release(res, _) => res != r
    case Break(res, _) => res != r
    case _ => true
  }

  predicate AllAside(ins: seq<Input>, id: string, r: string) {
    forall i :: 0 <= i < |ins| ==> Aside(ins[i].op, id, r)
  }

  lemma AsideHarmless(ins: seq<Input>, id: string, r: string)
    requires AllAside(ins, id, r)
    ensures AllHarmless(ins, id, r)
  {
  }

  /**
    * In the turns from n to end the journal takes every write and others leave the row of id and,
    * heartbeats aside, the lease on r alone.
    */
  ghost predicate Undisturbed(turns: nat -> Turn, n: nat, end: nat, id: string, r: string) {
    forall i :: n <= i < end ==> turns(i).disk.Accepts? && AllAside(turns(i).foreign, id, r)
  }

  /** Everything in the turn happens before u. */
  predicate By(t: Turn, u: Time) {
    t.at < u && forall k :: 0 <= k < |t.foreign| ==> t.foreign[k].now < u
  }

  /** Any seven calls in a row, and what others do between them, fall within one lease. */
  ghost predicate Brisk(turns: nat -> Turn, n: nat, end: nat, ttl: int) {
    forall i, j :: n <= i < j < end && j <= i + 6 ==> By(turns(j), turns(i).at + ttl)
  }

  /** The row of id, if there is one, is the same. */
  predicate RowKept(ix: Index, ix': Index, id: string) {
    id in ix.deployments ==> id in ix'.deployments && ix'.deployments[id] == ix.deployments[id]
  }

  /** The lease on r has the same holder, and has not come to life. */
  predicate LeaseIdle(ix: Index, now: Time, ix': Index, now': Time, r: string) {
    && (r in ix.leases <==> r in ix'.leases)
    && (r in ix.leases ==> ix'.leases[r].holder == ix.leases[r].holder)
    && (!LiveAt(ix, r, now) ==> !LiveAt(ix', r, now'))
  }

  lemma HarmlessSpares(cf: Settings, ix: Index, now: Time, now': Time, op: Op, id: string, r: string)
    requires Named(ix) && Aside(op, id, r) && now <= now'
    ensures RowKept(ix, Next(cf, ix, now', op), id) && LeaseIdle(ix, now, Next(cf, ix, now', op), now', r)
  {
    hide Next, Named, Writes;
    Fencing.LeaseStep(cf, ix, now', op);
    if id in ix.deployments {
      NotItsRow(cf, ix, now', op, id, r);
      RowWritten(cf, ix, now', op, id);
    }
    LeasesIdle(cf, ix, now, now', op, id, r);
  }

  /** The same for one call, refused or not. */
  lemma EffectSpares(cf: Settings, ix: Index, now: Time, i: Input, id: string, r: string)
    requires Named(ix) && Aside(i.op, id, r) && now <= i.now
    ensures RowKept(ix, Effect(cf, ix, i), id) && LeaseIdle(ix, now, Effect(cf, ix, i), i.now, r)
  {
    hide Next, Named, Writes, Aside;
    HarmlessSpares(cf, ix, now, i.now, i.op, id, r);
  }

  lemma RowWritten(cf: Settings, ix: Index, now: Time, op: Op, id: string)
    requires var cs := Writes(cf, ix, now, op); forall i :: 0 <= i < |cs| ==> !IsRow(cs[i], id)
    ensures RowKept(ix, Next(cf, ix, now, op), id)
  {
    hide Writes, ApplyAll;
    RowFrame(ix, Writes(cf, ix, now, op), id);
  }

  lemma LeasesIdle(cf: Settings, ix: Index, now: Time, now': Time, op: Op, id: string, r: string)
    requires Named(ix) && Aside(op, id, r) && now <= now'
    ensures LeaseIdle(ix, now, ix.(leases := Fencing.LeasesAfter(cf, ix, now', op)), now', r)
  {
  }

  /** Harmless calls leave the row alone and bring no lease to life. */
  lemma {:induction false} OthersSpare(cf: Settings, ix: Index, now: Time, ins: seq<Input>, id: string, r: string)
    requires Named(ix) && AllAside(ins, id, r)
    ensures var ix' := Exec(cf, ix, Clocked(now, ins));
            RowKept(ix, ix', id) && LeaseIdle(ix, now, ix', Latest(now, ins), r)
  {
    hide Effect, Named, Aside;
    if ins != [] {
      var init, last := ins[..|ins| - 1], ins[|ins| - 1];
      OthersSpare(cf, ix, now, init, id, r);
      var ix1 := Exec(cf, ix, Clocked(now, init));
      ReachableNamed(cf, ix, Clocked(now, init));
      assert Aside(last.op, id, r);
      EffectSpares(cf, ix1, Latest(now, init), Input(Latest(now, ins), last.op, last.disk), id, r);
      OneMoreExec(cf, ix, Clocked(now, init), Input(Latest(now, ins), last.op, last.disk));
    }
  }

  lemma MetSpares(cf: Settings, ix: Index, now: Time, t: Turn, id: string, r: string)
    requires Named(ix) && AllAside(t.foreign, id, r)
    ensures RowKept(ix, Met(cf, ix, now, t), id) && LeaseIdle(ix, now, Met(cf, ix, now, t), MetTime(now, t), r)
  {
    hide Exec, Clocked, Named, AllAside;
    OthersSpare(cf, ix, now, t.foreign, id, r);
  }

  /** A lease granted at a turn is steady for six more. */
  lemma {:induction false} BriskIsSteady(turns: nat -> Turn, n: nat, end: nat, u: Time, v: Time,
                                         id: string, r: string, fence: int, ttl: int)
    requires Undisturbed(turns, n, end, id, r) && u <= v
    requires forall j :: n <= j < end ==> By(turns(j), u)
    ensures Steady(turns, n, end, v, id, r, fence, ttl)
    decreases end - n
  {
    hide AllAside, AllHarmless, Extended;
    if n < end {
      AsideHarmless(turns(n).foreign, id, r);
      var t, beat := turns(n), Renew(r, id, fence);
      assert By(t, u);
      ExtendedGrows(v, v, t.foreign, beat, ttl);
      forall k | 0 <= k < |t.foreign| ensures t.foreign[k].now < Extended(v, t.foreign[..k], beat, ttl) {
        ExtendedGrows(v, v, t.foreign[..k], beat, ttl);
      }
      BriskIsSteady(turns, n + 1, end, u, Extended(v, t.foreign, beat, ttl), id, r, fence, ttl);
    }
  }

  /** A row to watch, its target, and the turn up to which nobody disturbs them. */
  datatype Watch = Watch(id: string, r: string, end: nat)

  lemma UndisturbedNow(turns: nat -> Turn, n: nat, x: Watch)
    requires Undisturbed(turns, n, x.end, x.id, x.r) && n < x.end
    ensures turns(n).disk.Accepts? && AllAside(turns(n).foreign, x.id, x.r)
  {
  }

  lemma NewLeaseSteady(turns: nat -> Turn, n: nat, now: Time, x: Watch, h: nat, fence: int, ttl: int)
    requires Undisturbed(turns, n, x.end, x.id, x.r) && Brisk(turns, n, x.end, ttl) && n < h <= x.end && h <= n + 7
    ensures Steady(turns, n + 1, h, MetTime(now, turns(n)) + ttl, x.id, x.r, fence, ttl)
  {
    hide By, AllAside;
    BriskIsSteady(turns, n + 1, h, turns(n).at + ttl, MetTime(now, turns(n)) + ttl, x.id, x.r, fence, ttl);
  }

  lemma SameResource(d: Deployment, d': Deployment)
    requires d'.app == d.app && d'.environment == d.environment
    ensures d'.Resource() == d.Resource()
  {
  }

  lemma UndisturbedLater(turns: nat -> Turn, n: nat, m: nat, end: nat, id: string, r: string, ttl: int)
    requires n <= m
    ensures Undisturbed(turns, n, end, id, r) ==> Undisturbed(turns, m, end, id, r)
    ensures Brisk(turns, n, end, ttl) ==> Brisk(turns, m, end, ttl)
  {
  }

  lemma StandsNow(ix: Index, ix': Index, d: Deployment)
    ensures Stands(ix, d) && RowKept(ix, ix', d.id) ==> Stands(ix', d)
  {
  }

  /** What Abortable asks of the index. */
  lemma StaysAbortable(cf: Settings, turns: nat -> Turn, n: nat, ix: Index, now: Time, d: Deployment, end: nat)
    requires Named(ix) && n < end && Undisturbed(turns, n, end, d.id, d.Resource())
    requires LiveAt(ix, d.Resource(), now) ==> ix.leases[d.Resource()].holder == d.id
    ensures var ix', now' := Met(cf, ix, now, turns(n)), MetTime(now, turns(n));
            && Named(ix') && RowKept(ix, ix', d.id)
            && (LiveAt(ix', d.Resource(), now') ==> ix'.leases[d.Resource()].holder == d.id)
            && Undisturbed(turns, n + 1, end, d.id, d.Resource())
    ensures Brisk(turns, n, end, cf.leaseTTL) ==> Brisk(turns, n + 1, end, cf.leaseTTL)
  {
    hide Met, MetTime, AllAside, By, Named;
    UndisturbedNow(turns, n, Watch(d.id, d.Resource(), end));
    MetNamed(cf, ix, now, turns(n));
    MetSpares(cf, ix, now, turns(n), d.id, d.Resource());
    UndisturbedLater(turns, n, n + 1, end, d.id, d.Resource(), cf.leaseTTL);
  }

  lemma StandsAsRead(ix: Index, d: Deployment)
    requires d.id in ix.deployments && ix.deployments[d.id] == d
    ensures Stands(ix, d)
  {
  }

  /** A lease that is broken is nobody's, and the rows stay. */
  lemma BreakFrees(cf: Settings, turns: nat -> Turn, n: nat, ix: Index, now: Time, d: Deployment, actor: string,
                   end: nat)
    requires Named(ix) && n < end && Undisturbed(turns, n, end, d.id, d.Resource())
    requires d.Resource() in ix.leases
    ensures var met, now', op := Met(cf, ix, now, turns(n)), MetTime(now, turns(n)), Break(d.Resource(), actor);
            && turns(n).disk.Accepts? && Decide(cf, met, now', op).Write? && RowKept(ix, met, d.id)
            && Next(cf, met, now', op).deployments == met.deployments
            && !LiveAt(Next(cf, met, now', op), d.Resource(), now')
            && Undisturbed(turns, n + 1, end, d.id, d.Resource())
    ensures Brisk(turns, n, end, cf.leaseTTL) ==> Brisk(turns, n + 1, end, cf.leaseTTL)
  {
    hide Met, MetTime, AllAside, By, Named, Next, Decide;
    var r, t := d.Resource(), turns(n);
    UndisturbedNow(turns, n, Watch(d.id, r, end));
    MetNamed(cf, ix, now, t);
    MetSpares(cf, ix, now, t, d.id, r);
    UndisturbedLater(turns, n, n + 1, end, d.id, r, cf.leaseTTL);
    BrokenLease(cf, Met(cf, ix, now, t), MetTime(now, t), r, actor);
  }

  lemma BrokenLease(cf: Settings, ix: Index, now: Time, r: string, actor: string)
    requires Named(ix) && r in ix.leases
    ensures var op := Break(r, actor);
            && Decide(cf, ix, now, op).Write? && Next(cf, ix, now, op).deployments == ix.deployments
            && !LiveAt(Next(cf, ix, now, op), r, now)
  {
    hide NextEntry;
    var group := Writes(cf, ix, now, Break(r, actor));
    ApplyTwo(ix, group[0], group[1]);
  }
}
