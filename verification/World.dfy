/**
  * The surroundings of an engine call: the store's index and journal, the clock, and everything
  * other callers do in between, each at its own time. What happens between two of the engine's
  * store calls is fixed by a schedule, so a statement about every schedule is one about every
  * interleaving.
  */
module Worlds {
  import opened Prelude
  import opened Lifecycle
  import opened Records
  import opened Decisions
  import opened Coherence
  import opened Runs
  import opened Walks
  import Fencing
  import J = Journal
  import T = Tears

  /** Before one of the engine's store calls: what others do and when, when our call comes, what the disk does. */
  datatype Turn = Turn(foreign: seq<Input>, at: Time, disk: J.Disk)

  /** What an engine call does that can be seen from outside. Positions count the writes tried so far. */
  datatype Event =
    | Accepted(id: string, from: State, to: State, fence: int, lease: Option<Lease>, at: Time, position: nat)
    | DeployCalled(key: string, version: string, fence: int, journaled: nat)
    | ShiftCalled(weight: int, took: bool)

  /** The group of a move: its row first, and no other row. */
  predicate MovesRow(cs: seq<Change>, id: string, to: State) {
    && cs != [] && IsRow(cs[0], id) && cs[0].deployment.state == to
    && forall k :: 1 <= k < |cs| ==> !cs[k].DeploymentRow?
  }

  /** A recorded transition is a write that the disk took, legal, and if it needed a lease made under a live one. */
  predicate Logged(e: Event, tries: seq<T.Try>) {
    e.Accepted? ==>
      && e.position < |tries| && tries[e.position].disk.Accepts?
        && MovesRow(tries[e.position].group.changes, e.id, e.to)
      && CanTransition(e.from, e.to)
      && (e.from != Pending || e.to == Preflight ==>
            && e.lease.Some? && e.lease.value.holder == e.id
            && e.lease.value.fenceToken <= e.fence && !e.lease.value.Expired(e.at))
  }

  /** No row of id is nearer the start of the table than s. */
  predicate RowsFrom(cs: seq<Change>, id: string, s: State) {
    forall k :: 0 <= k < |cs| && IsRow(cs[k], id) ==> Rank(cs[k].deployment.state) <= Rank(s)
  }

  /** From a recorded transition on its deployment has not gone back, nor has any write, taken or refused, tried to. */
  predicate Onwards(e: Event, ix: Index, tries: seq<T.Try>) {
    e.Accepted? ==>
      && e.id in ix.deployments && Rank(ix.deployments[e.id].state) <= Rank(e.to)
      && forall j :: e.position < j < |tries| ==> RowsFrom(tries[j].group.changes, e.id, e.to)
  }

  // ------------------------------------------------------------ time and others

  /** The clock after some calls: it does not go back. */
  function Latest(now: Time, ins: seq<Input>): Time {
    if ins == [] then now else Max(Latest(now, ins[..|ins| - 1]), ins[|ins| - 1].now)
  }

  /** The calls, each at the time the clock shows. */
  function Clocked(now: Time, ins: seq<Input>): seq<Input> {
    if ins == [] then []
    else Clocked(now, ins[..|ins| - 1]) + [Input(Latest(now, ins), ins[|ins| - 1].op, ins[|ins| - 1].disk)]
  }

  /** The index as the coming call finds it. */
  function Met(cf: Settings, ix: Index, now: Time, t: Turn): Index {
    Exec(cf, ix, Clocked(now, t.foreign))
  }

  function MetTime(now: Time, t: Turn): (later: Time)
    ensures later >= t.at
  {
    Max(Latest(now, t.foreign), t.at)
  }

  lemma {:induction false} LatestGrows(now: Time, ins: seq<Input>)
    ensures Latest(now, ins) >= now
  {
    if ins != [] {
      LatestGrows(now, ins[..|ins| - 1]);
    }
  }

  // ------------------------------------------------------------ what the journal tells

  /** The index is the replay of what the disk took, but for outbox numbers used up by refused writes. */
  ghost predicate Recorded(ix: Index, log: seq<Change>) {
    UpToCounter(ApplyAll(EMPTY_INDEX, log), ix)
  }

  lemma StaysRecorded(cf: Settings, ix: Index, i: Input, log: seq<Change>)
    requires Recorded(ix, log)
    ensures Recorded(Effect(cf, ix, i), log + Taken(cf, ix, i))
  {
    hide Effect, Taken, UpToCounter, ApplyAll;
    ApplyAllConcat(EMPTY_INDEX, log, Taken(cf, ix, i));
    EffectIsReplay(cf, ix, ApplyAll(EMPTY_INDEX, log), i);
  }

  lemma EffectNumbered(cf: Settings, ix: Index, i: Input)
    requires OutboxCoherent(ix)
    ensures OutboxCoherent(Effect(cf, ix, i))
  {
    hide Next, OutboxCoherent, Writes;
    NextNumbered(cf, ix, i.now, i.op);
    BurnedCoherent(ix, Writes(cf, ix, i.now, i.op));
  }

  /** Whatever is tried next, refused or not, no deployment goes back behind a recorded transition. */
  lemma StaysOnwards(cf: Settings, ix: Index, i: Input, e: Event, tries: seq<T.Try>)
    requires Named(ix) && Onwards(e, ix, tries) && (e.Accepted? ==> e.position < |tries|)
    ensures Onwards(e, Effect(cf, ix, i), tries)
    ensures e.Accepted? ==> RowsFrom(Writes(cf, ix, i.now, i.op), e.id, e.to)
  {
    hide Writes, Effect, RowStates, Rank, Named;
    if e.Accepted? {
      RowStep(cf, ix, i.now, i.op, e.id);
      EffectRow(cf, ix, i, e.id);
      StepsDown(ix.deployments[e.id].state);
      StatesFrom(Writes(cf, ix, i.now, i.op), e.id, e.to);
    }
  }

  lemma StepsDown(s: State)
    ensures forall s' :: Step(s, s') ==> Rank(s') <= Rank(s)
  {
    forall s' | Step(s, s') && s' != s ensures Rank(s') <= Rank(s) {
      RankDrops(s, s');
    }
  }

  /** The rows of a group are its states. */
  lemma StatesFrom(cs: seq<Change>, id: string, s: State)
    requires forall x :: x in RowStates(cs, id) ==> Rank(x) <= Rank(s)
    ensures RowsFrom(cs, id, s)
  {
    hide Rank, RowStates;
    forall k | 0 <= k < |cs| && IsRow(cs[k], id) ensures Rank(cs[k].deployment.state) <= Rank(s) {
      RowCounts(cs, k, id);
    }
  }

  lemma NothingClocked(cf: Settings, ix: Index, now: Time)
    ensures Clocked(now, []) == [] && Latest(now, []) == now && Exec(cf, ix, []) == ix
  {
  }

  lemma ClockedStep(now: Time, ins: seq<Input>, i: nat)
    requires i < |ins|
    ensures Latest(now, ins[..i + 1]) == Max(Latest(now, ins[..i]), ins[i].now)
    ensures Clocked(now, ins[..i + 1])
         == Clocked(now, ins[..i]) + [Input(Latest(now, ins[..i + 1]), ins[i].op, ins[i].disk)]
  {
    assert ins[..i + 1][..i] == ins[..i];
  }

  lemma MetNamed(cf: Settings, ix: Index, now: Time, t: Turn)
    requires Named(ix)
    ensures Named(Met(cf, ix, now, t))
  {
    hide Exec;
    ReachableNamed(cf, ix, Clocked(now, t.foreign));
  }

  /** The sequence number of the next write. */
  function NextSeq(tries: seq<T.Try>): nat {
    if tries == [] then 1 else tries[|tries| - 1].group.seqNo + 1
  }

  lemma NextSeqNumbered(tries: seq<T.Try>, t: T.Try)
    requires T.Numbered(tries, 0) && t.group.seqNo == NextSeq(tries)
    ensures T.Numbered(tries + [t], 0)
  {
  }

  /** What was reported as written, out of what was tried. */
  ghost predicate InStep(log: seq<Change>, tries: seq<T.Try>) {
    log == J.Changes(T.Reported(tries)) && T.Numbered(tries, 0)
  }

  lemma StaysInStep(log: seq<Change>, tries: seq<T.Try>, t: T.Try)
    requires InStep(log, tries) && t.group.seqNo == NextSeq(tries)
    ensures InStep(log + if t.disk.Accepts? then t.group.changes else [], tries + [t])
  {
    hide T.Numbered, T.Reported, J.Changes;
    NextSeqNumbered(tries, t);
    T.OneMoreReported(tries, t);
  }

  /** Every recorded transition is one that the disk took, and nothing has gone back behind it. */
  predicate TraceHolds(trace: seq<Event>, ix: Index, tries: seq<T.Try>) {
    forall i :: 0 <= i < |trace| ==> Logged(trace[i], tries) && Onwards(trace[i], ix, tries)
  }

  lemma OneMoreEvent(trace: seq<Event>, ix: Index, tries: seq<T.Try>, e: Event)
    requires TraceHolds(trace, ix, tries) && Logged(e, tries) && Onwards(e, ix, tries)
    ensures TraceHolds(trace + [e], ix, tries)
  {
    hide Logged, Onwards;
  }

  /** Whatever is tried next, taken or refused. */
  lemma TraceStays(cf: Settings, ix: Index, i: Input, trace: seq<Event>, tries: seq<T.Try>, t: T.Try)
    requires Named(ix) && TraceHolds(trace, ix, tries) && t.group.changes == Writes(cf, ix, i.now, i.op)
    ensures TraceHolds(trace, Effect(cf, ix, i), tries) && TraceHolds(trace, Effect(cf, ix, i), tries + [t])
  {
    hide Logged, Onwards, Named, Effect, Writes;
    var ix' := Effect(cf, ix, i);
    forall k | 0 <= k < |trace|
      ensures Logged(trace[k], tries) && Onwards(trace[k], ix', tries)
      ensures Logged(trace[k], tries + [t]) && Onwards(trace[k], ix', tries + [t])
    {
      assert Logged(trace[k], tries) && Onwards(trace[k], ix, tries);
      PositionKnown(trace[k], tries);
      StillLogged(trace[k], tries, t);
      StaysOnwards(cf, ix, i, trace[k], tries);
      OneMoreOnwards(trace[k], ix', tries, t);
    }
  }

  lemma StillLogged(e: Event, tries: seq<T.Try>, t: T.Try)
    requires Logged(e, tries)
    ensures Logged(e, tries + [t])
  {
  }

  /** No write is empty. */
  lemma GroupsNotEmpty(cf: Settings, ix: Index, now: Time, op: Op)
    ensures Decide(cf, ix, now, op).Write? ==> Decide(cf, ix, now, op).group != []
  {
    hide NextEntry, Moved, Stamped, CreatedDraft, BrokenDraft, Marked, Refusal;
  }

  class World {
    const settings: Settings
    const turns: nat -> Turn
    var turn: nat
    var now: Time
    var ix: Index
    /** Every write tried since the file was begun, and what of it was reported as written. */
    var tries: seq<T.Try>
    var log: seq<Change>
    var trace: seq<Event>

    ghost predicate Valid()
      reads this
    {
      && Named(ix) && OutboxCoherent(ix) && Recorded(ix, log) && InStep(log, tries) && TraceHolds(trace, ix, tries)
    }

    /** The index as the coming call will find it. */
    ghost function Coming(): Index
      reads this
    {
      Met(settings, ix, now, turns(turn))
    }

    ghost function ComingTime(): Time
      reads this
    {
      MetTime(now, turns(turn))
    }

    /** Lets the clock advance and the others act. */
    method Interlude()
      requires Valid()
      modifies this`turn, this`now, this`ix, this`log, this`tries
      ensures Valid() && turn == old(turn) + 1
      ensures now == old(ComingTime()) >= old(now) && ix == old(Coming())
      ensures old(log) <= log && old(tries) <= tries
    {
      hide Effect, Writes, Named, OutboxCoherent, Recorded, InStep, TraceHolds, Taken, Exec, Clocked, Latest;
      var t, start := turns(turn), now;
      turn := turn + 1;
      NothingClocked(settings, ix, start);
      assert t.foreign[..0] == [];
      for i := 0 to |t.foreign|
        invariant ix == Exec(settings, old(ix), Clocked(start, t.foreign[..i]))
        invariant Valid() && old(log) <= log && old(tries) <= tries
        invariant turn == old(turn) + 1 && now == Latest(start, t.foreign[..i]) >= start
      {
        ClockedStep(start, t.foreign, i);
        now := Max(now, t.foreign[i].now);
        Carry(t.foreign[i].op, t.foreign[i].disk);
        OneMoreExec(settings, old(ix), Clocked(start, t.foreign[..i]), Input(now, t.foreign[i].op, t.foreign[i].disk));
      }
      assert t.foreign[..|t.foreign|] == t.foreign;
      now := Max(now, t.at);
    }

    /** Carries out what an operation decides, as far as the disk lets it. */
    method Carry(op: Op, disk: J.Disk)
      requires Valid()
      modifies this`ix, this`log, this`tries
      ensures Valid() && ix == Effect(settings, old(ix), Input(now, op, disk))
      ensures log == old(log) + Taken(settings, old(ix), Input(now, op, disk))
      ensures var group := Writes(settings, old(ix), now, op);
              tries == if group == [] then old(tries)
                       else old(tries) + [T.Try(J.Group(NextSeq(old(tries)), group), disk)]
    {
      hide Named, Writes, OutboxCoherent, Recorded, Effect, InStep, TraceHolds;
      var i := Input(now, op, disk);
      var group := Writes(settings, ix, now, op);
      var t := T.Try(J.Group(NextSeq(tries), group), disk);
      EffectNamed(settings, ix, i);
      EffectNumbered(settings, ix, i);
      StaysRecorded(settings, ix, i, log);
      TraceStays(settings, ix, i, trace, tries, t);
      EffectAgain(settings, ix, i);
      if group != [] {
        StaysInStep(log, tries, t);
        tries := tries + [t];
      } else {
        assert log + [] == log;
      }
      log := log + (if disk.Accepts? then group else []);
      ix := if disk.Accepts? then Next(settings, ix, now, op) else Burned(ix, group);
    }

    /** One store call of the engine's, after whatever came in between. */
    method Call(op: Op) returns (d: Decision)
      requires Valid()
      modifies this`turn, this`now, this`ix, this`log, this`tries
      ensures Valid() && turn == old(turn) + 1 && now == old(ComingTime()) >= old(now)
      ensures var before := old(Coming());
              if old(turns(turn)).disk.Accepts? || !Decide(settings, before, now, op).Write? then
                d == Decide(settings, before, now, op) && ix == Next(settings, before, now, op)
              else d == Refuse(JournalFailed) && ix == Burned(before, Writes(settings, before, now, op))
      ensures old(log) <= log && old(tries) <= tries
      ensures d.Write? ==>
        && d.group != [] && |old(tries)| < |tries| && tries[|tries| - 1].disk.Accepts?
          && tries[|tries| - 1].group.changes == d.group
        && |old(log)| + |d.group| <= |log| && log[|log| - |d.group|..] == d.group
    {
      hide Decide, Named, ApplyAll, OutboxCoherent, Recorded, InStep, TraceHolds, Met, MetTime, Effect, Writes;
      var disk := turns(turn).disk;
      Interlude();
      d := Decide(settings, ix, now, op);
      ghost var before := ix;
      Carry(op, disk);
      CallIs(settings, before, Input(now, op, disk));
      GroupsNotEmpty(settings, before, now, op);
      if d.Write? && !disk.Accepts? {
        d := Refuse(JournalFailed);
      }
    }
  }

  lemma PositionKnown(e: Event, tries: seq<T.Try>)
    requires Logged(e, tries)
    ensures e.Accepted? ==> e.position < |tries|
  {
  }

  lemma OneMoreOnwards(e: Event, ix: Index, tries: seq<T.Try>, t: T.Try)
    requires Onwards(e, ix, tries) && (e.Accepted? ==> RowsFrom(t.group.changes, e.id, e.to))
    ensures Onwards(e, ix, tries + [t])
  {
    hide RowsFrom, Rank;
  }

  lemma EffectAgain(cf: Settings, ix: Index, i: Input)
    ensures Effect(cf, ix, i)
         == if i.disk.Accepts? then Next(cf, ix, i.now, i.op) else Burned(ix, Writes(cf, ix, i.now, i.op))
    ensures Taken(cf, ix, i) == if i.disk.Accepts? then Writes(cf, ix, i.now, i.op) else []
  {
  }

  /** A call's effect by what it decides. */
  lemma CallIs(cf: Settings, ix: Index, i: Input)
    ensures var d, group := Decide(cf, ix, i.now, i.op), Writes(cf, ix, i.now, i.op);
            && (d.Write? ==> group == d.group) && (!d.Write? ==> group == [] && Effect(cf, ix, i) == ix)
            && (!d.Write? ==> Next(cf, ix, i.now, i.op) == ix)
            && (i.disk.Accepts? ==> Effect(cf, ix, i) == Next(cf, ix, i.now, i.op) && Taken(cf, ix, i) == group)
            && (!i.disk.Accepts? ==> Effect(cf, ix, i) == Burned(ix, group))
  {
    hide Decide;
  }

  // ------------------------------------------------------------ steadiness

  /**
    * An operation that leaves the row of id alone and neither breaks nor gives back in its name the
    * lease on r. Anybody may ask for that lease.
    */
  predicate Harmless(op: Op, id: string, r: string) {
    match op
    case Transition(i, _, _, _, _, _) => i != id
    case Update(d) => d.id != id
    case Release(res, holder) => res != r || holder != id
    case Break(res, _) => res != r
    case _ => true
  }

  predicate AllHarmless(ins: seq<Input>, id: string, r: string) {
    forall i :: 0 <= i < |ins| ==> Harmless(ins[i].op, id, r)
  }

  /** The holder's lease after one operation. */
  function Renewed(l: Lease, op: Op, now: Time, ttl: int): Lease {
    if op == Renew(l.resource, l.holder, l.fenceToken) then l.(expiresAt := now + ttl) else l
  }

  /** The row of id is unchanged, and the lease on r is l. */
  predicate KeptFor(ix: Index, ix': Index, id: string, r: string, l: Lease) {
    && id in ix.deployments && id in ix'.deployments && ix'.deployments[id] == ix.deployments[id]
    && r in ix'.leases && ix'.leases[r] == l
  }

  lemma HarmlessStep(cf: Settings, ix: Index, now: Time, op: Op, id: string, r: string)
    requires Named(ix) && id in ix.deployments && Harmless(op, id, r)
    requires r in ix.leases && ix.leases[r].holder == id != "" && !ix.leases[r].Expired(now)
    ensures KeptFor(ix, Next(cf, ix, now, op), id, r, Renewed(ix.leases[r], op, now, cf.leaseTTL))
  {
    hide ApplyAll, ApplyRecord, NextEntry, Named, CreatedDraft, BrokenDraft, Marked, Refusal, Moved, Stamped,
         Writes;
    Fencing.LeaseStep(cf, ix, now, op);
    NotItsRow(cf, ix, now, op, id, r);
    RowFrame(ix, Writes(cf, ix, now, op), id);
    ResourceNamed(ix, r);
    LeaseKept(cf, ix, now, op, id, r);
  }

  /** The same for one call: a heartbeat that the disk refuses renews nothing. */
  lemma HarmlessEffect(cf: Settings, ix: Index, i: Input, id: string, r: string)
    requires Named(ix) && id in ix.deployments && Harmless(i.op, id, r)
    requires r in ix.leases && ix.leases[r].holder == id != "" && !ix.leases[r].Expired(i.now)
    ensures KeptFor(ix, Effect(cf, ix, i), id, r,
                    if i.disk.Accepts? then Renewed(ix.leases[r], i.op, i.now, cf.leaseTTL) else ix.leases[r])
  {
    hide Next, Writes, Named, Harmless, Renewed;
    if i.disk.Accepts? {
      HarmlessStep(cf, ix, i.now, i.op, id, r);
    }
  }

  lemma LeaseKept(cf: Settings, ix: Index, now: Time, op: Op, id: string, r: string)
    requires Harmless(op, id, r) && r in ix.leases && ix.leases[r].resource == r && !ix.leases[r].Expired(now)
    requires ix.leases[r].holder == id != ""
    ensures var ls := Fencing.LeasesAfter(cf, ix, now, op);
            r in ls && ls[r] == Renewed(ix.leases[r], op, now, cf.leaseTTL)
  {
  }

  lemma NotItsRow(cf: Settings, ix: Index, now: Time, op: Op, id: string, r: string)
    requires Named(ix) && id in ix.deployments && Harmless(op, id, r)
    ensures var cs := Writes(cf, ix, now, op); forall i :: 0 <= i < |cs| ==> !IsRow(cs[i], id)
  {
    hide NextEntry, CreatedDraft, BrokenDraft, Marked, FenceOk, Stamped, Guarded, CanTransition, IsTerminal;
  }

  /** Until when a lease that runs out no earlier than u is sure to last, given the heartbeats among some calls. */
  function Extended(u: Time, ins: seq<Input>, beat: Op, ttl: int): Time {
    if ins == [] then u
    else
      var e := Extended(u, ins[..|ins| - 1], beat, ttl);
      if ins[|ins| - 1].op == beat && ins[|ins| - 1].disk.Accepts? then Max(e, ins[|ins| - 1].now + ttl) else e
  }

  /** Each of the calls comes before the lease runs out. */
  predicate InTime(u: Time, ins: seq<Input>, beat: Op, ttl: int) {
    forall k :: 0 <= k < |ins| ==> ins[k].now < Extended(u, ins[..k], beat, ttl)
  }

  lemma InTimeInit(u: Time, ins: seq<Input>, beat: Op, ttl: int)
    requires InTime(u, ins, beat, ttl) && ins != []
    ensures InTime(u, ins[..|ins| - 1], beat, ttl)
    ensures ins[|ins| - 1].now < Extended(u, ins[..|ins| - 1], beat, ttl)
  {
    var init := ins[..|ins| - 1];
    forall k | 0 <= k < |init| ensures init[k].now < Extended(u, init[..k], beat, ttl) {
      assert init[..k] == ins[..k];
    }
  }

  /** Calls that come in time find the clock within the lease. */
  lemma {:induction false} LatestInTime(now: Time, u: Time, ins: seq<Input>, beat: Op, ttl: int)
    requires InTime(u, ins, beat, ttl) && now < u
    ensures Latest(now, ins) < Extended(u, ins, beat, ttl) && u <= Extended(u, ins, beat, ttl)
    ensures ins != [] ==> Latest(now, ins) < Extended(u, ins[..|ins| - 1], beat, ttl)
  {
    hide InTime;
    if ins != [] {
      InTimeInit(u, ins, beat, ttl);
      LatestInTime(now, u, ins[..|ins| - 1], beat, ttl);
    }
  }

  /**
    * Over any stretch in which others keep off the row of id and neither break its lease on r nor give
    * it back, and heartbeats come in time, the row stays and the lease stays live in the same hands,
    * however often others ask for it.
    */
  lemma {:induction false} HarmlessRun(cf: Settings, ix: Index, now: Time, u: Time, ins: seq<Input>, id: string,
                                       r: string)
    requires Named(ix) && id in ix.deployments && AllHarmless(ins, id, r) && cf.leaseTTL > 0
    requires r in ix.leases && ix.leases[r].holder == id != ""
    requires now < u <= ix.leases[r].expiresAt <= now + cf.leaseTTL
    requires InTime(u, ins, Renew(r, ix.leases[r].holder, ix.leases[r].fenceToken), cf.leaseTTL)
    ensures var ix' := Exec(cf, ix, Clocked(now, ins));
            var beat := Renew(r, ix.leases[r].holder, ix.leases[r].fenceToken);
            && r in ix'.leases && KeptFor(ix, ix', id, r, ix.leases[r].(expiresAt := ix'.leases[r].expiresAt))
            && Extended(u, ins, beat, cf.leaseTTL) <= ix'.leases[r].expiresAt <= Latest(now, ins) + cf.leaseTTL
  {
    hide Effect, Named, Harmless, InTime;
    var beat := Renew(r, ix.leases[r].holder, ix.leases[r].fenceToken);
    ResourceNamed(ix, r);
    if ins != [] {
      var init, last := ins[..|ins| - 1], ins[|ins| - 1];
      InTimeInit(u, ins, beat, cf.leaseTTL);
      LatestInTime(now, u, ins, beat, cf.leaseTTL);
      HarmlessRun(cf, ix, now, u, init, id, r);
      var ix1, t := Exec(cf, ix, Clocked(now, init)), Latest(now, ins);
      ReachableNamed(cf, ix, Clocked(now, init));
      assert Harmless(last.op, id, r);
      HarmlessEffect(cf, ix1, Input(t, last.op, last.disk), id, r);
      OneMoreExec(cf, ix, Clocked(now, init), Input(t, last.op, last.disk));
    }
  }
}
