/** Leases and fence tokens over whole runs, with any number of callers interleaved. */
module Fencing {
  import opened Prelude
  import opened Lifecycle
  import opened Records
  import opened Decisions
  import opened Coherence
  import opened Runs
  import AuditChain

  predicate TouchesLeases(c: Change) {
    c.LeaseRow? || c.LeaseReleaseRow?
  }

  lemma {:induction false} LeaseFrame(ix: Index, cs: seq<Change>)
    requires forall i :: 0 <= i < |cs| ==> !TouchesLeases(cs[i])
    ensures ApplyAll(ix, cs).leases == ix.leases
  {
    if cs != [] {
      LeaseFrame(ix, cs[..|cs| - 1]);
      assert !TouchesLeases(cs[|cs| - 1]);
    }
  }

  lemma TransitionLeavesLeases(cf: Settings, ix: Index, now: Time, d: Deployment, to: State,
                               entry: Option<AuditChain.Draft>, notes: seq<OutboxEntry>)
    ensures ApplyAll(ix, TransitionRows(cf, ix, now, d, to, entry, notes)).leases == ix.leases
  {
    hide ApplyAll, NextEntry, Moved, Stamped;
    LeaseFrame(ix, TransitionRows(cf, ix, now, d, to, entry, notes));
  }

  /** The lease rows after one operation. */
  function LeasesAfter(cf: Settings, ix: Index, now: Time, op: Op): map<string, Lease> {
    match op
    case Acquire(r, holder, node) =>
      if DecideAcquire(cf, ix, now, r, holder, node).Write?
      then ix.leases[r := Lease(r, holder, node, now, now + cf.leaseTTL, Token(ix, r) + 1)] else ix.leases
    case Renew(r, holder, fence) =>
      if DecideRenew(cf, ix, now, r, holder, fence).Write?
      then ix.leases[r := ix.leases[r].(expiresAt := now + cf.leaseTTL)] else ix.leases
    case Release(r, holder) =>
      if r in ix.leases && ix.leases[r].holder == holder
      then ix.leases[r := ix.leases[r].(expiresAt := now, holder := "")] else ix.leases
    case Break(r, actor) =>
      if r in ix.leases then ix.leases[r := ix.leases[r].(expiresAt := now, holder := "")] else ix.leases
    case _ => ix.leases
  }

  lemma LeaseStep(cf: Settings, ix: Index, now: Time, op: Op)
    requires Named(ix)
    ensures Next(cf, ix, now, op).leases == LeasesAfter(cf, ix, now, op)
  {
    hide NextEntry, Named, DecideCreate, DecideUpdate, DecideMark;
    var d := Decide(cf, ix, now, op);
    if d.Write? {
      match op
      case Transition(id, fence, from, to, entry, notes) =>
        TransitionLeavesLeases(cf, ix, now, ix.deployments[id], to, entry, notes);
      case Acquire(_, _, _) | Renew(_, _, _) | Release(_, _) | Break(_, _) =>
        LeaseOpStep(cf, ix, now, op);
      case _ =>
        OtherOpStep(cf, ix, now, op);
    }
  }

  lemma OtherOpStep(cf: Settings, ix: Index, now: Time, op: Op)
    requires op.Create? || op.Update? || op.AppendAudit? || op.Enqueue? || op.MarkNote? || op.Record?
    ensures Next(cf, ix, now, op).leases == ix.leases
  {
    hide NextEntry, CreatedDraft, Marked;
    LeaseFrame(ix, Writes(cf, ix, now, op));
  }

  lemma LeaseOpStep(cf: Settings, ix: Index, now: Time, op: Op)
    requires Named(ix) && (op.Acquire? || op.Renew? || op.Release? || op.Break?)
    requires Decide(cf, ix, now, op).Write?
    ensures Next(cf, ix, now, op).leases == LeasesAfter(cf, ix, now, op)
  {
    hide NextEntry, BrokenDraft;
    var group := Decide(cf, ix, now, op).group;
    ApplyTwo(ix, group[0], group[|group| - 1]);
  }

  /** The lease rows after one call, its write accepted or refused. */
  lemma EffectLeases(cf: Settings, ix: Index, i: Input)
    requires Named(ix)
    ensures Effect(cf, ix, i).leases == if i.disk.Accepts? then LeasesAfter(cf, ix, i.now, i.op) else ix.leases
  {
    hide Named, Next, Writes, LeasesAfter;
    LeaseStep(cf, ix, i.now, i.op);
  }

  /** A token grows only by a grant, and then by one. */
  lemma TokenStep(cf: Settings, ix: Index, i: Input, r: string)
    requires Named(ix)
    ensures var ix' := Effect(cf, ix, i);
            && (r in ix.leases ==> r in ix'.leases)
            && Token(ix', r) >= Token(ix, r)
            && (Token(ix', r) != Token(ix, r) ==>
                  i.op.Acquire? && i.op.resource == r && i.disk.Accepts? && Token(ix', r) == Token(ix, r) + 1)
            && (Token(ix', r) == Token(ix, r) && r in ix.leases ==>
                  ix'.leases[r].holder == ix.leases[r].holder || ix'.leases[r].holder == "")
  {
    hide Named, Effect;
    EffectLeases(cf, ix, i);
  }

  /** Over a run: tokens never decrease, and while a token stands its holder is only ever cleared. */
  lemma {:induction false} TokensGrow(cf: Settings, ix: Index, ins: seq<Input>, r: string)
    requires Named(ix)
    ensures Token(Exec(cf, ix, ins), r) >= Token(ix, r)
    ensures r in ix.leases ==> r in Exec(cf, ix, ins).leases
    ensures r in ix.leases && Token(Exec(cf, ix, ins), r) == Token(ix, r) ==>
      Exec(cf, ix, ins).leases[r].holder in {ix.leases[r].holder, ""}
  {
    hide Effect, Named, Token;
    if ins != [] {
      var init, last := ins[..|ins| - 1], ins[|ins| - 1];
      ReachableNamed(cf, ix, init);
      TokensGrow(cf, ix, init, r);
      TokenStep(cf, Exec(cf, ix, init), last, r);
    }
  }

  // ------------------------------------------------------------- fencing

  /** A transition that passes the store's checks and begins a deployment on r or takes one on from there. */
  predicate GuardedMove(ix: Index, i: Input, r: string) {
    && i.op.Transition? && (i.op.from != Pending || i.op.to == Preflight)
    && Refusal(ix, i.now, i.op.id, i.op.fence, i.op.from, i.op.to).None?
    && ix.deployments[i.op.id].Resource() == r
  }

  lemma MoveHoldsLease(ix: Index, i: Input, r: string)
    requires GuardedMove(ix, i, r)
    ensures r in ix.leases && ix.leases[r].holder == i.op.id && !ix.leases[r].Expired(i.now)
    ensures Token(ix, r) <= i.op.fence
  {
  }

  lemma EmptyNamed()
    ensures Named(EMPTY_INDEX)
  {
  }

  /** From one point of a run to a later one. */
  lemma Between(cf: Settings, ins: seq<Input>, i: nat, j: nat, r: string)
    requires i <= j <= |ins|
    ensures var ix, ix' := Exec(cf, EMPTY_INDEX, ins[..i]), Exec(cf, EMPTY_INDEX, ins[..j]);
            && Token(ix, r) <= Token(ix', r)
            && (r in ix.leases ==> r in ix'.leases)
            && (r in ix.leases && Token(ix, r) == Token(ix', r) ==> ix'.leases[r].holder in {ix.leases[r].holder, ""})
  {
    hide Exec, Token, Named;
    EmptyNamed();
    ReachableNamed(cf, EMPTY_INDEX, ins[..i]);
    var ix, rest := Exec(cf, EMPTY_INDEX, ins[..i]), ins[i..j];
    TokensGrow(cf, ix, rest, r);
    ExecConcat(cf, EMPTY_INDEX, ins[..i], rest);
    assert ins[..i] + rest == ins[..j];
  }

  /**
    * Over any run, with any interleaving of callers: two accepted moves on one resource present
    * tokens in order, strictly increasing when the deployments differ. The first mover need only
    * present a token the store has granted; the second may present anything.
    */
  lemma {:induction false} FencesInOrder(cf: Settings, ins: seq<Input>, i: nat, j: nat, r: string)
    requires i < j < |ins|
    requires GuardedMove(Exec(cf, EMPTY_INDEX, ins[..i]), ins[i], r)
    requires GuardedMove(Exec(cf, EMPTY_INDEX, ins[..j]), ins[j], r)
    requires ins[i].op.fence <= Token(Exec(cf, EMPTY_INDEX, ins[..i]), r)
    ensures ins[i].op.fence <= ins[j].op.fence
    ensures ins[i].op.id != ins[j].op.id && ins[j].op.id != "" ==> ins[i].op.fence < ins[j].op.fence
  {
    hide GuardedMove, Exec;
    MoveHoldsLease(Exec(cf, EMPTY_INDEX, ins[..i]), ins[i], r);
    MoveHoldsLease(Exec(cf, EMPTY_INDEX, ins[..j]), ins[j], r);
    Between(cf, ins, i, j, r);
  }

  /** An operation that is granted a new lease on r. */
  predicate Grants(cf: Settings, ix: Index, i: Input, r: string) {
    && i.op.Acquire? && i.op.resource == r && i.disk.Accepts?
    && DecideAcquire(cf, ix, i.now, r, i.op.holder, i.op.node).Write?
  }

  /** Every grant's token is larger than every token the resource has had before. */
  lemma {:induction false} GrantsAreFresh(cf: Settings, ins: seq<Input>, i: nat, j: nat, r: string)
    requires i <= j < |ins|
    requires Grants(cf, Exec(cf, EMPTY_INDEX, ins[..j]), ins[j], r)
    ensures Token(Exec(cf, EMPTY_INDEX, ins[..j + 1]), r) > Token(Exec(cf, EMPTY_INDEX, ins[..i]), r)
  {
    hide Exec, Effect;
    Between(cf, ins, i, j, r);
    assert ins[..j + 1][..j] == ins[..j] && ins[..j + 1][j] == ins[j];
    OneMore(cf, ins[..j + 1]);
    ReachableNamed(cf, EMPTY_INDEX, ins[..j]);
    EffectLeases(cf, Exec(cf, EMPTY_INDEX, ins[..j]), ins[j]);
  }

  lemma OneMore(cf: Settings, ins: seq<Input>)
    requires ins != []
    ensures Exec(cf, EMPTY_INDEX, ins)
         == Effect(cf, Exec(cf, EMPTY_INDEX, ins[..|ins| - 1]), ins[|ins| - 1])
  {
  }

  /**
    * No zombie writer. Once a resource has been granted again at step i, a caller still presenting
    * a token from before that grant is refused at every later step every move of a deployment on it
    * but the one that ends a deployment still PENDING.
    */
  lemma {:induction false} SupersededNeverMoves(cf: Settings, ins: seq<Input>, i: nat, j: nat, r: string)
    requires i < j < |ins|
    requires Grants(cf, Exec(cf, EMPTY_INDEX, ins[..i]), ins[i], r)
    requires ins[j].op.Transition? && ins[j].op.fence <= Token(Exec(cf, EMPTY_INDEX, ins[..i]), r)
    requires ins[j].op.from != Pending || ins[j].op.to == Preflight
    ensures var ix := Exec(cf, EMPTY_INDEX, ins[..j]);
            ins[j].op.id in ix.deployments && ix.deployments[ins[j].op.id].Resource() == r ==>
              Decide(cf, ix, ins[j].now, ins[j].op).Refuse? && Exec(cf, EMPTY_INDEX, ins[..j + 1]) == ix
  {
    hide Exec, Grants, Refusal, TransitionRows;
    GrantsAreFresh(cf, ins, i, i, r);
    Between(cf, ins, i + 1, j, r);
    var ix := Exec(cf, EMPTY_INDEX, ins[..j]);
    if GuardedMove(ix, ins[j], r) {
      MoveHoldsLease(ix, ins[j], r);
    }
    assert ins[..j + 1] == ins[..j] + [ins[j]];
    OneMoreExec(cf, EMPTY_INDEX, ins[..j], ins[j]);
    EffectIs(cf, ix, ins[j]);
  }

  // ------------------------------------------------------------- exclusion

  /** While somebody holds the lease, nobody else is granted it: the call is refused and changes nothing. */
  lemma HeldIsRefused(cf: Settings, ix: Index, i: Input, r: string)
    requires i.op.Acquire? && i.op.resource == r && r in ix.leases
    requires ix.leases[r].holder != "" && ix.leases[r].holder != i.op.holder && i.now < ix.leases[r].expiresAt
    ensures Decide(cf, ix, i.now, i.op) == Refuse(LeaseHeld(ix.leases[r].holder, ix.leases[r].expiresAt))
    ensures Effect(cf, ix, i) == ix
  {
    EffectIs(cf, ix, i);
  }

  /** Every call of a run comes before the lease on r, as it then is, has run out. */
  predicate BeforeExpiry(cf: Settings, ix: Index, ins: seq<Input>, r: string) {
    forall k :: 0 <= k < |ins| ==>
      var ls := Exec(cf, ix, ins[..k]).leases; r in ls ==> ins[k].now < ls[r].expiresAt
  }

  /** Nobody gives the lease on r back in a holder's name or breaks it. */
  predicate NotGivenUp(ins: seq<Input>, r: string, holder: string) {
    forall k :: 0 <= k < |ins| ==> ins[k].op != Release(r, holder) && !(ins[k].op.Break? && ins[k].op.resource == r)
  }

  /**
    * Exclusion. From a grant until its holder's lease runs out, is given back or is broken, the lease
    * stays with its holder under its token, whoever calls whatever.
    */
  lemma {:induction false} HolderStays(cf: Settings, ix: Index, ins: seq<Input>, r: string)
    requires Named(ix) && r in ix.leases && ix.leases[r].holder != ""
    requires BeforeExpiry(cf, ix, ins, r) && NotGivenUp(ins, r, ix.leases[r].holder)
    ensures var ls := Exec(cf, ix, ins).leases;
            r in ls && ls[r].holder == ix.leases[r].holder && ls[r].fenceToken == ix.leases[r].fenceToken
  {
    hide Named, Effect;
    if ins != [] {
      var init, last := ins[..|ins| - 1], ins[|ins| - 1];
      assert forall k :: 0 <= k < |init| ==> init[..k] == ins[..k] && init[k] == ins[k];
      HolderStays(cf, ix, init, r);
      ReachableNamed(cf, ix, init);
      EffectLeases(cf, Exec(cf, ix, init), last);
      StaysHeld(cf, Exec(cf, ix, init), last, r);
    }
  }

  lemma StaysHeld(cf: Settings, ix: Index, i: Input, r: string)
    requires r in ix.leases && ix.leases[r].holder != "" && i.now < ix.leases[r].expiresAt
    requires i.op != Release(r, ix.leases[r].holder) && !(i.op.Break? && i.op.resource == r)
    ensures var ls := LeasesAfter(cf, ix, i.now, i.op);
            r in ls && ls[r].holder == ix.leases[r].holder && ls[r].fenceToken == ix.leases[r].fenceToken
  {
  }

  // ------------------------------------------------------------- no wedge

  /** The lease on r is cleared, or runs out by t. */
  predicate FreeBy(ix: Index, r: string, t: Time) {
    r in ix.leases ==> ix.leases[r].holder == "" || ix.leases[r].expiresAt <= t
  }

  predicate Extends(op: Op, r: string) {
    (op.Acquire? || op.Renew?) && op.resource == r
  }

  /** A lease runs out one TTL after the last call that could have extended it. */
  lemma {:induction false} LeaseRunsOut(cf: Settings, ins: seq<Input>, r: string, t: Time)
    requires cf.leaseTTL >= 0
    requires forall k :: 0 <= k < |ins| && Extends(ins[k].op, r) ==> ins[k].now <= t
    ensures FreeBy(Exec(cf, EMPTY_INDEX, ins), r, t + cf.leaseTTL)
  {
    hide Effect;
    if ins != [] {
      var init, last := ins[..|ins| - 1], ins[|ins| - 1];
      LeaseRunsOut(cf, init, r, t);
      ReachableNamed(cf, EMPTY_INDEX, init);
      EffectLeases(cf, Exec(cf, EMPTY_INDEX, init), last);
      RunsOutStep(cf, Exec(cf, EMPTY_INDEX, init), last, r, t);
    }
  }

  lemma RunsOutStep(cf: Settings, ix: Index, i: Input, r: string, t: Time)
    requires FreeBy(ix, r, t + cf.leaseTTL) && cf.leaseTTL >= 0
    requires Extends(i.op, r) ==> i.now <= t
    requires Effect(cf, ix, i).leases == if i.disk.Accepts? then LeasesAfter(cf, ix, i.now, i.op) else ix.leases
    ensures FreeBy(Effect(cf, ix, i), r, t + cf.leaseTTL)
  {
    hide Effect;
  }

  /**
    * No wedged target. When the last call that could extend a lease on r is a TTL ago, any
    * deployment is granted r, under a larger token, whatever else the store holds.
    */
  lemma {:induction false} NoWedge(cf: Settings, ins: seq<Input>, r: string, t: Time, now: Time, holder: string,
                                   node: string)
    requires cf.leaseTTL >= 0
    requires forall k :: 0 <= k < |ins| && Extends(ins[k].op, r) ==> ins[k].now <= t
    requires now >= t + cf.leaseTTL
    ensures var ix := Exec(cf, EMPTY_INDEX, ins);
            DecideAcquire(cf, ix, now, r, holder, node)
            == Write([LeaseRow(Lease(r, holder, node, now, now + cf.leaseTTL, Token(ix, r) + 1))])
  {
    hide Exec;
    LeaseRunsOut(cf, ins, r, t);
  }
}
