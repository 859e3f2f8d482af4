/** What a restarted engine decides about an interrupted deployment: the branches of engine/reconcile.go. */
module Recovery {
  import opened Prelude
  import opened Lifecycle
  import opened Records
  import opened AuditChain

  /** What can be found out about a deployment's target. */
  datatype Probe = NoConfig | NoProvider | Unreadable | Undeterminable | Running(version: string)

  datatype Choice = Move(to: State) | GiveUp

  /** The branch taken for a row. */
  function Choose(d: Deployment, p: Probe): Choice {
    if p.NoConfig? then GiveUp
    else if d.state == Pending || d.state == Preflight then Move(Failed)
    else if !p.Running? then GiveUp
    else if p.version == d.version then Move(Verifying)
    else if p.version == d.previousVersion then Move(Failed)
    else GiveUp
  }

  /** The state a choice leaves a row in when the lease is free and the store takes every write. */
  function Settled(s: State, c: Choice): State {
    if c.Move? && CanTransition(s, c.to) then c.to
    else if CanTransition(s, Unknown) then Unknown
    else s
  }

  /** Whether the row stays where it is, with only an audit entry to show for it. */
  predicate OnlyTold(s: State, c: Choice) {
    !(c.Move? && CanTransition(s, c.to)) && !CanTransition(s, Unknown)
  }

  /** A pass moves rows only to FAILED, VERIFYING or UNKNOWN, along the table, and every move loses rank. */
  lemma SettlingDescends(d: Deployment, p: Probe)
    requires !IsTerminal(d.state)
    ensures var s := Settled(d.state, Choose(d, p));
            s != d.state ==> s in {Failed, Verifying, Unknown} && CanTransition(d.state, s) && Rank(s) < Rank(d.state)
    ensures Settled(d.state, Choose(d, p)) == d.state <==> OnlyTold(d.state, Choose(d, p))
  {
  }

  /** Never a guess: FAILED past PREFLIGHT needs the previous version live, VERIFYING the new one. */
  lemma NeverGuesses(d: Deployment, p: Probe)
    requires !IsTerminal(d.state)
    ensures var s := Settled(d.state, Choose(d, p));
            && (s == Verifying ==> p == Running(d.version) && d.state == Deploying)
            && (s == Failed && d.state !in {Pending, Preflight} ==>
                  p == Running(d.previousVersion) && d.version != d.previousVersion)
            && (s == Failed ==> !p.NoConfig?)
  {
  }

  /**
    * What one pass leaves: a row interrupted before any deploy has failed if its configuration is
    * still there; one waiting for approval has failed or waits on; any other is terminal, or is
    * VERIFYING after DEPLOYING.
    */
  lemma OnePass(d: Deployment, p: Probe)
    requires !IsTerminal(d.state)
    ensures var s := Settled(d.state, Choose(d, p));
            match d.state
            case Pending | Preflight => s == if p.NoConfig? then d.state else Failed
            case AwaitApproval => s in {AwaitApproval, Failed}
            case Deploying => IsTerminal(s) || s == Verifying
            case _ => IsTerminal(s)
  {
  }

  /**
    * Where what the target runs leaves a row. Its own version live puts a DEPLOYING row on to
    * VERIFYING; the previous, different one fails a row that may have deployed; without either, a row
    * is UNKNOWN where the table has that move and else stays.
    */
  predicate Evident(d: Deployment, p: Probe, s: State) {
    var landed := p == Running(d.version);
    var untouched := p == Running(d.previousVersion) && d.previousVersion != d.version;
    match d.state
    case Pending | Preflight => s == if p.NoConfig? then d.state else Failed
    case AwaitApproval => s == if untouched then Failed else AwaitApproval
    case Deploying => s == if landed then Verifying else if untouched then Failed else Unknown
    case Verifying | Promoting => s == if untouched then Failed else Unknown
    case _ => s == Unknown
  }

  lemma EvidenceDecides(d: Deployment, p: Probe)
    requires !IsTerminal(d.state)
    ensures Evident(d, p, Settled(d.state, Choose(d, p)))
    ensures forall s :: Evident(d, p, s) ==> s == Settled(d.state, Choose(d, p))
  {
  }

  lemma GivenUp(d: Deployment, p: Probe)
    ensures var c := Choose(d, p);
            Settled(d.state, c) in {d.state, Unknown} <==> !(c.Move? && CanTransition(d.state, c.to))
  {
  }

  /** Two passes, whatever the targets answer each time, leave none of the four states a deploy works in. */
  lemma TwoPasses(d: Deployment, d': Deployment, p: Probe, p': Probe)
    requires d.state in {Deploying, Verifying, Promoting, RollingBack}
    requires d'.state == Settled(d.state, Choose(d, p))
    ensures (if IsTerminal(d'.state) then d'.state else Settled(d'.state, Choose(d', p'))) in {Failed, Unknown}
  {
  }

  /** The entry that tells of a row that cannot be moved. */
  function UnknownDraft(d: Deployment, reason: string, now: Time): Draft {
    Draft(now, "reconciler", "deployment.unknown", d.Resource(),
          map["deployment" := d.id, "state" := StateName(d.state), "reason" := reason])
  }

  /** A pass's counters. */
  datatype Tally = Tally(examined: nat, resumed: nat, failed: nat, unknown: nat, skipped: nat) {
    predicate Adds() {
      examined == resumed + failed + unknown + skipped
    }

    /** What was decided about each row, and how often each. */
    ghost predicate Counts(choices: seq<Option<Choice>>) {
      && examined == |choices|
      && resumed == multiset(choices)[Some(Move(Verifying))] && failed == multiset(choices)[Some(Move(Failed))]
      && unknown == multiset(choices)[Some(GiveUp)] && skipped == multiset(choices)[None]
    }

    /** One more row: skipped, or recovered by the choice. */
    function Count(c: Option<Choice>): (t: Tally)
      ensures Adds() ==> t.Adds() && t.examined == examined + 1
    {
      var t := this.(examined := examined + 1);
      if c.None? then t.(skipped := skipped + 1)
      else if c.value == Move(Verifying) then t.(resumed := resumed + 1)
      else if c.value == Move(Failed) then t.(failed := failed + 1)
      else t.(unknown := unknown + 1)
    }
  }

  lemma CountsOneMore(t: Tally, choices: seq<Option<Choice>>, c: Option<Choice>, d: Deployment, p: Probe)
    requires t.Adds() && t.Counts(choices) && (c.Some? ==> c.value == Choose(d, p))
    ensures t.Count(c).Adds() && t.Count(c).Counts(choices + [c])
  {
  }

  /** The non-terminal rows, in insertion order. */
  function Orphans(ix: Index, order: seq<string>): (ds: seq<Deployment>)
    ensures forall i :: 0 <= i < |ds| ==> !IsTerminal(ds[i].state)
  {
    if order == [] then []
    else
      var id := order[|order| - 1];
      Orphans(ix, order[..|order| - 1])
      + if id in ix.deployments && !IsTerminal(ix.deployments[id].state) then [ix.deployments[id]] else []
  }

  predicate DistinctIds(ds: seq<Deployment>) {
    forall i, j :: 0 <= i < j < |ds| ==> ds[i].id != ds[j].id
  }

  /** The row is the index's own, and its deployment is in the list. */
  predicate RowOf(ix: Index, order: seq<string>, d: Deployment) {
    d.id in order && d.id in ix.deployments && ix.deployments[d.id] == d
  }

  /** The orphans are the non-terminal rows, each once. */
  lemma {:induction false} OrphansComplete(ix: Index, order: seq<string>)
    requires forall id :: id in ix.deployments ==> ix.deployments[id].id == id
    requires forall i, j :: 0 <= i < j < |order| ==> order[i] != order[j]
    ensures forall d :: d in Orphans(ix, order) ==> RowOf(ix, order, d)
    ensures forall id :: id in order && id in ix.deployments && !IsTerminal(ix.deployments[id].state) ==>
              ix.deployments[id] in Orphans(ix, order)
    ensures DistinctIds(Orphans(ix, order))
  {
    if order != [] {
      var init := order[..|order| - 1];
      OrphansComplete(ix, init);
      assert order == init + [order[|order| - 1]];
      var ds, last := Orphans(ix, init), order[|order| - 1];
      forall i | 0 <= i < |ds| ensures ds[i].id != last {
        assert ds[i] in ds && RowOf(ix, init, ds[i]);
      }
      if Orphans(ix, order) != ds {
        assert Orphans(ix, order) == ds + [ix.deployments[last]];
      }
    }
  }
}
