/**
  * What a restarted engine can find of a deployment whose provider deploy was called: the licence of
  * the call is a write to a file, and the file may hold torn writes that the store has carried on behind.
  */
module Licences {
  import opened Lifecycle
  import opened Records
  import opened Walks
  import opened Worlds
  import opened Conduct
  import J = Journal
  import T = Tears

  /** Replay leaves the deployment's last row in the index. */
  lemma {:induction false} LastRow(ix0: Index, cs: seq<Change>, id: string)
    requires id !in ix0.deployments
    ensures var ix, ss := ApplyAll(ix0, cs), RowStates(cs, id);
            && (id in ix.deployments <==> ss != [])
            && (ss != [] ==> ix.deployments[id].state == ss[|ss| - 1])
  {
    hide ApplyRecord;
    if cs != [] {
      LastRow(ix0, cs[..|cs| - 1], id);
      OneRow(ApplyAll(ix0, cs[..|cs| - 1]), cs[|cs| - 1]);
    }
  }

  lemma OneRow(ix: Index, c: Change)
    ensures ApplyRecord(ix, c).deployments
         == if c.DeploymentRow? then ix.deployments[c.deployment.id := c.deployment] else ix.deployments
  {
  }

  lemma {:induction false} BackedAt(t: seq<Event>, i: nat, id: string)
    requires PersistFirst(t, id) && i < |t| && t[i].DeployCalled?
    ensures Backed(t[..i], t[i], id)
  {
    if i < |t| - 1 {
      BackedAt(t[..|t| - 1], i, id);
      assert t[..|t| - 1][..i] == t[..i];
    }
  }

  /** The position of the write that licenses a deploy. */
  function LicenceOf(t: seq<Event>, i: nat): nat
    requires i <= |t|
  {
    var a := LastAccepted(t[..i]);
    if a.Some? && a.value.Accepted? then a.value.position else 0
  }

  /** A move's group is one row of its deployment. */
  lemma MoveStates(cs: seq<Change>, id: string, to: State)
    requires MovesRow(cs, id, to)
    ensures RowStates(cs, id) == [to]
  {
    assert cs == [DeploymentRow(cs[0].deployment)] + cs[1..];
    RowGroup(EMPTY_INDEX, cs[0].deployment, cs[1..]);
  }

  lemma {:induction false} StatesAre(cs: seq<Change>, id: string, s: State)
    requires RowsFrom(cs, id, s)
    ensures forall x :: x in RowStates(cs, id) ==> Rank(x) <= Rank(s)
  {
    hide Rank;
    if cs != [] {
      StatesAre(cs[..|cs| - 1], id, s);
      assert IsRow(cs[|cs| - 1], id) ==> Rank(cs[|cs| - 1].deployment.state) <= Rank(s);
    }
  }

  /** The whole groups of the first n tries end in a row at or beyond a move that is among them. */
  lemma {:induction false} BeyondMove(c: J.Codec, tries: seq<T.Try>, e: Event, n: nat)
    requires e.Accepted? && Logged(e, tries) && e.position < n <= |tries|
    requires forall j :: e.position < j < |tries| ==> RowsFrom(tries[j].group.changes, e.id, e.to)
    ensures var ss := RowStates(J.Changes(T.WholeOf(c, tries[..n])), e.id);
            ss != [] && Rank(ss[|ss| - 1]) <= Rank(e.to)
  {
    hide Rank, RowStates, T.Whole, RowsFrom, CanTransition, MovesRow;
    var init, last := tries[..n - 1], tries[n - 1];
    assert tries[..n][..n - 1] == init;
    var gs := T.WholeOf(c, init);
    assert gs + [] == gs;
    assert (gs + [last.group])[..|gs|] == gs;
    RowStatesConcat(J.Changes(gs), last.group.changes, e.id);
    if n - 1 == e.position {
      T.AcceptedWhole(c, last);
      MoveStates(last.group.changes, e.id, e.to);
    } else {
      BeyondMove(c, tries, e, n - 1);
      StatesAre(last.group.changes, e.id, e.to);
      var ss, added := RowStates(J.Changes(gs), e.id), RowStates(last.group.changes, e.id);
      assert ss + [] == ss;
      assert added != [] ==> added[|added| - 1] in added;
    }
  }

  /**
    * A crash at any point after a provider deploy was called, whatever others wrote since and whatever
    * writes the disk refused after how many bytes, coincidental checksums aside. Replay reaches the
    * licence exactly if no write before it was torn; then it finds the deployment no nearer the start of
    * the table than the licensing state, so a restarted engine never takes it for one that was not
    * deployed. If one was, replay finds what there was before that tear, if it does not refuse the file.
    */
  lemma CrashAfterDeploy(c: J.Codec, tries: seq<T.Try>, ix: Index, t: seq<Event>, i: nat, id: string)
    requires J.Lawful(c) && T.AllFit(c, tries) && T.Clear(c, tries) && T.Numbered(tries, 0)
    requires TraceHolds(t, ix, tries) && PersistFirst(t, id) && i < |t| && t[i].DeployCalled?
    ensures LicenceOf(t, i) < |tries| && tries[LicenceOf(t, i)].disk.Accepts?
    ensures var r, f := J.Scan(c, T.Trail(c, tries), 0, J.NO_GROUP, J.START), T.FirstTear(c, tries);
            && (r.Ok? <==> T.Readable(c, tries[f..]))
            && (r.Ok? ==> r.value == J.Replayed(c, T.Reached(c, tries)))
            && (tries[LicenceOf(t, i)].group in T.Reached(c, tries) <==> LicenceOf(t, i) < f)
            && (r.Ok? && LicenceOf(t, i) < f ==>
                  var found := ApplyAll(EMPTY_INDEX, r.value.applied);
                  && id in found.deployments
                  && Rank(found.deployments[id].state) <= Rank(if t[i].key == id then Deploying else RollingBack)
                  && found.deployments[id].state !in {Pending, Preflight, AwaitApproval})
  {
    hide TraceHolds, T.AllFit, T.Clear, T.Numbered, T.Readable, T.Reached, J.Scan, J.Lawful, T.Trail, ApplyAll,
         PersistFirst, LastAccepted, LicenceOf, J.Replayed, T.FirstTear, Rank;
    var a := TheLicence(tries, ix, t, i, id);
    T.ReplayExactly(c, tries);
    Survives(c, tries, a.position);
    ReachedIs(c, tries);
    if a.position < T.FirstTear(c, tries) {
      FoundBeyond(c, tries, a, T.FirstTear(c, tries));
      OnlyLater(a.to, t[i].key, id);
    }
  }

  lemma ReachedIs(c: J.Codec, tries: seq<T.Try>)
    ensures J.Replayed(c, T.Reached(c, tries)).applied == J.Changes(T.WholeOf(c, tries[..T.FirstTear(c, tries)]))
  {
  }

  /** The transition that licenses a deploy of a run. */
  lemma TheLicence(tries: seq<T.Try>, ix: Index, t: seq<Event>, i: nat, id: string) returns (a: Event)
    requires TraceHolds(t, ix, tries) && PersistFirst(t, id) && i < |t| && t[i].DeployCalled?
    ensures a.Accepted? && a.id == id && a.position == LicenceOf(t, i) && Licenses(a.to, t[i].key, id)
    ensures Logged(a, tries) && a.position < |tries| && tries[a.position].disk.Accepts?
    ensures forall j :: a.position < j < |tries| ==> RowsFrom(tries[j].group.changes, id, a.to)
  {
    hide Logged, Onwards, PersistFirst, LastAccepted, RowsFrom;
    BackedAt(t, i, id);
    LastIsOne(t[..i]);
    a := LastAccepted(t[..i]).value;
    var k :| 0 <= k < i && t[..i][k] == a;
    assert t[k] == a && Logged(t[k], tries) && Onwards(t[k], ix, tries);
    LoggedAt(a, ix, tries);
  }

  lemma LoggedAt(e: Event, ix: Index, tries: seq<T.Try>)
    requires e.Accepted? && Logged(e, tries) && Onwards(e, ix, tries)
    ensures e.position < |tries| && tries[e.position].disk.Accepts?
    ensures forall j :: e.position < j < |tries| ==> RowsFrom(tries[j].group.changes, e.id, e.to)
  {
    hide Rank, RowsFrom;
  }

  lemma Survives(c: J.Codec, tries: seq<T.Try>, p: nat)
    requires p < |tries| && tries[p].disk.Accepts? && T.Numbered(tries, 0)
    ensures tries[p].group in T.Reached(c, tries) <==> p < T.FirstTear(c, tries)
  {
    hide T.Torn, T.Reached;
    T.SurvivesExactly(c, tries, p);
    T.AcceptedWhole(c, tries[p]);
  }

  lemma OnlyLater(to: State, key: string, id: string)
    requires Licenses(to, key, id)
    ensures forall s :: Rank(s) <= Rank(to) ==>
              s !in {Pending, Preflight, AwaitApproval} && Rank(s) <= Rank(if key == id then Deploying else RollingBack)
  {
    assert key == RollbackKey(id) ==> |key| > |id|;
  }

  lemma FoundBeyond(c: J.Codec, tries: seq<T.Try>, e: Event, f: nat)
    requires e.Accepted? && Logged(e, tries) && e.position < f <= |tries|
    requires forall j :: e.position < j < |tries| ==> RowsFrom(tries[j].group.changes, e.id, e.to)
    ensures var found := ApplyAll(EMPTY_INDEX, J.Changes(T.WholeOf(c, tries[..f])));
            e.id in found.deployments && Rank(found.deployments[e.id].state) <= Rank(e.to)
  {
    hide Rank, RowStates, T.WholeOf, Logged, RowsFrom, J.Changes;
    BeyondMove(c, tries, e, f);
    LastRow(EMPTY_INDEX, J.Changes(T.WholeOf(c, tries[..f])), e.id);
  }

  /**
    * The licence can be lost. A write torn inside a record, then ROLLING_BACK accepted, then a crash:
    * if the torn record claims more bytes than follow it, the store opens without complaint and finds
    * the deployment as it was before either, however far the rollback had got.
    */
  lemma LicenceLost(c: J.Codec, before: seq<T.Try>, torn: T.Try, moved: T.Try, id: string, s: State)
    requires J.Lawful(c) && T.AllFit(c, before + [torn, moved]) && T.Numbered(before + [torn, moved], 0)
    requires forall k :: 0 <= k < |before| ==> !T.Torn(c, before[k])
    requires var found := ApplyAll(EMPTY_INDEX, J.Changes(T.WholeOf(c, before)));
             id in found.deployments && found.deployments[id].state == s && CanTransition(s, RollingBack)
    requires moved.disk.Accepts? && MovesRow(moved.group.changes, id, RollingBack)
    requires T.Inside(c, torn) && T.TakenForTail(T.Part(c, torn) + J.EncodeGroup(c, moved.group))
    ensures var r := J.Scan(c, T.Trail(c, before + [torn, moved]), 0, J.NO_GROUP, J.START);
            && r.Ok?
            && var found := ApplyAll(EMPTY_INDEX, r.value.applied);
               && id in found.deployments && found.deployments[id].state == s
               && Rank(found.deployments[id].state) > Rank(RollingBack)
  {
    hide J.Lawful, T.AllFit, T.Numbered, T.Part, T.TakenForTail, J.Scan, J.EncodeGroup, ApplyAll, MovesRow, T.Left,
         T.Coincides;
    var tries, f := before + [torn, moved], |before|;
    RankDrops(s, RollingBack);
    TearAt(c, before, torn, moved);
    T.ReplayExactly(c, tries);
  }

  lemma TearAt(c: J.Codec, before: seq<T.Try>, torn: T.Try, moved: T.Try)
    requires forall k :: 0 <= k < |before| ==> !T.Torn(c, before[k])
    requires T.Inside(c, torn) && moved.disk.Accepts?
    requires T.TakenForTail(T.Part(c, torn) + J.EncodeGroup(c, moved.group))
    ensures var tries := before + [torn, moved];
            && T.FirstTear(c, tries) == |before| && tries[..|before|] == before
            && T.Readable(c, tries[|before|..]) && T.Clear(c, tries)
  {
    hide T.Part, T.TakenForTail, J.EncodeGroup;
    var tries := before + [torn, moved];
    var f := T.FirstTear(c, tries);
    assert tries[|before|] == torn && tries[|before| + 1] == moved;
    assert tries[|before|..] == [torn, moved] && tries[..|before|] == before;
    assert forall k :: 0 <= k < |before| ==> tries[k] == before[k];
    assert [torn, moved][1..] == [moved] && [moved][1..] == [];
    T.AcceptedWhole(c, moved);
    assert T.Left(c, moved) == J.EncodeGroup(c, moved.group);
    assert T.Trail(c, [moved]) == T.Left(c, moved) + [] == T.Left(c, moved);
    forall k | 0 <= k < |tries| && T.Inside(c, tries[k])
      ensures !T.Coincides(c, T.Part(c, tries[k]) + T.Trail(c, tries[k + 1..]))
    {
      assert k == |before|;
      assert tries[k + 1..] == [moved];
    }
  }
}
