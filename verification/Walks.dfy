/** The successive rows of one deployment in the journal. */
module Walks {
  import opened Prelude
  import opened Lifecycle
  import opened Records
  import opened Decisions
  import opened Coherence
  import opened Runs

  predicate IsRow(c: Change, id: string) {
    c.DeploymentRow? && c.deployment.id == id
  }

  /** The states of a deployment's rows, in the order they were written. */
  function RowStates(cs: seq<Change>, id: string): seq<State> {
    if cs == [] then []
    else RowStates(cs[..|cs| - 1], id) + RowState(cs[|cs| - 1], id)
  }

  function RowState(c: Change, id: string): seq<State> {
    if IsRow(c, id) then [c.deployment.state] else []
  }

  lemma {:induction false} RowStatesConcat(a: seq<Change>, b: seq<Change>, id: string)
    ensures RowStates(a + b, id) == RowStates(a, id) + RowStates(b, id)
  {
    if b == [] {
      assert a + b == a;
    } else {
      assert (a + b)[..|a + b| - 1] == a + b[..|b| - 1];
      RowStatesConcat(a, b[..|b| - 1], id);
    }
  }

  lemma {:induction false} RowCounts(cs: seq<Change>, p: nat, id: string)
    requires p < |cs| && IsRow(cs[p], id)
    ensures cs[p].deployment.state in RowStates(cs, id)
  {
    if p < |cs| - 1 {
      RowCounts(cs[..|cs| - 1], p, id);
    }
  }

  /** Records that are not rows of the deployment leave its row alone and add no state. */
  lemma {:induction false} RowFrame(ix: Index, cs: seq<Change>, id: string)
    requires forall i :: 0 <= i < |cs| ==> !IsRow(cs[i], id)
    ensures RowStates(cs, id) == []
    ensures id in ApplyAll(ix, cs).deployments <==> id in ix.deployments
    ensures id in ix.deployments ==> ApplyAll(ix, cs).deployments[id] == ix.deployments[id]
  {
    hide ApplyRecord;
    if cs != [] {
      RowFrame(ix, cs[..|cs| - 1], id);
      assert !IsRow(cs[|cs| - 1], id);
      OtherRow(ApplyAll(ix, cs[..|cs| - 1]), cs[|cs| - 1], id);
    }
  }

  lemma OtherRow(ix: Index, c: Change, id: string)
    requires !IsRow(c, id)
    ensures id in ApplyRecord(ix, c).deployments <==> id in ix.deployments
    ensures id in ix.deployments ==> ApplyRecord(ix, c).deployments[id] == ix.deployments[id]
  {
  }

  /** A group led by the deployment's row: one state is added and the row is the deployment's. */
  lemma RowGroup(ix: Index, d: Deployment, rest: seq<Change>)
    requires forall i :: 0 <= i < |rest| ==> !rest[i].DeploymentRow?
    ensures var cs := [DeploymentRow(d)] + rest;
            && RowStates(cs, d.id) == [d.state]
            && d.id in ApplyAll(ix, cs).deployments && ApplyAll(ix, cs).deployments[d.id] == d
    ensures forall id :: id != d.id ==>
            var cs := [DeploymentRow(d)] + rest;
            && RowStates(cs, id) == []
            && (id in ApplyAll(ix, cs).deployments <==> id in ix.deployments)
            && (id in ix.deployments ==> ApplyAll(ix, cs).deployments[id] == ix.deployments[id])
  {
    hide ApplyAll;
    var row := DeploymentRow(d);
    RowStatesConcat([row], rest, d.id);
    ApplyAllConcat(ix, [row], rest);
    ApplyTwo(ix, row, row);
    RowFrame(ApplyRecord(ix, row), rest, d.id);
    assert RowStates([row], d.id) == [d.state] by { assert [row][..0] == []; }
    forall id | id != d.id
      ensures var cs := [row] + rest;
              && RowStates(cs, id) == []
              && (id in ApplyAll(ix, cs).deployments <==> id in ix.deployments)
              && (id in ix.deployments ==> ApplyAll(ix, cs).deployments[id] == ix.deployments[id])
    {
      RowFrame(ix, [row] + rest, id);
    }
  }

  /** How one operation continues a deployment's row: not at all, from nothing, or by a legal step. */
  predicate Continues(ix: Index, ix': Index, added: seq<State>, id: string) {
    if added == [] then
      && (id in ix'.deployments <==> id in ix.deployments)
      && (id in ix.deployments ==> ix'.deployments[id] == ix.deployments[id])
    else
      && |added| == 1 && id in ix'.deployments && ix'.deployments[id].state == added[0]
      && (id in ix.deployments ==> Step(ix.deployments[id].state, added[0]))
  }

  lemma RowStep(cf: Settings, ix: Index, now: Time, op: Op, id: string)
    requires Named(ix)
    ensures Continues(ix, Next(cf, ix, now, op), RowStates(Writes(cf, ix, now, op), id), id)
  {
    hide ApplyAll, ApplyRecord, RowStates, NextEntry, Step, FenceOk, Guarded, CreatedDraft, BrokenDraft, Marked,
         IsTerminal;
    var d := Decide(cf, ix, now, op);
    if d.Write? && op.Create? {
      RowGroup(ix, NewRow(op.row, now), d.group[1..]);
      assert d.group == [DeploymentRow(NewRow(op.row, now))] + d.group[1..];
      SameOrMove(op.row.state, op.row.state);
    } else if d.Write? && op.Update? {
      RowGroup(ix, op.row.(updatedAt := now), []);
      assert d.group == [DeploymentRow(op.row.(updatedAt := now))] + [];
      SameOrMove(op.row.state, op.row.state);
    } else if d.Write? && op.Transition? {
      var row := Moved(ix.deployments[op.id], op.to, now);
      RowGroup(ix, row, d.group[1..]);
      assert d.group == [DeploymentRow(row)] + d.group[1..];
      SameOrMove(op.from, op.to);
    } else {
      RowFrame(ix, Writes(cf, ix, now, op), id);
    }
  }

  /** One call continues a row by what the disk takes of it, if anything. */
  lemma EffectRow(cf: Settings, ix: Index, i: Input, id: string)
    requires Named(ix)
    ensures Continues(ix, Effect(cf, ix, i), RowStates(Taken(cf, ix, i), id), id)
  {
    hide Writes, Next, RowStates, Named;
    RowStep(cf, ix, i.now, i.op, id);
    NoRows(id);
  }

  lemma SameOrMove(from: State, to: State)
    ensures from == to || CanTransition(from, to) ==> Step(from, to)
  {
  }

  /** The rows seen so far walk legally and end in the index's row. */
  ghost predicate Walked(ix: Index, ss: seq<State>, id: string) {
    && Walk(ss)
    && (id in ix.deployments <==> ss != [])
    && (ss != [] ==> ix.deployments[id].state == ss[|ss| - 1])
  }

  lemma ContinueWalk(ix: Index, ix': Index, ss: seq<State>, added: seq<State>, id: string)
    requires Walked(ix, ss, id) && Continues(ix, ix', added, id)
    ensures Walked(ix', ss + added, id)
  {
    if added == [] {
      assert ss + added == ss;
    }
  }

  /**
    * In every reachable journal the rows of a deployment form a legal walk, and the row in the
    * index is the last of them.
    */
  lemma {:induction false} LegalWalk(cf: Settings, ins: seq<Input>, id: string)
    ensures Walked(Exec(cf, EMPTY_INDEX, ins), RowStates(Written(cf, EMPTY_INDEX, ins), id), id)
  {
    hide Effect, Walked, Continues, Taken;
    if ins == [] {
      NoRows(id);
    } else {
      var init, last := ins[..|ins| - 1], ins[|ins| - 1];
      LegalWalk(cf, init, id);
      ReachableNamed(cf, EMPTY_INDEX, init);
      var ix := Exec(cf, EMPTY_INDEX, init);
      EffectRow(cf, ix, last, id);
      RowStatesConcat(Written(cf, EMPTY_INDEX, init), Taken(cf, ix, last), id);
      ContinueWalk(ix, Exec(cf, EMPTY_INDEX, ins), RowStates(Written(cf, EMPTY_INDEX, init), id),
                   RowStates(Taken(cf, ix, last), id), id);
    }
  }

  lemma NoRows(id: string)
    ensures RowStates([], id) == []
    ensures Walked(EMPTY_INDEX, RowStates([], id), id)
  {
  }

  /** At most seven transitions per deployment, and at most one entry into any state. */
  lemma {:induction false} WalkBounds(cf: Settings, ins: seq<Input>, id: string, s: State)
    ensures var ss := RowStates(Written(cf, EMPTY_INDEX, ins), id);
            Moves(ss) <= 7 && Entries(ss, s) <= 1
  {
    hide RowStates, Exec, Written;
    LegalWalk(cf, ins, id);
    var ss := RowStates(Written(cf, EMPTY_INDEX, ins), id);
    if ss != [] {
      MovesSpendRank(ss);
      EntersOnce(ss, s);
    }
  }

  /** In every run, a deployment that was begun PENDING has been written in every state on its way. */
  lemma {:induction false} ByTheBook(cf: Settings, ins: seq<Input>, id: string)
    ensures var ix, ss := Exec(cf, EMPTY_INDEX, ins), RowStates(Written(cf, EMPTY_INDEX, ins), id);
            ss != [] && ss[0] == Pending ==>
              && id in ix.deployments
              && (ix.deployments[id].state in {Succeeded, Promoting} ==> Verifying in ss && Deploying in ss)
              && (ix.deployments[id].state == Succeeded ==> Promoting in ss)
              && (ix.deployments[id].state == RolledBack ==> RollingBack in ss)
              && (ix.deployments[id].state in {Succeeded, Promoting, Verifying, RollingBack, RolledBack, Unknown} ==>
                    Deploying in ss && Preflight in ss)
  {
    hide RowStates, Exec, Written, Behind, Walk;
    LegalWalk(cf, ins, id);
    var ss := RowStates(Written(cf, EMPTY_INDEX, ins), id);
    if ss != [] && ss[0] == Pending {
      NoShortCut(ss);
      BehindTheEnds(ss[|ss| - 1]);
    }
  }

  /** Nothing that happens later moves a deployment out of a terminal state. */
  lemma {:induction false} TerminalAbsorbs(cf: Settings, ix: Index, ins: seq<Input>, id: string)
    requires Named(ix)
    requires id in ix.deployments && IsTerminal(ix.deployments[id].state)
    ensures var ix' := Exec(cf, ix, ins);
            id in ix'.deployments && ix'.deployments[id].state == ix.deployments[id].state
  {
    hide Effect, Named, Taken, RowStates;
    if ins != [] {
      var init, last := ins[..|ins| - 1], ins[|ins| - 1];
      TerminalAbsorbs(cf, ix, init, id);
      ReachableNamed(cf, ix, init);
      EffectRow(cf, Exec(cf, ix, init), last, id);
    }
  }
}
