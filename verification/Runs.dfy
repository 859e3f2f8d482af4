/** Sequences of store operations by any callers, and what of them survives a crash. */
module Runs {
  import opened Prelude
  import opened Records
  import opened Decisions
  import opened Coherence
  import J = Journal
  import T = Tears

  /** One store call: the clock it reads, the operation, and what the disk does with its write. */
  datatype Input = Input(now: Time, op: Op, disk: J.Disk)

  /** The index after one call; a write that the disk does not take is refused. */
  function Effect(cf: Settings, ix: Index, i: Input): Index {
    if i.disk.Accepts? then Next(cf, ix, i.now, i.op) else Burned(ix, Writes(cf, ix, i.now, i.op))
  }

  /** The index after a run of calls. */
  function Exec(cf: Settings, ix: Index, ins: seq<Input>): Index {
    if ins == [] then ix else Effect(cf, Exec(cf, ix, ins[..|ins| - 1]), ins[|ins| - 1])
  }

  /** The records of one call that the disk takes. */
  function Taken(cf: Settings, ix: Index, i: Input): seq<Change> {
    if i.disk.Accepts? then Writes(cf, ix, i.now, i.op) else []
  }

  /** A call does what the records the disk takes say, and perhaps uses up outbox numbers. */
  lemma EffectIs(cf: Settings, ix: Index, i: Input)
    ensures var ix' := Effect(cf, ix, i); ix' == ApplyAll(ix, Taken(cf, ix, i)).(outboxSeq := ix'.outboxSeq)
    ensures Writes(cf, ix, i.now, i.op) == [] ==> Effect(cf, ix, i) == ix && Taken(cf, ix, i) == []
  {
    hide Writes;
  }

  /** Every record a run has reported as written, in order. */
  function Written(cf: Settings, ix: Index, ins: seq<Input>): seq<Change> {
    if ins == [] then []
    else Written(cf, ix, ins[..|ins| - 1]) + Taken(cf, Exec(cf, ix, ins[..|ins| - 1]), ins[|ins| - 1])
  }

  /** Every write a run tries, numbered from one, and what the disk does with it. */
  function Tries(cf: Settings, ix: Index, ins: seq<Input>): seq<T.Try> {
    if ins == [] then []
    else
      var ts, last := Tries(cf, ix, ins[..|ins| - 1]), ins[|ins| - 1];
      var group := Writes(cf, Exec(cf, ix, ins[..|ins| - 1]), last.now, last.op);
      if group == [] then ts else ts + [T.Try(J.Group(|ts| + 1, group), last.disk)]
  }

  /** The groups that a run has committed. */
  function Committed(cf: Settings, ix: Index, ins: seq<Input>): seq<J.Group> {
    T.Reported(Tries(cf, ix, ins))
  }

  /** Every row rewrite of a run keeps its idempotency key. */
  predicate KeysKept(cf: Settings, ix: Index, ins: seq<Input>) {
    forall k :: 0 <= k < |ins| ==> KeepsKey(Exec(cf, ix, ins[..k]), ins[k].op)
  }

  predicate ClockAdvances(ins: seq<Input>) {
    forall i, j :: 0 <= i < j < |ins| ==> ins[i].now <= ins[j].now
  }

  lemma {:induction false} ExecConcat(cf: Settings, ix: Index, a: seq<Input>, b: seq<Input>)
    ensures Exec(cf, ix, a + b) == Exec(cf, Exec(cf, ix, a), b)
  {
    if b == [] {
      assert a + b == a;
    } else {
      var b' := b[..|b| - 1];
      assert (a + b)[..|a + b| - 1] == a + b';
      ExecConcat(cf, ix, a, b');
    }
  }

  lemma OneMoreExec(cf: Settings, ix: Index, ins: seq<Input>, i: Input)
    ensures Exec(cf, ix, ins + [i]) == Effect(cf, Exec(cf, ix, ins), i)
  {
    assert (ins + [i])[..|ins|] == ins;
  }

  lemma EffectNamed(cf: Settings, ix: Index, i: Input)
    requires Named(ix)
    ensures Named(Effect(cf, ix, i))
  {
    hide Writes, ApplyAll;
    GroupNamed(ix, Writes(cf, ix, i.now, i.op));
  }

  /** Rows are under their own names in every reachable index. */
  lemma {:induction false} ReachableNamed(cf: Settings, ix: Index, ins: seq<Input>)
    requires Named(ix)
    ensures Named(Exec(cf, ix, ins))
  {
    hide Named, Effect;
    if ins != [] {
      ReachableNamed(cf, ix, ins[..|ins| - 1]);
      EffectNamed(cf, Exec(cf, ix, ins[..|ins| - 1]), ins[|ins| - 1]);
    }
  }

  lemma EmptyCoherent()
    ensures Coherent(EMPTY_INDEX)
  {
  }

  lemma EffectCoherent(cf: Settings, ix: Index, i: Input)
    requires Coherent(ix) && KeepsKey(ix, i.op)
    ensures Coherent(Effect(cf, ix, i))
  {
    hide Next, Writes, KeepsKey, Coherent;
    if i.disk.Accepts? {
      NextCoherent(cf, ix, i.now, i.op);
    } else {
      BurnedCoherent(ix, Writes(cf, ix, i.now, i.op));
    }
  }

  lemma {:induction false} ReachableCoherent(cf: Settings, ix: Index, ins: seq<Input>)
    requires Coherent(ix) && KeysKept(cf, ix, ins)
    ensures Coherent(Exec(cf, ix, ins))
  {
    hide Coherent, Effect, KeepsKey;
    if ins != [] {
      var init, last := ins[..|ins| - 1], ins[|ins| - 1];
      KeysKeptPrefix(cf, ix, ins, |ins| - 1);
      ReachableCoherent(cf, ix, init);
      EffectCoherent(cf, Exec(cf, ix, init), last);
    }
  }

  /** An idempotency key never stands for two deployments. */
  lemma OneDeploymentPerKey(cf: Settings, ins: seq<Input>, a: string, b: string)
    requires KeysKept(cf, EMPTY_INDEX, ins)
    ensures var rows := Exec(cf, EMPTY_INDEX, ins).deployments;
            a in rows && b in rows && rows[a].idempotencyKey == rows[b].idempotencyKey != "" ==> a == b
  {
    hide Exec, KeysKept;
    EmptyCoherent();
    ReachableCoherent(cf, EMPTY_INDEX, ins);
    var ix := Exec(cf, EMPTY_INDEX, ins);
    if a in ix.deployments && b in ix.deployments {
      DeploymentNamed(ix, a);
      DeploymentNamed(ix, b);
    }
  }

  lemma KeysKeptPrefix(cf: Settings, ix: Index, ins: seq<Input>, n: nat)
    requires KeysKept(cf, ix, ins) && n <= |ins|
    ensures KeysKept(cf, ix, ins[..n])
  {
    forall k | 0 <= k < n ensures KeepsKey(Exec(cf, ix, ins[..n][..k]), ins[..n][k].op) {
      assert ins[..n][..k] == ins[..k];
      assert KeepsKey(Exec(cf, ix, ins[..k]), ins[k].op);
    }
  }

  // ------------------------------------------------------------- replay

  /** The same but for outbox numbers used up. */
  predicate UpToCounter(ix: Index, ix': Index) {
    ix' == ix.(outboxSeq := ix'.outboxSeq) && ix.outboxSeq <= ix'.outboxSeq
  }

  lemma OneUpToCounter(ix: Index, ix': Index, c: Change)
    requires UpToCounter(ix, ix')
    ensures UpToCounter(ApplyRecord(ix, c), ApplyRecord(ix', c))
  {
  }

  lemma {:induction false} AllUpToCounter(ix: Index, ix': Index, cs: seq<Change>)
    requires UpToCounter(ix, ix')
    ensures UpToCounter(ApplyAll(ix, cs), ApplyAll(ix', cs))
  {
    hide ApplyRecord, UpToCounter;
    if cs != [] {
      AllUpToCounter(ix, ix', cs[..|cs| - 1]);
      OneUpToCounter(ApplyAll(ix, cs[..|cs| - 1]), ApplyAll(ix', cs[..|cs| - 1]), cs[|cs| - 1]);
    }
  }

  /** No write of a run is refused. */
  predicate AllTaken(ins: seq<Input>) {
    forall k :: 0 <= k < |ins| ==> ins[k].disk.Accepts?
  }

  lemma EffectIsReplay(cf: Settings, ix: Index, replayed: Index, i: Input)
    requires UpToCounter(replayed, ix)
    ensures UpToCounter(ApplyAll(replayed, Taken(cf, ix, i)), Effect(cf, ix, i))
    ensures replayed == ix && i.disk.Accepts? ==> ApplyAll(replayed, Taken(cf, ix, i)) == Effect(cf, ix, i)
  {
    hide Writes, ApplyRecord;
    AllUpToCounter(replayed, ix, Taken(cf, ix, i));
  }

  /**
    * Replaying everything a run committed gives the index the run left in memory, but for outbox
    * numbers used up by refused writes; and without any if none was refused.
    */
  lemma {:induction false} IndexIsReplay(cf: Settings, ix: Index, ins: seq<Input>)
    ensures UpToCounter(ApplyAll(ix, Written(cf, ix, ins)), Exec(cf, ix, ins))
    ensures AllTaken(ins) ==> ApplyAll(ix, Written(cf, ix, ins)) == Exec(cf, ix, ins)
    ensures J.Changes(Committed(cf, ix, ins)) == Written(cf, ix, ins)
  {
    hide Writes, ApplyRecord, Effect, UpToCounter;
    if ins != [] {
      var init, last := ins[..|ins| - 1], ins[|ins| - 1];
      IndexIsReplay(cf, ix, init);
      var before := Exec(cf, ix, init);
      ApplyAllConcat(ix, Written(cf, ix, init), Taken(cf, before, last));
      EffectIsReplay(cf, before, ApplyAll(ix, Written(cf, ix, init)), last);
      assert ins == init + [last];
      TriesAndWritten(cf, ix, init, last, before);
    } else {
      SameCounter(ix);
    }
  }

  lemma SameCounter(ix: Index)
    ensures UpToCounter(ix, ix)
  {
  }

  lemma TriesAndWritten(cf: Settings, ix: Index, init: seq<Input>, last: Input, before: Index)
    requires before == Exec(cf, ix, init) && J.Changes(Committed(cf, ix, init)) == Written(cf, ix, init)
    ensures J.Changes(Committed(cf, ix, init + [last])) == Written(cf, ix, init + [last])
  {
    hide Writes, Exec, T.Reported, J.Changes;
    var group := Writes(cf, before, last.now, last.op);
    OneMoreTry(cf, ix, init, last);
    if group != [] {
      T.OneMoreReported(Tries(cf, ix, init), T.Try(J.Group(|Tries(cf, ix, init)| + 1, group), last.disk));
    }
    assert Written(cf, ix, init) + [] == Written(cf, ix, init);
  }

  lemma OneMoreTry(cf: Settings, ix: Index, init: seq<Input>, last: Input)
    ensures var ts, group := Tries(cf, ix, init), Writes(cf, Exec(cf, ix, init), last.now, last.op);
            Tries(cf, ix, init + [last])
            == if group == [] then ts else ts + [T.Try(J.Group(|ts| + 1, group), last.disk)]
    ensures Written(cf, ix, init + [last])
         == Written(cf, ix, init) + Taken(cf, Exec(cf, ix, init), last)
  {
    hide Writes, Exec;
    assert (init + [last])[..|init|] == init;
  }

  /** Tries are numbered from one, refused ones included. */
  lemma {:induction false} TriesNumbered(cf: Settings, ix: Index, ins: seq<Input>)
    ensures forall k :: 0 <= k < |Tries(cf, ix, ins)| ==> Tries(cf, ix, ins)[k].group.seqNo == k + 1
    ensures T.Numbered(Tries(cf, ix, ins), 0)
  {
    hide Writes, Exec;
    if ins != [] {
      TriesNumbered(cf, ix, ins[..|ins| - 1]);
    }
  }
}
