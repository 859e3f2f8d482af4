/**
  * What a run of store calls leaves in the file: after a crash at any byte, and after writes that
  * the disk took in full and yet reported as failed.
  */
module Durability {
  import opened Prelude
  import opened Lifecycle
  import opened Records
  import opened AuditChain
  import opened Decisions
  import opened Coherence
  import opened Runs
  import opened Walks
  import opened AuditProofs
  import J = Journal
  import T = Tears

  /** No refused write has left a byte. */
  predicate Clean(c: J.Codec, ts: seq<T.Try>) {
    forall k :: 0 <= k < |ts| && !ts[k].disk.Accepts? ==> T.Left(c, ts[k]) == []
  }

  /** Then the file is the encoding of the groups reported as written. */
  lemma {:induction false} CleanTrail(c: J.Codec, ts: seq<T.Try>)
    requires Clean(c, ts)
    ensures T.Trail(c, ts) == J.EncodeLog(c, T.Reported(ts))
  {
    hide J.EncodeGroup, T.Left;
    if ts != [] {
      var init, last := ts[..|ts| - 1], ts[|ts| - 1];
      CleanTrail(c, init);
      assert ts == init + [last];
      T.TrailConcat(c, init, [last]);
      assert T.Trail(c, [last]) == T.Left(c, last) + [] == T.Left(c, last);
      if last.disk.Accepts? {
        T.LogSnoc(c, T.Reported(init), last.group);
        T.AcceptedWhole(c, last);
        assert T.Left(c, last) == J.EncodeGroup(c, last.group);
      } else {
        assert T.Reported(init) + [] == T.Reported(init);
        assert T.Trail(c, init) + [] == T.Trail(c, init);
      }
    }
  }

  lemma {:induction false} ReportedFit(c: J.Codec, ts: seq<T.Try>)
    requires T.AllFit(c, ts)
    ensures J.AllWritable(c, T.Reported(ts))
  {
    hide J.Writable;
    if ts != [] {
      ReportedFit(c, ts[..|ts| - 1]);
    }
  }

  /** The group that the next call of a run would write, as numbered. */
  function NextGroup(cf: Settings, ins: seq<Input>, i: Input): J.Group {
    J.Group(|Tries(cf, EMPTY_INDEX, ins)| + 1, Writes(cf, Exec(cf, EMPTY_INDEX, ins), i.now, i.op))
  }

  function NextBytes(c: J.Codec, cf: Settings, ins: seq<Input>, i: Input): seq<J.byte> {
    if NextGroup(cf, ins, i).changes == [] then [] else J.EncodeGroup(c, NextGroup(cf, ins, i))
  }

  /** The file a run leaves. */
  function FileOf(c: J.Codec, cf: Settings, ins: seq<Input>): seq<J.byte> {
    T.Trail(c, Tries(cf, EMPTY_INDEX, ins))
  }

  /**
    * A crash at any byte of any store call of a run whose refused writes, if any, left nothing behind.
    * Reopening finds the index from before the call, or, exactly when all of the call's bytes
    * arrived, the index from after it, outbox numbers used up by refused writes aside; and the file is
    * again the encoding of the run that led there. TearsExactly says what the others find.
    */
  lemma {:induction false} CrashAtAnyByte(c: J.Codec, cf: Settings, ins: seq<Input>, i: Input, k: nat)
    requires J.Lawful(c) && T.AllFit(c, Tries(cf, EMPTY_INDEX, ins)) && Clean(c, Tries(cf, EMPTY_INDEX, ins))
    requires NextGroup(cf, ins, i).changes != [] ==> J.Writable(c, NextGroup(cf, ins, i))
    requires k <= |NextBytes(c, cf, ins, i)|
    ensures var survivors := if k == |NextBytes(c, cf, ins, i)| then ins + [i.(disk := J.Accepts)] else ins;
            var log := Committed(cf, EMPTY_INDEX, survivors);
            var disk := FileOf(c, cf, ins) + NextBytes(c, cf, ins, i)[..k];
            && J.Scan(c, disk, 0, J.NO_GROUP, J.START) == Ok(J.Replayed(c, log))
            && J.EncodeLog(c, log) <= disk
            && UpToCounter(ApplyAll(EMPTY_INDEX, J.Changes(log)), Exec(cf, EMPTY_INDEX, survivors))
            && (AllTaken(ins) ==> ApplyAll(EMPTY_INDEX, J.Changes(log)) == Exec(cf, EMPTY_INDEX, survivors))
  {
    hide J.Scan, Writes, ApplyAll, J.EncodeGroup, J.EncodeLog, J.Replayed, J.Lawful, Committed, Tries, Written,
         Exec, J.Changes, T.AllFit, J.Writable, UpToCounter, Clean, AllTaken, NextGroup, FileOf;
    var last := i.(disk := J.Accepts);
    IndexIsReplay(cf, EMPTY_INDEX, ins);
    IndexIsReplay(cf, EMPTY_INDEX, ins + [last]);
    AllTakenMore(ins, last);
    CutFile(c, cf, ins, i, k);
  }

  /** The file after a crash at byte k of a call, and what replay makes of it. */
  lemma CutFile(c: J.Codec, cf: Settings, ins: seq<Input>, i: Input, k: nat)
    requires J.Lawful(c) && T.AllFit(c, Tries(cf, EMPTY_INDEX, ins)) && Clean(c, Tries(cf, EMPTY_INDEX, ins))
    requires NextGroup(cf, ins, i).changes != [] ==> J.Writable(c, NextGroup(cf, ins, i))
    requires k <= |NextBytes(c, cf, ins, i)|
    ensures var log := Committed(cf, EMPTY_INDEX, if k == |NextBytes(c, cf, ins, i)| then ins + [i.(disk := J.Accepts)]
                                                  else ins);
            var disk := FileOf(c, cf, ins) + NextBytes(c, cf, ins, i)[..k];
            && J.Scan(c, disk, 0, J.NO_GROUP, J.START) == Ok(J.Replayed(c, log))
            && J.EncodeLog(c, log) <= disk
  {
    hide J.Scan, J.EncodeGroup, J.EncodeLog, J.Replayed, J.Lawful, Tries, T.Reported, T.AllFit, J.Writable, Clean,
         NextGroup;
    var last := i.(disk := J.Accepts);
    var ts, gs, g := Tries(cf, EMPTY_INDEX, ins), Committed(cf, EMPTY_INDEX, ins), NextGroup(cf, ins, i);
    var bytes := NextBytes(c, cf, ins, i);
    CleanTrail(c, ts);
    ReportedFit(c, ts);
    CommittedNext(cf, ins, last);
    NextSame(cf, ins, i, last);
    assert FileOf(c, cf, ins) == J.EncodeLog(c, gs);
    if g.changes == [] {
      assert bytes == [] && bytes[..k] == [];
      WholeLog(c, gs, bytes[..k]);
    } else {
      J.CrashRecovery(c, gs, g, k);
      T.LogSnoc(c, gs, g);
      assert k == |bytes| ==> bytes[..k] == bytes;
    }
  }

  lemma NextSame(cf: Settings, ins: seq<Input>, i: Input, i': Input)
    requires i'.now == i.now && i'.op == i.op
    ensures NextGroup(cf, ins, i) == NextGroup(cf, ins, i')
  {
  }

  lemma CommittedNext(cf: Settings, ins: seq<Input>, i: Input)
    requires i.disk.Accepts?
    ensures var gs, g := Committed(cf, EMPTY_INDEX, ins), NextGroup(cf, ins, i);
            Committed(cf, EMPTY_INDEX, ins + [i]) == if g.changes == [] then gs else gs + [g]
  {
    hide Tries, Writes, T.Reported, Exec;
    OneMoreTry(cf, EMPTY_INDEX, ins, i);
    T.OneMoreReported(Tries(cf, EMPTY_INDEX, ins), T.Try(NextGroup(cf, ins, i), J.Accepts));
  }

  lemma AllTakenMore(ins: seq<Input>, i: Input)
    requires i.disk.Accepts?
    ensures AllTaken(ins) ==> AllTaken(ins + [i])
  {
  }

  lemma WholeLog(c: J.Codec, gs: seq<J.Group>, nothing: seq<J.byte>)
    requires J.Lawful(c) && J.AllWritable(c, gs) && nothing == []
    ensures J.Scan(c, J.EncodeLog(c, gs) + nothing, 0, J.NO_GROUP, J.START) == Ok(J.Replayed(c, gs))
  {
    hide J.ParseOne;
    J.ScanLog(c, gs, nothing);
    J.ScanNothing(c, |J.EncodeLog(c, gs)|, J.Replayed(c, gs));
  }

  /**
    * The same for every run, whatever its refused writes left, coincidental checksums aside: replay
    * finds what is whole before the first tear, refused or not, or refuses the file.
    */
  lemma TearsExactly(c: J.Codec, cf: Settings, ins: seq<Input>)
    requires var ts := Tries(cf, EMPTY_INDEX, ins); J.Lawful(c) && T.AllFit(c, ts) && T.Clear(c, ts)
    ensures var ts := Tries(cf, EMPTY_INDEX, ins);
            J.Scan(c, FileOf(c, cf, ins), 0, J.NO_GROUP, J.START)
            == if T.Readable(c, ts[T.FirstTear(c, ts)..]) then Ok(J.Replayed(c, T.Reached(c, ts))) else Err(())
  {
    hide J.Scan, J.Replayed, T.Reached, T.Readable, T.AllFit, T.Clear, T.FirstTear, Tries, T.Numbered, J.Lawful;
    TriesNumbered(cf, EMPTY_INDEX, ins);
    T.ReplayExactly(c, Tries(cf, EMPTY_INDEX, ins));
  }

  // ------------------------------------------------------- writes reported as failed that did not

  /** Everything that is whole in the file, refused writes included. */
  function OnDisk(c: J.Codec, cf: Settings, ins: seq<Input>): seq<Change> {
    J.Changes(T.WholeOf(c, Tries(cf, EMPTY_INDEX, ins)))
  }

  /** Whether the write of one more call would be whole in the file. */
  predicate Lands(c: J.Codec, cf: Settings, ins: seq<Input>, i: Input) {
    NextGroup(cf, ins, i).changes != [] && T.Whole(c, T.Try(NextGroup(cf, ins, i), i.disk))
  }

  lemma OneMoreOnDisk(c: J.Codec, cf: Settings, ins: seq<Input>, i: Input)
    ensures OnDisk(c, cf, ins + [i])
         == OnDisk(c, cf, ins) + if Lands(c, cf, ins, i) then NextGroup(cf, ins, i).changes else []
  {
    hide T.Whole, Writes, Exec;
    OneMoreTry(cf, EMPTY_INDEX, ins, i);
    var ts, g := Tries(cf, EMPTY_INDEX, ins), NextGroup(cf, ins, i);
    assert OnDisk(c, cf, ins) + [] == OnDisk(c, cf, ins);
    if g.changes != [] {
      assert (ts + [T.Try(g, i.disk)])[..|ts|] == ts;
      var gs := T.WholeOf(c, ts);
      assert (gs + [g])[..|gs|] == gs;
      assert gs + [] == gs;
    }
  }

  /**
    * A refused write that is whole in the file takes effect when the store is next opened, exactly as
    * if it had been accepted, while the running store knows nothing of it.
    */
  lemma WholeRefusalTakesEffect(c: J.Codec, cf: Settings, ins: seq<Input>, i: Input)
    requires !i.disk.Accepts? && Lands(c, cf, ins, i)
    ensures ApplyAll(EMPTY_INDEX, OnDisk(c, cf, ins + [i]))
         == ApplyAll(ApplyAll(EMPTY_INDEX, OnDisk(c, cf, ins)), Writes(cf, Exec(cf, EMPTY_INDEX, ins), i.now, i.op))
    ensures OnDisk(c, cf, ins + [i]) == OnDisk(c, cf, ins + [i.(disk := J.Accepts)])
    ensures UpToCounter(Exec(cf, EMPTY_INDEX, ins), Exec(cf, EMPTY_INDEX, ins + [i]))
    ensures Written(cf, EMPTY_INDEX, ins + [i]) == Written(cf, EMPTY_INDEX, ins)
  {
    hide Exec, Writes, ApplyRecord, ApplyAll, OnDisk, T.Whole;
    OneMoreOnDisk(c, cf, ins, i);
    OneMoreOnDisk(c, cf, ins, i.(disk := J.Accepts));
    T.AcceptedWhole(c, T.Try(NextGroup(cf, ins, i), J.Accepts));
    ApplyAllConcat(EMPTY_INDEX, OnDisk(c, cf, ins), NextGroup(cf, ins, i).changes);
    OneMoreExec(cf, EMPTY_INDEX, ins, i);
    OneMoreTry(cf, EMPTY_INDEX, ins, i);
    assert Written(cf, EMPTY_INDEX, ins) + [] == Written(cf, EMPTY_INDEX, ins);
  }

  // ------------------------------------------------------- their audit entries

  /** The audit entries among some records. */
  function EntriesOf(cs: seq<Change>): seq<AuditEntry> {
    if cs == [] then []
    else EntriesOf(cs[..|cs| - 1]) + if cs[|cs| - 1].AuditRow? then [cs[|cs| - 1].entry] else []
  }

  lemma {:induction false} AuditIs(ix: Index, cs: seq<Change>)
    ensures ApplyAll(ix, cs).audit == ix.audit + EntriesOf(cs)
    ensures ApplyAll(ix, cs).auditHead
         == if EntriesOf(cs) == [] then ix.auditHead else EntriesOf(cs)[|EntriesOf(cs)| - 1].hash
  {
    hide ApplyRecord;
    if cs != [] {
      AuditIs(ix, cs[..|cs| - 1]);
      OneAudit(ApplyAll(ix, cs[..|cs| - 1]), cs[|cs| - 1]);
    } else {
      assert ix.audit + [] == ix.audit;
    }
  }

  lemma OneAudit(ix: Index, c: Change)
    ensures var ix' := ApplyRecord(ix, c);
            && ix'.audit == (if c.AuditRow? then ix.audit + [c.entry] else ix.audit)
            && ix'.auditHead == (if c.AuditRow? then c.entry.hash else ix.auditHead)
  {
  }

  lemma {:induction false} EntriesConcat(a: seq<Change>, b: seq<Change>)
    ensures EntriesOf(a + b) == EntriesOf(a) + EntriesOf(b)
  {
    if b == [] {
      assert a + b == a;
    } else {
      assert (a + b)[..|a + b| - 1] == a + b[..|b| - 1];
      EntriesConcat(a, b[..|b| - 1]);
    }
  }

  lemma {:induction false} NoEntriesIn(cs: seq<Change>)
    requires forall i :: 0 <= i < |cs| ==> !cs[i].AuditRow?
    ensures EntriesOf(cs) == []
  {
    if cs != [] {
      NoEntriesIn(cs[..|cs| - 1]);
    }
  }

  /** A group that starts with at most one audit entry, among other records. */
  lemma EntriesOfGroup(cs: seq<Change>, k: nat)
    requires k < |cs| && cs[k].AuditRow? && forall i :: 0 <= i < |cs| && i != k ==> !cs[i].AuditRow?
    ensures EntriesOf(cs) == [cs[k].entry]
  {
    var a, b := cs[..k], cs[k + 1..];
    assert cs == a + [cs[k]] + b;
    EntriesConcat(a + [cs[k]], b);
    EntriesConcat(a, [cs[k]]);
    assert [cs[k]][..0] == [];
    assert EntriesOf([cs[k]]) == [] + [cs[k].entry];
    NoEntriesIn(a);
    NoEntriesIn(b);
  }

  /** A write has at most one audit entry, linked behind the running store's head. */
  lemma OneEntry(cf: Settings, ix: Index, now: Time, op: Op)
    ensures var es := EntriesOf(Writes(cf, ix, now, op));
            |es| <= 1 && (es != [] ==> es[0].prevHash == ix.auditHead
                                       && es[0].hash == AuditHash(cf.hasher, es[0].prevHash, es[0]))
  {
    hide ApplyAll, NextEntry, Moved, Stamped, CreatedDraft, BrokenDraft, Marked, Refusal, EntriesOf, AuditHash,
         LinkedBehind;
    var cs := Writes(cf, ix, now, op);
    if k :| 0 <= k < |cs| && cs[k].AuditRow? {
      EntryPlaces(cf, ix, now, op, k);
      EntriesOfGroup(cs, k);
      WritesLinked(cf, ix, now, op, k);
      HeadBefore(cf.hasher, ix, cs, k);
    } else {
      NoEntriesIn(cs);
    }
  }

  lemma EntryPlaces(cf: Settings, ix: Index, now: Time, op: Op, k: nat)
    requires k < |Writes(cf, ix, now, op)| && Writes(cf, ix, now, op)[k].AuditRow?
    ensures var cs := Writes(cf, ix, now, op); forall i :: 0 <= i < |cs| && i != k ==> !cs[i].AuditRow?
  {
    hide NextEntry, Moved, Stamped, CreatedDraft, BrokenDraft, Marked, Refusal;
  }

  lemma HeadBefore(h: Hasher, ix: Index, cs: seq<Change>, k: nat)
    requires k < |cs| && cs[k].AuditRow? && forall i :: 0 <= i < |cs| && i != k ==> !cs[i].AuditRow?
    requires LinkedBehind(h, ApplyAll(ix, cs[..k]), cs[k])
    ensures cs[k].entry.prevHash == ix.auditHead
    ensures cs[k].entry.hash == AuditHash(h, cs[k].entry.prevHash, cs[k].entry)
  {
    hide ApplyAll, AuditHash;
    NoEntriesIn(cs[..k]);
    AuditIs(ix, cs[..k]);
    SelfHash(h, ix.auditHead, cs[k].entry);
  }

  /** The audit log as the file has it. */
  function AuditOnDisk(c: J.Codec, cf: Settings, ins: seq<Input>): seq<AuditEntry> {
    EntriesOf(OnDisk(c, cf, ins))
  }

  /** Of each of its entries, whether the write was reported as done. */
  function Honoured(c: J.Codec, cf: Settings, ins: seq<Input>): seq<bool> {
    if ins == [] then []
    else
      var init, last := ins[..|ins| - 1], ins[|ins| - 1];
      Honoured(c, cf, init)
      + if Lands(c, cf, init, last) && EntriesOf(NextGroup(cf, init, last).changes) != [] then [last.disk.Accepts?]
        else []
  }

  /** No entry whose write was refused has another behind it, but for one that hashes to what went before it. */
  predicate RefusedLast(audit: seq<AuditEntry>, honoured: seq<bool>)
    requires |audit| == |honoured|
  {
    forall i :: 0 <= i < |audit| - 1 && !honoured[i] ==> audit[i].hash == audit[i].prevHash
  }

  /** How the log in the file stands to the head that the running store links behind. */
  ghost predicate HeadStands(h: Hasher, audit: seq<AuditEntry>, honoured: seq<bool>, head: string) {
    && |audit| == |honoured|
    && (forall i :: 0 <= i < |audit| ==> audit[i].hash == AuditHash(h, audit[i].prevHash, audit[i]))
    && head == (if audit == [] then GENESIS
                else if honoured[|audit| - 1] then audit[|audit| - 1].hash else audit[|audit| - 1].prevHash)
    && (ChainLinked(h, audit) <==> RefusedLast(audit, honoured))
  }

  lemma OneMoreStands(h: Hasher, audit: seq<AuditEntry>, honoured: seq<bool>, head: string, e: AuditEntry, done: bool)
    requires HeadStands(h, audit, honoured, head)
    requires e.prevHash == head && e.hash == AuditHash(h, e.prevHash, e)
    ensures HeadStands(h, audit + [e], honoured + [done], if done then e.hash else head)
  {
    hide AuditHash, ChainLinked, RefusedLast;
    var audit', honoured' := audit + [e], honoured + [done];
    LinkedMore(h, audit, e);
    RefusedMore(audit, honoured, e, done);
  }

  lemma HeadSizes(h: Hasher, audit: seq<AuditEntry>, honoured: seq<bool>, head: string)
    requires HeadStands(h, audit, honoured, head)
    ensures |audit| == |honoured|
  {
  }

  lemma LinkedMore(h: Hasher, audit: seq<AuditEntry>, e: AuditEntry)
    requires e.hash == AuditHash(h, e.prevHash, e)
    ensures ChainLinked(h, audit + [e]) <==> ChainLinked(h, audit) && e.prevHash == HeadOf(audit)
  {
    hide AuditHash, HeadOf;
    var more := audit + [e];
    assert more[..|audit|] == audit;
    if ChainLinked(h, more) {
      forall i | 0 <= i < |audit|
        ensures audit[i].prevHash == HeadOf(audit[..i]) && audit[i].hash == AuditHash(h, audit[i].prevHash, audit[i])
      {
        assert more[i] == audit[i] && more[..i] == audit[..i];
      }
      assert more[|audit|] == e;
    } else {
      var i :| 0 <= i < |more| && !(more[i].prevHash == HeadOf(more[..i])
                                    && more[i].hash == AuditHash(h, more[i].prevHash, more[i]));
      if i < |audit| {
        assert more[i] == audit[i] && more[..i] == audit[..i];
      }
    }
  }

  lemma RefusedMore(audit: seq<AuditEntry>, honoured: seq<bool>, e: AuditEntry, done: bool)
    requires |audit| == |honoured|
    ensures RefusedLast(audit + [e], honoured + [done])
       <==> RefusedLast(audit, honoured)
            && (audit != [] && !honoured[|audit| - 1] ==> audit[|audit| - 1].hash == audit[|audit| - 1].prevHash)
  {
    var more := audit + [e];
    assert forall i :: 0 <= i < |audit| ==> more[i] == audit[i] && (honoured + [done])[i] == honoured[i];
    if RefusedLast(more, honoured + [done]) {
      assert audit != [] ==> more[|audit| - 1] == audit[|audit| - 1];
    }
  }

  /**
    * What writes that were refused and yet are whole in the file do to the audit chain: over any run
    * the log in the file is linked exactly when none of their entries has another behind it, collisions
    * aside. The running store's own log is always linked (ReachableChain).
    */
  lemma ChainOnDisk(c: J.Codec, cf: Settings, ins: seq<Input>)
    ensures |Honoured(c, cf, ins)| == |AuditOnDisk(c, cf, ins)|
    ensures ChainLinked(cf.hasher, AuditOnDisk(c, cf, ins))
       <==> RefusedLast(AuditOnDisk(c, cf, ins), Honoured(c, cf, ins))
  {
    hide ChainLinked, RefusedLast, AuditOnDisk, Honoured, AuditHash, Exec;
    HeadStandsOnDisk(c, cf, ins);
  }

  lemma {:induction false} HeadStandsOnDisk(c: J.Codec, cf: Settings, ins: seq<Input>)
    ensures HeadStands(cf.hasher, AuditOnDisk(c, cf, ins), Honoured(c, cf, ins), Exec(cf, EMPTY_INDEX, ins).auditHead)
  {
    hide ChainLinked, RefusedLast, OnDisk, Lands, Effect, NextGroup, Writes, EntriesOf, AuditOnDisk, AuditHash,
         HeadStands, Exec;
    if ins == [] {
      NothingOnDisk(c, cf);
    } else {
      var init, last := ins[..|ins| - 1], ins[|ins| - 1];
      HeadStandsOnDisk(c, cf, init);
      HeadSizes(cf.hasher, AuditOnDisk(c, cf, init), Honoured(c, cf, init), Exec(cf, EMPTY_INDEX, init).auditHead);
      assert ins == init + [last];
      var ix := Exec(cf, EMPTY_INDEX, init);
      EntryOnDisk(c, cf, init, last);
      OneEntry(cf, ix, last.now, last.op);
      var es := EntriesOf(Writes(cf, ix, last.now, last.op));
      assert AuditOnDisk(c, cf, init) + [] == AuditOnDisk(c, cf, init);
      assert Honoured(c, cf, init) + [] == Honoured(c, cf, init);
      if Lands(c, cf, init, last) && es != [] {
        OneMoreStands(cf.hasher, AuditOnDisk(c, cf, init), Honoured(c, cf, init), ix.auditHead, es[0],
                      last.disk.Accepts?);
        assert es == [es[0]];
      }
    }
  }

  /** One more call: what it adds to the log in the file, and the running store's head. */
  lemma EntryOnDisk(c: J.Codec, cf: Settings, init: seq<Input>, last: Input)
    ensures var ix := Exec(cf, EMPTY_INDEX, init);
            var es := EntriesOf(Writes(cf, ix, last.now, last.op));
            && NextGroup(cf, init, last).changes == Writes(cf, ix, last.now, last.op)
            && AuditOnDisk(c, cf, init + [last])
               == (if Lands(c, cf, init, last) then AuditOnDisk(c, cf, init) + es else AuditOnDisk(c, cf, init))
            && Exec(cf, EMPTY_INDEX, init + [last]).auditHead
               == (if last.disk.Accepts? && es != [] then es[|es| - 1].hash else ix.auditHead)
            && (last.disk.Accepts? && es != [] ==> Lands(c, cf, init, last))
  {
    hide Exec, Writes, OnDisk, EntriesOf, ApplyAll, T.Whole;
    var ix := Exec(cf, EMPTY_INDEX, init);
    OneMoreExec(cf, EMPTY_INDEX, init, last);
    EffectIs(cf, ix, last);
    AuditIs(ix, Taken(cf, ix, last));
    NoEntriesIn([]);
    OneMoreOnDisk(c, cf, init, last);
    EntriesConcat(OnDisk(c, cf, init), NextGroup(cf, init, last).changes);
    assert OnDisk(c, cf, init) + [] == OnDisk(c, cf, init);
    if last.disk.Accepts? {
      T.AcceptedWhole(c, T.Try(NextGroup(cf, init, last), last.disk));
    }
  }

  lemma NothingOnDisk(c: J.Codec, cf: Settings)
    ensures AuditOnDisk(c, cf, []) == [] && Honoured(c, cf, []) == [] && HeadStands(cf.hasher, [], [], GENESIS)
    ensures Exec(cf, EMPTY_INDEX, []).auditHead == GENESIS && OnDisk(c, cf, []) == []
  {
  }

  // ------------------------------------------------------- their rows

  /** Of each of a deployment's rows in the file, whether the write was reported as done. */
  function RowsHonoured(c: J.Codec, cf: Settings, ins: seq<Input>, id: string): seq<bool> {
    if ins == [] then []
    else
      var init, last := ins[..|ins| - 1], ins[|ins| - 1];
      RowsHonoured(c, cf, init, id)
      + if Lands(c, cf, init, last) && RowStates(NextGroup(cf, init, last).changes, id) != [] then [last.disk.Accepts?]
        else []
  }

  /** From every row whose write was refused, the next one is a legal step. */
  predicate StepsOn(ss: seq<State>, honoured: seq<bool>)
    requires |ss| == |honoured|
  {
    forall i :: 0 <= i < |ss| - 1 && !honoured[i] ==> Step(ss[i], ss[i + 1])
  }

  /** How the rows in the file stand to the running store's row. */
  predicate RowsStand(ss: seq<State>, honoured: seq<bool>, ix: Index, id: string) {
    && |ss| == |honoured|
    && (ss == [] ==> id !in ix.deployments)
    && (ss != [] && honoured[|ss| - 1] ==> id in ix.deployments && ix.deployments[id].state == ss[|ss| - 1])
    && (Walk(ss) <==> StepsOn(ss, honoured))
  }

  lemma OneMoreRow(ss: seq<State>, honoured: seq<bool>, ix: Index, ix': Index, id: string, s: State, done: bool)
    requires RowsStand(ss, honoured, ix, id)
    requires id in ix.deployments ==> Step(ix.deployments[id].state, s)
    requires done ==> id in ix'.deployments && ix'.deployments[id].state == s
    ensures RowsStand(ss + [s], honoured + [done], ix', id)
  {
    hide Step;
    WalkMore(ss, s);
    StepsMore(ss, honoured, s, done);
  }

  lemma WalkMore(ss: seq<State>, s: State)
    ensures Walk(ss + [s]) <==> Walk(ss) && (ss != [] ==> Step(ss[|ss| - 1], s))
  {
    hide Step;
    var more := ss + [s];
    assert forall i :: 0 <= i < |ss| ==> more[i] == ss[i];
    if Walk(more) && ss != [] {
      assert Step(more[|ss| - 1], more[|ss|]);
    }
    if Walk(more) {
      forall i | 0 < i < |ss| ensures Step(ss[i - 1], ss[i]) {
        assert Step(more[i - 1], more[i]);
      }
    }
  }

  lemma StepsMore(ss: seq<State>, honoured: seq<bool>, s: State, done: bool)
    requires |ss| == |honoured|
    ensures StepsOn(ss + [s], honoured + [done])
       <==> StepsOn(ss, honoured) && (ss != [] && !honoured[|ss| - 1] ==> Step(ss[|ss| - 1], s))
  {
    hide Step;
    var more, more' := ss + [s], honoured + [done];
    assert forall i :: 0 <= i < |ss| ==> more[i] == ss[i] && more'[i] == honoured[i];
    if StepsOn(more, more') {
      forall i | 0 <= i < |ss| - 1 && !honoured[i] ensures Step(ss[i], ss[i + 1]) {
        assert Step(more[i], more[i + 1]);
      }
      if ss != [] && !honoured[|ss| - 1] {
        assert Step(more[|ss| - 1], more[|ss| - 1 + 1]);
      }
    }
  }

  /**
    * What such writes do to the rows: over any run a deployment's rows in the file walk the transition
    * table exactly when every refused one is followed by a legal step from it, which the running store,
    * whose row is another, does not see to. The rows reported as written always walk (LegalWalk).
    */
  lemma WalkOnDisk(c: J.Codec, cf: Settings, ins: seq<Input>, id: string)
    ensures |RowsHonoured(c, cf, ins, id)| == |RowStates(OnDisk(c, cf, ins), id)|
    ensures Walk(RowStates(OnDisk(c, cf, ins), id))
       <==> StepsOn(RowStates(OnDisk(c, cf, ins), id), RowsHonoured(c, cf, ins, id))
  {
    hide Walk, StepsOn, OnDisk, RowStates, RowsHonoured, Exec;
    RowsStandOnDisk(c, cf, ins, id);
  }

  lemma {:induction false} RowsStandOnDisk(c: J.Codec, cf: Settings, ins: seq<Input>, id: string)
    ensures RowsStand(RowStates(OnDisk(c, cf, ins), id), RowsHonoured(c, cf, ins, id), Exec(cf, EMPTY_INDEX, ins), id)
  {
    hide Walk, StepsOn, OnDisk, Lands, NextGroup, Writes, RowStates, Step, Exec, RowsHonoured;
    if ins == [] {
      NoRowsOnDisk(c, cf, id);
    } else {
      var init, last := ins[..|ins| - 1], ins[|ins| - 1];
      RowsStandOnDisk(c, cf, init, id);
      assert ins == init + [last];
      var ix := Exec(cf, EMPTY_INDEX, init);
      RowOnDisk(c, cf, init, last, id);
      HonouredMore(c, cf, init, last, id);
      var ss, added := RowStates(OnDisk(c, cf, init), id), RowStates(Writes(cf, ix, last.now, last.op), id);
      assert ss + [] == ss && RowsHonoured(c, cf, init, id) + [] == RowsHonoured(c, cf, init, id);
      if Lands(c, cf, init, last) && added != [] {
        OneMoreRow(ss, RowsHonoured(c, cf, init, id), ix, Exec(cf, EMPTY_INDEX, ins), id, added[0], last.disk.Accepts?);
        assert added == [added[0]];
      }
    }
  }

  lemma HonouredMore(c: J.Codec, cf: Settings, init: seq<Input>, last: Input, id: string)
    ensures RowsHonoured(c, cf, init + [last], id)
         == RowsHonoured(c, cf, init, id)
            + if Lands(c, cf, init, last) && RowStates(NextGroup(cf, init, last).changes, id) != [] then
                [last.disk.Accepts?]
              else []
  {
    hide Lands, NextGroup, RowStates;
    assert (init + [last])[..|init|] == init;
  }

  /** One more call: what it adds to the rows in the file, and the running store's row. */
  lemma RowOnDisk(c: J.Codec, cf: Settings, init: seq<Input>, last: Input, id: string)
    ensures var ix, ix' := Exec(cf, EMPTY_INDEX, init), Exec(cf, EMPTY_INDEX, init + [last]);
            var added := RowStates(Writes(cf, ix, last.now, last.op), id);
            && NextGroup(cf, init, last).changes == Writes(cf, ix, last.now, last.op)
            && RowStates(OnDisk(c, cf, init + [last]), id)
               == RowStates(OnDisk(c, cf, init), id) + (if Lands(c, cf, init, last) then added else [])
            && |added| <= 1
            && (added != [] ==> id in ix.deployments ==> Step(ix.deployments[id].state, added[0]))
            && (if last.disk.Accepts? && added != [] then
                  Lands(c, cf, init, last) && id in ix'.deployments && ix'.deployments[id].state == added[0]
                else
                  && (id in ix'.deployments <==> id in ix.deployments)
                  && (id in ix.deployments ==> ix'.deployments[id] == ix.deployments[id]))
  {
    hide Exec, Writes, OnDisk, RowStates, ApplyAll, T.Whole, Step;
    var ix := Exec(cf, EMPTY_INDEX, init);
    EmptyIsNamed();
    ReachableNamed(cf, EMPTY_INDEX, init);
    RowStep(cf, ix, last.now, last.op, id);
    OneMoreExec(cf, EMPTY_INDEX, init, last);
    OneMoreOnDisk(c, cf, init, last);
    RowStatesConcat(OnDisk(c, cf, init), NextGroup(cf, init, last).changes, id);
    assert RowStates(OnDisk(c, cf, init), id) + [] == RowStates(OnDisk(c, cf, init), id);
    assert OnDisk(c, cf, init) + [] == OnDisk(c, cf, init);
    NoRows(id);
    if last.disk.Accepts? {
      T.AcceptedWhole(c, T.Try(NextGroup(cf, init, last), last.disk));
    }
  }

  lemma EmptyIsNamed()
    ensures Named(EMPTY_INDEX)
  {
  }

  lemma NoRowsOnDisk(c: J.Codec, cf: Settings, id: string)
    ensures OnDisk(c, cf, []) == [] && RowStates([], id) == [] && RowsHonoured(c, cf, [], id) == []
    ensures Exec(cf, EMPTY_INDEX, []) == EMPTY_INDEX && RowsStand([], [], EMPTY_INDEX, id)
  {
  }

  /** A refused move that is whole in the file and then followed by a rewrite of the old row breaks the walk. */
  lemma RewriteBreaksWalk(s: State, to: State)
    requires CanTransition(s, to)
    ensures !Step(to, s)
  {
    RankDrops(s, to);
    if CanTransition(to, s) {
      RankDrops(to, s);
    }
  }
}
