/** The transactional outbox over whole runs: one entry per notifier for each state a deployment enters. */
module Notices {
  import opened Prelude
  import opened Lifecycle
  import opened Records
  import opened AuditChain
  import opened Decisions
  import opened Coherence
  import opened Runs
  import opened Walks

  /** What of an outbox entry no later operation changes. */
  function Core(e: OutboxEntry): OutboxEntry {
    e.(attempts := 0, nextAttempt := 0, deliveredAt := None, lastError := "")
  }

  function Cores(es: seq<OutboxEntry>): (cs: seq<OutboxEntry>)
    ensures |cs| == |es|
  {
    seq(|es|, i requires 0 <= i < |es| => Core(es[i]))
  }

  /** The entries that some records enqueue. */
  function Enqueued(cs: seq<Change>): seq<OutboxEntry> {
    if cs == [] then []
    else Enqueued(cs[..|cs| - 1]) + (if cs[|cs| - 1].OutboxRow? then [Core(cs[|cs| - 1].note)] else [])
  }

  /** No record drops, reorders or rewrites an entry; records only add entries at the end. */
  lemma {:induction false} OutboxOnlyGrows(ix: Index, cs: seq<Change>)
    ensures Cores(ApplyAll(ix, cs).outbox) == Cores(ix.outbox) + Enqueued(cs)
  {
    if cs != [] {
      var ix1, c := ApplyAll(ix, cs[..|cs| - 1]), cs[|cs| - 1];
      OutboxOnlyGrows(ix, cs[..|cs| - 1]);
      OutboxRecord(ix1, c);
    }
  }

  lemma OutboxRecord(ix: Index, c: Change)
    ensures Cores(ApplyRecord(ix, c).outbox)
         == Cores(ix.outbox) + (if c.OutboxRow? then [Core(c.note)] else [])
  {
    if c.OutboxStateRow? {
      assert Cores(ApplyRecord(ix, c).outbox) == Cores(ix.outbox);
    } else if c.OutboxRow? {
      assert Cores(ix.outbox + [c.note]) == Cores(ix.outbox) + [Core(c.note)];
    } else {
      assert Cores(ix.outbox) + [] == Cores(ix.outbox);
    }
  }

  lemma {:induction false} EnqueuedConcat(a: seq<Change>, b: seq<Change>)
    ensures Enqueued(a + b) == Enqueued(a) + Enqueued(b)
  {
    if b == [] {
      assert a + b == a;
    } else {
      assert (a + b)[..|a + b| - 1] == a + b[..|b| - 1];
      EnqueuedConcat(a, b[..|b| - 1]);
    }
  }

  lemma {:induction false} EnqueuedNone(cs: seq<Change>)
    requires forall i :: 0 <= i < |cs| ==> !cs[i].OutboxRow?
    ensures Enqueued(cs) == []
  {
    if cs != [] {
      EnqueuedNone(cs[..|cs| - 1]);
      assert !cs[|cs| - 1].OutboxRow?;
    }
  }

  lemma {:induction false} EnqueuedNotes(notes: seq<OutboxEntry>, top: int, now: Time)
    ensures Enqueued(NoteRows(notes, top, now)) == Cores(NotesOf(notes, top, now))
  {
    var rows := NoteRows(notes, top, now);
    if notes != [] {
      var init := notes[..|notes| - 1];
      assert rows[..|rows| - 1] == NoteRows(init, top, now);
      EnqueuedNotes(init, top, now);
      assert Cores(NotesOf(notes, top, now))
          == Cores(NotesOf(init, top, now)) + [Core(Stamped(notes[|init|], top + 1 + |init|, now))];
    }
  }

  // ------------------------------------------------------------- counting

  /** How many entries carry a dedupe key. */
  function KeyCount(es: seq<OutboxEntry>, key: DedupeKey): nat {
    if es == [] then 0
    else KeyCount(es[..|es| - 1], key) + (if es[|es| - 1].dedupeKey == key then 1 else 0)
  }

  lemma {:induction false} KeyCountConcat(a: seq<OutboxEntry>, b: seq<OutboxEntry>, key: DedupeKey)
    ensures KeyCount(a + b, key) == KeyCount(a, key) + KeyCount(b, key)
  {
    if b == [] {
      assert a + b == a;
    } else {
      assert (a + b)[..|a + b| - 1] == a + b[..|b| - 1];
      KeyCountConcat(a, b[..|b| - 1], key);
    }
  }

  lemma {:induction false} KeyCountSame(a: seq<OutboxEntry>, b: seq<OutboxEntry>, key: DedupeKey)
    requires |a| == |b| && forall i :: 0 <= i < |a| ==> a[i].dedupeKey == b[i].dedupeKey
    ensures KeyCount(a, key) == KeyCount(b, key)
  {
    if a != [] {
      KeyCountSame(a[..|a| - 1], b[..|b| - 1], key);
    }
  }

  /** One note for each notifier, keyed by deployment, state entered and notifier. */
  predicate OneEach(notes: seq<OutboxEntry>, id: string, to: State, notifiers: seq<string>) {
    |notes| == |notifiers|
    && forall i :: 0 <= i < |notes| ==> notes[i].dedupeKey == NoteKey(id, to, notifiers[i])
  }

  predicate Distinct(ns: seq<string>) {
    forall i, j :: 0 <= i < j < |ns| ==> ns[i] != ns[j]
  }

  lemma {:induction false} KeyCountOneEach(notes: seq<OutboxEntry>, id: string, to: State, notifiers: seq<string>,
                                           id': string, to': State, n: string)
    requires OneEach(notes, id, to, notifiers) && Distinct(notifiers)
    ensures KeyCount(notes, NoteKey(id', to', n)) == (if id' == id && to' == to && n in notifiers then 1 else 0)
  {
    if notes != [] {
      var last := |notes| - 1;
      KeyCountOneEach(notes[..last], id, to, notifiers[..last], id', to', n);
      LastDistinct(notifiers, n);
    }
  }

  lemma LastDistinct(ns: seq<string>, n: string)
    requires Distinct(ns) && ns != []
    ensures n in ns <==> n in ns[..|ns| - 1] || n == ns[|ns| - 1]
    ensures n in ns[..|ns| - 1] ==> n != ns[|ns| - 1]
  {
    var init := ns[..|ns| - 1];
    assert ns == init + [ns[|ns| - 1]];
    if n in init {
      var i :| 0 <= i < |init| && init[i] == n;
      assert ns[i] == n;
    }
  }

  /** The audit detail of a transition: which deployment, and the state it enters. */
  predicate Says(detail: map<string, string>, id: string, to: State) {
    && "deployment" in detail && detail["deployment"] == id
    && "to" in detail && detail["to"] == StateName(to)
  }

  /** How many audit rows of some records tell that the deployment enters the state. */
  function SayCount(cs: seq<Change>, id: string, to: State): nat {
    if cs == [] then 0
    else
      var c := cs[|cs| - 1];
      SayCount(cs[..|cs| - 1], id, to) + if c.AuditRow? && Says(c.entry.detail, id, to) then 1 else 0
  }

  /** How many entries of an audit log tell it. */
  function Told(audit: seq<AuditEntry>, id: string, to: State): nat {
    if audit == [] then 0
    else Told(audit[..|audit| - 1], id, to) + if Says(audit[|audit| - 1].detail, id, to) then 1 else 0
  }

  lemma {:induction false} ToldGrows(ix: Index, cs: seq<Change>, id: string, to: State)
    ensures Told(ApplyAll(ix, cs).audit, id, to) == Told(ix.audit, id, to) + SayCount(cs, id, to)
  {
    if cs != [] {
      var ix1, c := ApplyAll(ix, cs[..|cs| - 1]), cs[|cs| - 1];
      ToldGrows(ix, cs[..|cs| - 1], id, to);
      if c.AuditRow? {
        assert (ix1.audit + [c.entry])[..|ix1.audit|] == ix1.audit;
      }
    }
  }

  lemma {:induction false} SayNothing(cs: seq<Change>, id: string, to: State)
    requires forall i :: 0 <= i < |cs| && cs[i].AuditRow? ==> !Says(cs[i].entry.detail, id, to)
    ensures SayCount(cs, id, to) == 0
  {
    if cs != [] {
      SayNothing(cs[..|cs| - 1], id, to);
    }
  }

  lemma {:induction false} SayFirst(a: Change, b: Change, rest: seq<Change>, id: string, to: State)
    requires !a.AuditRow? && b.AuditRow? && forall i :: 0 <= i < |rest| ==> !rest[i].AuditRow?
    ensures SayCount([a, b] + rest, id, to) == if Says(b.entry.detail, id, to) then 1 else 0
  {
    var cs := [a, b] + rest;
    if rest == [] {
      assert cs == [a, b] && cs[..1] == [a] && [a][..0] == [];
      assert SayCount([a], id, to) == 0;
    } else {
      assert cs[..|cs| - 1] == [a, b] + rest[..|rest| - 1];
      SayFirst(a, b, rest[..|rest| - 1], id, to);
    }
  }

  // ------------------------------------------------------------- runs

  /** How the engine's callers use the store: every transition notifies, nothing else is keyed as if it did. */
  predicate Announces(op: Op, notifiers: seq<string>) {
    match op
    case Transition(id, _, _, to, entry, notes) =>
      entry.Some? && Says(entry.value.detail, id, to) && OneEach(notes, id, to, notifiers)
    case AppendAudit(d) => "to" !in d.detail
    case Enqueue(e) => e.dedupeKey.NoKey?
    case _ => true
  }

  /** Whether a call moves the deployment into the state. */
  predicate Enters(cf: Settings, ix: Index, i: Input, id: string, to: State) {
    i.op.Transition? && i.op.id == id && i.op.to == to && Decide(cf, ix, i.now, i.op).Write? && i.disk.Accepts?
  }

  /** The same for one call. */
  lemma EffectNotes(cf: Settings, ix: Index, i: Input, notifiers: seq<string>, id: string, to: State, n: string)
    requires Announces(i.op, notifiers) && Distinct(notifiers) && n in notifiers
    ensures KeyCount(Cores(Effect(cf, ix, i).outbox), NoteKey(id, to, n))
         == KeyCount(Cores(ix.outbox), NoteKey(id, to, n)) + (if Enters(cf, ix, i, id, to) then 1 else 0)
  {
    hide KeyCount, Cores, Next, Writes, Announces, Decide;
    if i.disk.Accepts? {
      NotesStep(cf, ix, i, notifiers, id, to, n);
    }
  }

  lemma EffectSays(cf: Settings, ix: Index, i: Input, notifiers: seq<string>, id: string, to: State)
    requires Announces(i.op, notifiers)
    ensures Told(Effect(cf, ix, i).audit, id, to)
         == Told(ix.audit, id, to) + (if Enters(cf, ix, i, id, to) then 1 else 0)
  {
    hide Told, Next, Writes, Announces, Decide;
    if i.disk.Accepts? {
      SayStep(cf, ix, i, notifiers, id, to);
    }
  }

  lemma EffectEntry(cf: Settings, ix: Index, i: Input, ss: seq<State>, id: string, to: State)
    requires Named(ix)
    requires id in ix.deployments <==> ss != []
    requires ss != [] ==> ix.deployments[id].state == ss[|ss| - 1]
    ensures Entries(ss + RowStates(Taken(cf, ix, i), id), to)
         == Entries(ss, to) + (if Enters(cf, ix, i, id, to) then 1 else 0)
  {
    hide Named, Entries, Writes, Decide, RowStates;
    if i.disk.Accepts? {
      EntryStep(cf, ix, i, ss, id, to);
    } else {
      NoRows(id);
      assert ss + [] == ss;
    }
  }

  lemma NotesStep(cf: Settings, ix: Index, i: Input, notifiers: seq<string>, id: string, to: State, n: string)
    requires Announces(i.op, notifiers) && Distinct(notifiers) && n in notifiers && i.disk.Accepts?
    ensures KeyCount(Cores(Next(cf, ix, i.now, i.op).outbox), NoteKey(id, to, n))
         == KeyCount(Cores(ix.outbox), NoteKey(id, to, n)) + (if Enters(cf, ix, i, id, to) then 1 else 0)
  {
    hide ApplyAll, Enqueued, Cores, Refusal, Moved, NextEntry, KeyCount, NoteRows, NotesOf, OneEach, CreatedDraft,
         BrokenDraft, Marked;
    var group := Writes(cf, ix, i.now, i.op);
    var key := NoteKey(id, to, n);
    OutboxOnlyGrows(ix, group);
    KeyCountConcat(Cores(ix.outbox), Enqueued(group), key);
    if i.op.Transition? && group != [] {
      RefusesUnknown(ix, i.now, i.op.id, i.op.fence, i.op.from, i.op.to);
      TransitionNotes(cf, ix, i.now, ix.deployments[i.op.id], i.op.to, i.op.entry, i.op.notes, key);
      KeyCountOneEach(i.op.notes, i.op.id, i.op.to, notifiers, id, to, n);
    } else if i.op.Enqueue? {
      PlainNote(i.op.note, ix.outboxSeq, i.now, key);
    } else {
      EnqueuedNone(group);
      NoKeys(key);
    }
  }

  lemma NoKeys(key: DedupeKey)
    ensures KeyCount([], key) == 0
  {
  }

  lemma PlainNote(e: OutboxEntry, top: int, now: Time, key: DedupeKey)
    requires e.dedupeKey.NoKey? && key.NoteKey?
    ensures KeyCount(Enqueued(NoteRows([e], top, now)), key) == 0
  {
    EnqueuedNotes([e], top, now);
    KeyCountSame(Cores(NotesOf([e], top, now)), [e], key);
    assert [e][..0] == [];
  }

  lemma TransitionNotes(cf: Settings, ix: Index, now: Time, d: Deployment, to: State,
                        entry: Option<Draft>, notes: seq<OutboxEntry>, key: DedupeKey)
    ensures KeyCount(Enqueued(TransitionRows(cf, ix, now, d, to, entry, notes)), key) == KeyCount(notes, key)
  {
    hide NextEntry, Moved, KeyCount, Enqueued, Completed, NoteRows;
    var head := [DeploymentRow(Moved(d, to, now))] + AuditPart(cf, ix, now, d, to, entry);
    var tail := NoteRows(notes, ix.outboxSeq, now);
    assert TransitionRows(cf, ix, now, d, to, entry, notes) == head + tail;
    EnqueuedConcat(head, tail);
    EnqueuedNone(head);
    assert [] + Enqueued(tail) == Enqueued(tail);
    EnqueuedNotes(notes, ix.outboxSeq, now);
    KeyCountSame(Cores(NotesOf(notes, ix.outboxSeq, now)), notes, key);
  }

  lemma EntriesAppend(ss: seq<State>, x: State, s: State)
    ensures Entries(ss + [x], s) == Entries(ss, s) + (if ss != [] && ss[|ss| - 1] != s && x == s then 1 else 0)
  {
    assert (ss + [x])[..|ss|] == ss;
  }

  /** A run's operations all announce. */
  predicate AllAnnounce(ins: seq<Input>, notifiers: seq<string>) {
    forall k :: 0 <= k < |ins| ==> Announces(ins[k].op, notifiers)
  }

  /** A transition writes one audit row that tells of it, and nothing else writes one. */
  lemma SayStep(cf: Settings, ix: Index, i: Input, notifiers: seq<string>, id: string, to: State)
    requires Announces(i.op, notifiers) && i.disk.Accepts?
    ensures Told(Next(cf, ix, i.now, i.op).audit, id, to)
         == Told(ix.audit, id, to) + (if Enters(cf, ix, i, id, to) then 1 else 0)
  {
    hide ApplyAll, Refusal, Moved, AuditHash, SayCount, Told, OneEach, BrokenDraft, CreatedDraft, Marked, StateName;
    var group := Writes(cf, ix, i.now, i.op);
    ToldGrows(ix, group, id, to);
    if i.op.Transition? && group != [] {
      SameName(i.op.to, to);
      assert group == [group[0], group[1]] + group[2..];
      SayFirst(group[0], group[1], group[2..], id, to);
    } else {
      NothingSaid(cf, ix, i, notifiers, id, to);
      SayNothing(group, id, to);
    }
  }

  lemma NothingSaid(cf: Settings, ix: Index, i: Input, notifiers: seq<string>, id: string, to: State)
    requires Announces(i.op, notifiers)
    requires i.op.Transition? ==> Writes(cf, ix, i.now, i.op) == []
    ensures var cs := Writes(cf, ix, i.now, i.op);
            forall k :: 0 <= k < |cs| && cs[k].AuditRow? ==> !Says(cs[k].entry.detail, id, to)
  {
    hide Refusal, Moved, AuditHash, OneEach, Marked, StateName;
  }

  lemma SameName(a: State, b: State)
    ensures StateName(a) == StateName(b) <==> a == b
  {
    if StateName(a) == StateName(b) {
      NamesDiffer(a, b);
    }
  }

  /** The move into a state is what adds an entry to the deployment's walk. */
  lemma EntryStep(cf: Settings, ix: Index, i: Input, ss: seq<State>, id: string, to: State)
    requires Named(ix) && i.disk.Accepts?
    requires id in ix.deployments <==> ss != []
    requires ss != [] ==> ix.deployments[id].state == ss[|ss| - 1]
    ensures Entries(ss + RowStates(Writes(cf, ix, i.now, i.op), id), to)
         == Entries(ss, to) + (if Enters(cf, ix, i, id, to) then 1 else 0)
  {
    hide ApplyAll, ApplyRecord, RowStates, NextEntry, FenceOk, Guarded, CreatedDraft, BrokenDraft, Marked,
         IsTerminal, Entries, CanTransition;
    if Decide(cf, ix, i.now, i.op).Write? && (i.op.Create? || i.op.Update? || i.op.Transition?) {
      RowEntry(cf, ix, i, ss, id, to);
    } else {
      RowFrame(ix, Writes(cf, ix, i.now, i.op), id);
      assert ss + [] == ss;
    }
  }

  lemma RowEntry(cf: Settings, ix: Index, i: Input, ss: seq<State>, id: string, to: State)
    requires Named(ix)
    requires id in ix.deployments <==> ss != []
    requires ss != [] ==> ix.deployments[id].state == ss[|ss| - 1]
    requires Decide(cf, ix, i.now, i.op).Write? && (i.op.Create? || i.op.Update? || i.op.Transition?)
    requires i.disk.Accepts?
    ensures Entries(ss + RowStates(Writes(cf, ix, i.now, i.op), id), to)
         == Entries(ss, to) + (if Enters(cf, ix, i, id, to) then 1 else 0)
  {
    hide ApplyAll, ApplyRecord, RowStates, NextEntry, FenceOk, Guarded, CreatedDraft, IsTerminal, Entries,
         CanTransition;
    var group := Decide(cf, ix, i.now, i.op).group;
    var row := group[0].deployment;
    assert group == [DeploymentRow(row)] + group[1..];
    RowGroup(ix, row, group[1..]);
    EntriesAppend(ss, row.state, to);
    assert ss + [] == ss;
    if i.op.Transition? {
      MovesAway(i.op.from, i.op.to);
    }
  }

  lemma MovesAway(from: State, to: State)
    requires CanTransition(from, to)
    ensures from != to
  {
  }

  /**
    * Outbox conservation. Over any run of announcing operations, and so at every point a clean crash can
    * recover to: for each deployment, state and notifier the outbox holds exactly one entry if the
    * deployment has entered the state, and none if it has not.
    */
  lemma {:induction false} OneNotePerEntry(cf: Settings, ins: seq<Input>, notifiers: seq<string>,
                                           id: string, to: State, n: string)
    requires AllAnnounce(ins, notifiers)
    requires Distinct(notifiers) && n in notifiers
    ensures KeyCount(Cores(Exec(cf, EMPTY_INDEX, ins).outbox), NoteKey(id, to, n))
         == Entries(RowStates(Written(cf, EMPTY_INDEX, ins), id), to) <= 1
  {
    hide Effect, Taken, Entries, Enters, KeyCount, Announces, RowStates;
    WalkBounds(cf, ins, id, to);
    if ins == [] {
      NothingYet(id, to, NoteKey(id, to, n));
    } else {
      var init, last := ins[..|ins| - 1], ins[|ins| - 1];
      OneNotePerEntry(cf, init, notifiers, id, to, n);
      LegalWalk(cf, init, id);
      ReachableNamed(cf, EMPTY_INDEX, init);
      var ix := Exec(cf, EMPTY_INDEX, init);
      EffectNotes(cf, ix, last, notifiers, id, to, n);
      RowStatesConcat(Written(cf, EMPTY_INDEX, init), Taken(cf, ix, last), id);
      EffectEntry(cf, ix, last, RowStates(Written(cf, EMPTY_INDEX, init), id), id, to);
    }
  }

  /** Of every state a deployment has entered exactly one audit entry tells, of any other none. */
  lemma {:induction false} OneAuditRowPerEntry(cf: Settings, ins: seq<Input>, notifiers: seq<string>, id: string,
                                               to: State)
    requires AllAnnounce(ins, notifiers)
    ensures Told(Exec(cf, EMPTY_INDEX, ins).audit, id, to)
         == Entries(RowStates(Written(cf, EMPTY_INDEX, ins), id), to) <= 1
  {
    hide Effect, Taken, Entries, Enters, Told, Announces, RowStates;
    WalkBounds(cf, ins, id, to);
    if ins == [] {
      NothingYet(id, to, NoKey);
      assert Told([], id, to) == 0 by { NothingTold(id, to); }
    } else {
      var init, last := ins[..|ins| - 1], ins[|ins| - 1];
      OneAuditRowPerEntry(cf, init, notifiers, id, to);
      LegalWalk(cf, init, id);
      ReachableNamed(cf, EMPTY_INDEX, init);
      var ix := Exec(cf, EMPTY_INDEX, init);
      EffectSays(cf, ix, last, notifiers, id, to);
      RowStatesConcat(Written(cf, EMPTY_INDEX, init), Taken(cf, ix, last), id);
      EffectEntry(cf, ix, last, RowStates(Written(cf, EMPTY_INDEX, init), id), id, to);
    }
  }

  lemma NothingTold(id: string, to: State)
    ensures Told([], id, to) == 0
  {
  }

  lemma NothingYet(id: string, to: State, key: DedupeKey)
    ensures KeyCount(Cores(EMPTY_INDEX.outbox), key) == 0 && Entries(RowStates([], id), to) == 0
  {
  }

  /** No entry is ever dropped, reordered or rewritten; only its delivery fields change. */
  lemma {:induction false} NothingDropped(cf: Settings, ix: Index, ins: seq<Input>)
    ensures Cores(ix.outbox) <= Cores(Exec(cf, ix, ins).outbox)
  {
    hide Cores, ApplyAll, Effect, Taken;
    if ins != [] {
      var init, last := ins[..|ins| - 1], ins[|ins| - 1];
      NothingDropped(cf, ix, init);
      EffectIs(cf, Exec(cf, ix, init), last);
      OutboxOnlyGrows(Exec(cf, ix, init), Taken(cf, Exec(cf, ix, init), last));
    }
  }
}
