/** Delivery of the outbox: engine/outbox.go. */
module OutboxWork {
  import opened Prelude
  import opened Records
  import opened Decisions
  import opened Coherence
  import opened Runs
  import opened Worlds
  import opened Notices
  import J = Journal

  predicate IsDue(e: OutboxEntry, now: Time) {
    !e.Delivered() && e.nextAttempt <= now
  }

  /** The entries to be delivered, oldest first. */
  function AllDue(outbox: seq<OutboxEntry>, now: Time): seq<OutboxEntry> {
    if outbox == [] then []
    else AllDue(outbox[..|outbox| - 1], now) + if IsDue(outbox[|outbox| - 1], now) then [outbox[|outbox| - 1]] else []
  }

  /** At most limit entries that are due, oldest first; no limit when it is zero. */
  method DueOutbox(outbox: seq<OutboxEntry>, now: Time, limit: nat) returns (due: seq<OutboxEntry>)
    ensures due <= AllDue(outbox, now)
    ensures |due| == if limit > 0 && |AllDue(outbox, now)| > limit then limit else |AllDue(outbox, now)|
  {
    due := [];
    for i := 0 to |outbox|
      invariant due == AllDue(outbox[..i], now) && (limit > 0 ==> |due| < limit)
    {
      assert outbox[..i + 1][..i] == outbox[..i];
      if IsDue(outbox[i], now) {
        due := due + [outbox[i]];
        if limit > 0 && |due| >= limit {
          AllDuePrefix(outbox, i + 1, now);
          return;
        }
      }
    }
    assert outbox[..|outbox|] == outbox;
  }

  lemma {:induction false} AllDuePrefix(outbox: seq<OutboxEntry>, n: nat, now: Time)
    requires n <= |outbox|
    ensures AllDue(outbox[..n], now) <= AllDue(outbox, now)
  {
    if n == |outbox| {
      assert outbox[..n] == outbox;
    } else {
      var init := outbox[..|outbox| - 1];
      AllDuePrefix(init, n, now);
      assert init[..n] == outbox[..n];
    }
  }

  predicate OldestFirst(es: seq<OutboxEntry>) {
    forall i, j :: 0 <= i < j < |es| ==> es[i].id < es[j].id
  }

  /** Entries that were numbered upwards are delivered in that order. */
  lemma {:induction false} DueInOrder(outbox: seq<OutboxEntry>, now: Time)
    requires OldestFirst(outbox)
    ensures OldestFirst(AllDue(outbox, now)) && forall e :: e in AllDue(outbox, now) ==> e in outbox
  {
    if outbox != [] {
      var init := outbox[..|outbox| - 1];
      var due, last := AllDue(init, now), outbox[|outbox| - 1];
      DueInOrder(init, now);
      assert outbox == init + [last];
      forall i | 0 <= i < |due| ensures due[i].id < last.id {
        assert due[i] in init;
      }
    }
  }

  /** The due entries are those undelivered whose next attempt has come, each once. */
  lemma {:induction false} DueAreDue(outbox: seq<OutboxEntry>, now: Time)
    requires UniqueIds(outbox)
    ensures forall e :: e in AllDue(outbox, now) <==>
              e in outbox && e.deliveredAt.None? && e.nextAttempt <= now
    ensures UniqueIds(AllDue(outbox, now))
  {
    if outbox != [] {
      var init, last := outbox[..|outbox| - 1], outbox[|outbox| - 1];
      DueAreDue(init, now);
      assert outbox == init + [last];
      forall e | e in AllDue(init, now) ensures e.id != last.id {
        assert e in init;
      }
    }
  }

  predicate UniqueIds(es: seq<OutboxEntry>) {
    forall i, j :: 0 <= i < j < |es| ==> es[i].id != es[j].id
  }

  /** A failed attempt is counted, and the entry is due again within 256 seconds: the five-minute cap never applies. */
  lemma RetriedSoon(e: OutboxEntry, cause: string, now: Time)
    ensures var e' := Marked(e, NotSent(cause), now);
            && e' == e.(attempts := e.attempts + 1, lastError := cause, nextAttempt := e'.nextAttempt)
            && !IsDue(e', now) && now + 2 * SECOND <= e'.nextAttempt <= now + 256 * SECOND
            && (e.attempts < 7 ==> e'.nextAttempt == now + Power2(e.attempts + 1) * SECOND)
            && (!e.Delivered() ==> IsDue(e', now + 256 * SECOND))
  {
    Powers(if e.attempts + 1 < 8 then e.attempts + 1 else 8);
  }

  /** The entry after one failed attempt after the other. */
  function Failing(e: OutboxEntry, times: seq<Time>, cause: string): OutboxEntry {
    if times == [] then e else Marked(Failing(e, times[..|times| - 1], cause), NotSent(cause), times[|times| - 1])
  }

  /** The wait after the n-th failed attempt is 2, 4, 8, ... seconds, and 256 from the eighth on. */
  lemma {:induction false} DelaysDouble(e: OutboxEntry, times: seq<Time>, cause: string)
    requires times != []
    ensures var e', n := Failing(e, times, cause), e.attempts + |times|;
            && e'.attempts == n && e'.deliveredAt == e.deliveredAt
            && e'.nextAttempt == times[|times| - 1] + (if n < 8 then Power2(n) else 256) * SECOND
  {
    var init := times[..|times| - 1];
    if init != [] {
      DelaysDouble(e, init, cause);
    }
    var n := e.attempts + |times|;
    Powers(if n < 8 then n else 8);
    assert Power2(8) == 256 by {
      Eight();
    }
  }

  lemma Eight()
    ensures Power2(8) == 256
  {
    assert Power2(4) == 16;
  }

  lemma {:induction false} Powers(n: nat)
    requires 1 <= n <= 8
    ensures 2 <= Power2(n) <= 256
  {
    assert Power2(1) == 2 && Power2(2) == 4 && Power2(3) == 8 && Power2(4) == 16;
    assert Power2(5) == 32 && Power2(6) == 64 && Power2(7) == 128 && Power2(8) == 256;
  }

  /** Only a delivery mark on an entry's own id makes an entry delivered. */
  lemma OnlyMarksDeliver(cf: Settings, ix: Index, now: Time, op: Op, k: nat)
    requires OutboxCoherent(ix) && k < |ix.outbox| && !ix.outbox[k].Delivered()
    ensures var ix' := Next(cf, ix, now, op);
            k < |ix'.outbox| && (ix'.outbox[k].Delivered() <==> op == MarkNote(ix.outbox[k].id, Sent))
  {
    hide NextEntry, Moved, CreatedDraft, BrokenDraft, Refusal, ApplyAll, Backoff;
    var cs := Writes(cf, ix, now, op);
    if op.MarkNote? {
      var j := FindNote(ix.outbox, op.noteId);
      if j < |ix.outbox| {
        ApplyMark(ix, j, Marked(ix.outbox[j], op.mark, now));
      } else {
        EntriesStay(ix, cs, k);
      }
    } else {
      EntriesStay(ix, cs, k);
    }
  }

  /** The same for one call: a mark that the disk refuses delivers nothing. */
  lemma OnlyMarkCallsDeliver(cf: Settings, ix: Index, i: Input, k: nat)
    requires OutboxCoherent(ix) && k < |ix.outbox| && !ix.outbox[k].Delivered()
    ensures var ix' := Effect(cf, ix, i);
            k < |ix'.outbox|
            && (ix'.outbox[k].Delivered() <==> i.op == MarkNote(ix.outbox[k].id, Sent) && i.disk.Accepts?)
  {
    hide Next, Writes, OutboxCoherent;
    OnlyMarksDeliver(cf, ix, i.now, i.op, k);
  }

  lemma {:induction false} EntriesStay(ix: Index, cs: seq<Change>, k: nat)
    requires k < |ix.outbox| && forall i :: 0 <= i < |cs| ==> !cs[i].OutboxStateRow?
    ensures k < |ApplyAll(ix, cs).outbox| && ApplyAll(ix, cs).outbox[k] == ix.outbox[k]
  {
    if cs != [] {
      EntriesStay(ix, cs[..|cs| - 1], k);
    }
  }

  // ------------------------------------------------------- what happens to one entry

  /** An operation other than a mark on its id leaves an entry as it is. */
  lemma EntryStays(cf: Settings, ix: Index, now: Time, op: Op, k: nat)
    requires OutboxCoherent(ix) && k < |ix.outbox| && (op.MarkNote? ==> op.noteId != ix.outbox[k].id)
    ensures var ix' := Next(cf, ix, now, op); k < |ix'.outbox| && ix'.outbox[k] == ix.outbox[k]
  {
    hide NextEntry, Moved, CreatedDraft, BrokenDraft, Refusal, ApplyAll, Backoff;
    var cs := Writes(cf, ix, now, op);
    if op.MarkNote? && FindNote(ix.outbox, op.noteId) < |ix.outbox| {
      var j := FindNote(ix.outbox, op.noteId);
      ApplyMark(ix, j, Marked(ix.outbox[j], op.mark, now));
    } else {
      EntriesStay(ix, cs, k);
    }
  }

  lemma EntryStaysCall(cf: Settings, ix: Index, i: Input, k: nat)
    requires OutboxCoherent(ix) && k < |ix.outbox| && (i.op.MarkNote? ==> i.op.noteId != ix.outbox[k].id)
    ensures var ix' := Effect(cf, ix, i); k < |ix'.outbox| && ix'.outbox[k] == ix.outbox[k]
  {
    hide Next, Writes, OutboxCoherent;
    EntryStays(cf, ix, i.now, i.op, k);
  }

  /** A mark on a known id is accepted and reaches that entry. */
  lemma MarkAt(cf: Settings, ix: Index, now: Time, k: nat, m: Mark)
    requires OutboxCoherent(ix) && k < |ix.outbox|
    ensures var op := MarkNote(ix.outbox[k].id, m);
            && Decide(cf, ix, now, op).Write?
            && Next(cf, ix, now, op).outbox == ix.outbox[k := Marked(ix.outbox[k], m, now)]
  {
    hide Backoff;
    assert FindNote(ix.outbox, ix.outbox[k].id) == k;
    ApplyMark(ix, k, Marked(ix.outbox[k], m, now));
  }

  /** Entries keep their place and all but their delivery fields. */
  predicate Grown(outbox: seq<OutboxEntry>, outbox': seq<OutboxEntry>) {
    |outbox| <= |outbox'| && forall k :: 0 <= k < |outbox| ==> Core(outbox'[k]) == Core(outbox[k])
  }

  lemma NextGrows(cf: Settings, ix: Index, now: Time, op: Op)
    ensures Grown(ix.outbox, Next(cf, ix, now, op).outbox)
  {
    hide ApplyAll, Writes;
    OutboxOnlyGrows(ix, Writes(cf, ix, now, op));
    CoresGrow(ix.outbox, Next(cf, ix, now, op).outbox, Enqueued(Writes(cf, ix, now, op)));
  }

  lemma EffectGrows(cf: Settings, ix: Index, i: Input)
    ensures Grown(ix.outbox, Effect(cf, ix, i).outbox)
  {
    hide Next, Writes, Core;
    NextGrows(cf, ix, i.now, i.op);
  }

  lemma CoresGrow(a: seq<OutboxEntry>, b: seq<OutboxEntry>, more: seq<OutboxEntry>)
    requires Cores(b) == Cores(a) + more
    ensures Grown(a, b)
  {
    forall k | 0 <= k < |a| ensures Core(b[k]) == Core(a[k]) {
      assert Cores(b)[k] == Cores(a)[k];
    }
  }

  lemma {:induction false} ExecGrows(cf: Settings, ix: Index, ins: seq<Input>)
    ensures Grown(ix.outbox, Exec(cf, ix, ins).outbox)
  {
    hide Effect, Core;
    if ins != [] {
      ExecGrows(cf, ix, ins[..|ins| - 1]);
      EffectGrows(cf, Exec(cf, ix, ins[..|ins| - 1]), ins[|ins| - 1]);
    }
  }

  lemma {:induction false} ExecNumbered(cf: Settings, ix: Index, ins: seq<Input>)
    requires OutboxCoherent(ix)
    ensures OutboxCoherent(Exec(cf, ix, ins))
  {
    hide Effect, OutboxCoherent;
    if ins != [] {
      ExecNumbered(cf, ix, ins[..|ins| - 1]);
      EffectNumbered(cf, Exec(cf, ix, ins[..|ins| - 1]), ins[|ins| - 1]);
    }
  }

  /** None of the calls marks the entry. */
  predicate Unmarked(ins: seq<Input>, note: int) {
    forall i :: 0 <= i < |ins| ==> ins[i].op.MarkNote? ==> ins[i].op.noteId != note
  }

  lemma {:induction false} EntryStaysOver(cf: Settings, ix: Index, ins: seq<Input>, k: nat)
    requires OutboxCoherent(ix) && k < |ix.outbox| && Unmarked(ins, ix.outbox[k].id)
    ensures var ix' := Exec(cf, ix, ins); k < |ix'.outbox| && ix'.outbox[k] == ix.outbox[k]
  {
    hide Effect, OutboxCoherent;
    if ins != [] {
      var init := ins[..|ins| - 1];
      EntryStaysOver(cf, ix, init, k);
      ExecNumbered(cf, ix, init);
      EntryStaysCall(cf, Exec(cf, ix, init), ins[|ins| - 1], k);
    }
  }

  // ------------------------------------------------------- delivery over whole runs

  /** In the life of a store: somebody calls it, or some worker calls the notifier of an entry. */
  datatype Happening = Called(input: Input) | Notified(entry: OutboxEntry, took: bool)

  function Inputs(hs: seq<Happening>): seq<Input> {
    if hs == [] then []
    else Inputs(hs[..|hs| - 1]) + if hs[|hs| - 1].Called? then [hs[|hs| - 1].input] else []
  }

  function After(cf: Settings, hs: seq<Happening>): Index {
    Exec(cf, EMPTY_INDEX, Inputs(hs))
  }

  /** The entry is one of the outbox, delivery fields aside. */
  predicate Known(outbox: seq<OutboxEntry>, e: OutboxEntry) {
    exists k :: 0 <= k < |outbox| && Core(outbox[k]) == Core(e)
  }

  /** Some happening before is a call of the entry's notifier which it took. */
  predicate Accepted(hs: seq<Happening>, e: OutboxEntry) {
    exists j :: 0 <= j < |hs| && hs[j].Notified? && hs[j].took && Core(hs[j].entry) == Core(e)
  }

  /** The grounds on which a pass marks an entry delivered: its notifier took it, or there is none. */
  ghost predicate Grounds(cf: Settings, hs: seq<Happening>, configured: set<string>, note: int) {
    exists e :: Known(After(cf, hs).outbox, e) && e.id == note && (e.notifier in configured ==> Accepted(hs, e))
  }

  /** Every delivery mark has its grounds, and nothing is enqueued as delivered. */
  ghost predicate FromPasses(cf: Settings, hs: seq<Happening>, configured: set<string>) {
    forall i :: 0 <= i < |hs| && hs[i].Called? ==>
      && Undelivered(hs[i].input.op)
      && (hs[i].input.op.MarkNote? && hs[i].input.op.mark.Sent? ==>
            Grounds(cf, hs[..i], configured, hs[i].input.op.noteId))
  }

  predicate Undelivered(op: Op) {
    match op
    case Transition(_, _, _, _, _, notes) => forall i :: 0 <= i < |notes| ==> !notes[i].Delivered()
    case Enqueue(note) => !note.Delivered()
    case _ => true
  }

  lemma CallAddsUndelivered(cf: Settings, ix: Index, i: Input, k: nat)
    requires Undelivered(i.op)
    ensures var ix' := Effect(cf, ix, i); |ix.outbox| <= k < |ix'.outbox| ==> !ix'.outbox[k].Delivered()
  {
    hide Next, Writes, Undelivered;
    AddedUndelivered(cf, ix, i.now, i.op, k);
  }

  /** Whatever one operation adds to the outbox is yet to be delivered. */
  lemma AddedUndelivered(cf: Settings, ix: Index, now: Time, op: Op, k: nat)
    requires Undelivered(op)
    ensures var ix' := Next(cf, ix, now, op); |ix.outbox| <= k < |ix'.outbox| ==> !ix'.outbox[k].Delivered()
  {
    hide NextEntry, Moved, CreatedDraft, BrokenDraft, Refusal, ApplyAll, Backoff, Marked, NoteRows, Stamped,
         Completed;
    var d := Decide(cf, ix, now, op);
    if d.Write? && op.Transition? {
      RefusesUnknown(ix, now, op.id, op.fence, op.from, op.to);
      var row := ix.deployments[op.id];
      ApplyTransition(cf, ix, now, row, op.to, op.entry, op.notes);
      var ix1 := ApplyRecord(ix, DeploymentRow(Moved(row, op.to, now)));
      NoNotes(ix1, AuditPart(cf, ix, now, row, op.to, op.entry));
      StampedUndelivered(op.notes, ix.outboxSeq, now);
    } else if d.Write? && op.Enqueue? {
      ApplyNotes(ix, [op.note], now);
      StampedUndelivered([op.note], ix.outboxSeq, now);
    } else if d.Write? && op.MarkNote? {
      ApplyTwo(ix, d.group[0], d.group[0]);
    } else {
      NoNotes(ix, Writes(cf, ix, now, op));
    }
  }

  lemma StampedUndelivered(notes: seq<OutboxEntry>, top: int, now: Time)
    requires forall i :: 0 <= i < |notes| ==> !notes[i].Delivered()
    ensures forall i :: 0 <= i < |notes| ==> !NotesOf(notes, top, now)[i].Delivered()
  {
  }

  lemma AfterNumbered(cf: Settings, hs: seq<Happening>)
    ensures OutboxCoherent(After(cf, hs))
  {
    hide Exec;
    ExecNumbered(cf, EMPTY_INDEX, Inputs(hs));
  }

  lemma OneMoreHappening(cf: Settings, hs: seq<Happening>)
    requires hs != []
    ensures var init, last := hs[..|hs| - 1], hs[|hs| - 1];
            After(cf, hs) == if last.Notified? then After(cf, init)
                             else Effect(cf, After(cf, init), last.input)
  {
    hide Effect;
    var init, last := hs[..|hs| - 1], hs[|hs| - 1];
    assert Inputs(init) + [] == Inputs(init);
    if last.Called? {
      OneMoreExec(cf, EMPTY_INDEX, Inputs(init), last.input);
    }
  }

  lemma FromPassesBefore(cf: Settings, hs: seq<Happening>, configured: set<string>)
    requires hs != [] && FromPasses(cf, hs, configured)
    ensures FromPasses(cf, hs[..|hs| - 1], configured)
  {
    hide Grounds, Undelivered;
    var init := hs[..|hs| - 1];
    forall i | 0 <= i < |init| && init[i].Called?
      ensures Undelivered(init[i].input.op)
      ensures init[i].input.op.MarkNote? && init[i].input.op.mark.Sent? ==>
                Grounds(cf, init[..i], configured, init[i].input.op.noteId)
    {
      assert init[i] == hs[i] && init[..i] == hs[..i];
    }
  }

  lemma AcceptedStays(hs: seq<Happening>, e: OutboxEntry, e': OutboxEntry)
    requires hs != [] && Core(e') == Core(e) && Accepted(hs[..|hs| - 1], e)
    ensures Accepted(hs, e')
  {
    hide Core;
    var j :| 0 <= j < |hs| - 1 && hs[..|hs| - 1][j].Notified? && hs[..|hs| - 1][j].took
             && Core(hs[..|hs| - 1][j].entry) == Core(e);
    assert hs[j] == hs[..|hs| - 1][j];
  }

  /** The grounds of a mark are grounds for the one entry with that id. */
  lemma GroundsAreHere(cf: Settings, hs: seq<Happening>, configured: set<string>, k: nat)
    requires k < |After(cf, hs).outbox| && Grounds(cf, hs, configured, After(cf, hs).outbox[k].id)
    ensures After(cf, hs).outbox[k].notifier in configured ==> Accepted(hs, After(cf, hs).outbox[k])
  {
    hide Exec, After, Accepted;
    var outbox := After(cf, hs).outbox;
    AfterNumbered(cf, hs);
    var e :| Known(outbox, e) && e.id == outbox[k].id && (e.notifier in configured ==> Accepted(hs, e));
    var j :| 0 <= j < |outbox| && Core(outbox[j]) == Core(e);
    assert Core(outbox[j]).id == outbox[j].id && Core(e).id == e.id;
    assert j == k;
    assert Core(outbox[k]).notifier == Core(e).notifier;
    SameAccepted(hs, e, outbox[k]);
  }

  lemma SameAccepted(hs: seq<Happening>, e: OutboxEntry, e': OutboxEntry)
    requires Core(e') == Core(e)
    ensures Accepted(hs, e) <==> Accepted(hs, e')
  {
  }

  /**
    * Delivered means accepted. In any life of a store, with any number of workers and other callers
    * interleaved, in which delivery marks come from passes: every entry that is delivered, and whose
    * notifier is configured, was handed to that notifier as it stands and taken by it.
    */
  lemma {:induction false} DeliveredMeansAccepted(cf: Settings, hs: seq<Happening>, configured: set<string>, k: nat)
    requires FromPasses(cf, hs, configured)
    requires k < |After(cf, hs).outbox| && After(cf, hs).outbox[k].Delivered()
    ensures After(cf, hs).outbox[k].notifier in configured ==> Accepted(hs, After(cf, hs).outbox[k])
  {
    hide After, Core, Grounds, Effect, OutboxCoherent, Known, Accepted;
    if hs == [] {
      NothingAtFirst(cf);
    } else {
      var init, last, e := hs[..|hs| - 1], hs[|hs| - 1], After(cf, hs).outbox[k];
      var ix := After(cf, init);
      OneMoreHappening(cf, hs);
      FromPassesBefore(cf, hs, configured);
      AfterNumbered(cf, init);
      if last.Called? {
        EffectGrows(cf, ix, last.input);
        CallAddsUndelivered(cf, ix, last.input, k);
      }
      assert k < |ix.outbox| && Core(ix.outbox[k]) == Core(e);
      CoreKeeps(ix.outbox[k], e);
      if ix.outbox[k].Delivered() {
        DeliveredMeansAccepted(cf, init, configured, k);
      } else {
        OnlyMarkCallsDeliver(cf, ix, last.input, k);
        GroundsAreHere(cf, init, configured, k);
      }
      if e.notifier in configured {
        AcceptedStays(hs, ix.outbox[k], e);
      }
    }
  }

  lemma NothingAtFirst(cf: Settings)
    ensures After(cf, []).outbox == []
  {
  }

  lemma CoreKeeps(e: OutboxEntry, e': OutboxEntry)
    requires Core(e') == Core(e)
    ensures e'.notifier == e.notifier && e'.id == e.id
  {
    assert Core(e').notifier == Core(e).notifier && Core(e').id == Core(e).id;
  }

  // ------------------------------------------------------- one pass

  /** A notifier's answer: none when it took the payload, else the cause of the failure. */
  type Notifiers = map<string, OutboxEntry -> Option<string>>

  /** Discarded when nobody is configured to take it; else what the notifier answered. */
  function Verdict(ns: Notifiers, e: OutboxEntry): Mark {
    if e.notifier !in ns then Sent
    else match ns[e.notifier](e) case None => Sent case Some(cause) => NotSent(cause)
  }

  /** The entries one pass attempts. */
  function FirstDue(outbox: seq<OutboxEntry>, now: Time, limit: nat): seq<OutboxEntry> {
    var all := AllDue(outbox, now);
    if limit > 0 && |all| > limit then all[..limit] else all
  }

  lemma FirstDueIsDue(outbox: seq<OutboxEntry>, now: Time, limit: nat)
    requires UniqueIds(outbox)
    ensures var due := FirstDue(outbox, now, limit);
            UniqueIds(due) && forall e :: e in due ==> e in outbox && IsDue(e, now)
  {
    DueAreDue(outbox, now);
    assert forall e :: e in FirstDue(outbox, now, limit) ==> e in AllDue(outbox, now);
  }

  /**
    * What a pass does after its first n happenings: it calls the notifiers of entries that are due,
    * marks only such entries, and marks one delivered only after its notifier took it, if it has one.
    */
  predicate Grounded(hs: seq<Happening>, n: nat, due: seq<OutboxEntry>, ns: Notifiers) {
    && n <= |hs|
    && forall i :: n <= i < |hs| ==>
         match hs[i]
         case Notified(e, took) => e in due && e.notifier in ns && (took <==> ns[e.notifier](e).None?)
         case Called(input) => input.op.MarkNote? && Ground(hs[n..i], due, ns, input.op.noteId, input.op.mark)
  }

  predicate Ground(hs: seq<Happening>, due: seq<OutboxEntry>, ns: Notifiers, note: int, m: Mark) {
    exists e :: e in due && e.id == note && (m.Sent? && e.notifier in ns ==> Notified(e, true) in hs)
  }

  /** One entry's part of a pass: perhaps its notifier is called, then it is marked. */
  lemma GroundedOn(hs: seq<Happening>, n: nat, due: seq<OutboxEntry>, ns: Notifiers, e: OutboxEntry, now: Time,
                   disk: J.Disk)
    requires Grounded(hs, n, due, ns) && e in due
    ensures var called := Called(Input(now, MarkNote(e.id, Verdict(ns, e)), disk));
            var own := if e.notifier in ns then [Notified(e, Verdict(ns, e).Sent?), called] else [called];
            Grounded(hs + own, n, due, ns)
  {
    hide Ground;
    var m := Verdict(ns, e);
    var called := Called(Input(now, MarkNote(e.id, m), disk));
    var hs1 := if e.notifier in ns then hs + [Notified(e, m.Sent?)] else hs;
    var hs2 := hs1 + [called];
    assert hs2 == hs + if e.notifier in ns then [Notified(e, m.Sent?), called] else [called];
    assert Ground(hs1[n..], due, ns, e.id, m) by { GroundOf(hs1, n, due, ns, e, m); }
    forall i | n <= i < |hs2|
      ensures match hs2[i]
              case Notified(e, took) => e in due && e.notifier in ns && (took <==> ns[e.notifier](e).None?)
              case Called(input) => input.op.MarkNote? && Ground(hs2[n..i], due, ns, input.op.noteId, input.op.mark)
    {
      if i < |hs| {
        assert hs2[i] == hs[i] && hs2[n..i] == hs[n..i];
      } else if i == |hs1| {
        assert hs2[n..i] == hs1[n..];
      }
    }
  }

  lemma GroundOf(hs: seq<Happening>, n: nat, due: seq<OutboxEntry>, ns: Notifiers, e: OutboxEntry, m: Mark)
    requires n < |hs| || e.notifier !in ns
    requires n <= |hs| && e in due && (e.notifier in ns ==> hs[|hs| - 1] == Notified(e, m.Sent?))
    ensures Ground(hs[n..], due, ns, e.id, m)
  {
    if e.notifier in ns {
      assert hs[n..][|hs| - 1 - n] == hs[|hs| - 1];
    }
  }

  lemma {:induction false} AfterGrows(cf: Settings, hs: seq<Happening>, i: nat)
    requires i <= |hs|
    ensures Grown(After(cf, hs[..i]).outbox, After(cf, hs).outbox)
  {
    hide After, Effect, Core;
    if i < |hs| {
      var init, last := hs[..|hs| - 1], hs[|hs| - 1];
      AfterGrows(cf, init, i);
      assert init[..i] == hs[..i];
      OneMoreHappening(cf, hs);
      if last.Called? {
        EffectGrows(cf, After(cf, init), last.input);
      }
    } else {
      assert hs[..i] == hs;
    }
  }

  /**
    * The marks of a pass have their grounds in the life of the store it is part of: the pass read
    * what was due after the first i happenings, and its own happenings are among those since.
    */
  lemma PassHasGrounds(cf: Settings, hs: seq<Happening>, i: nat, own: seq<Happening>, due: seq<OutboxEntry>,
                       ns: Notifiers, note: int)
    requires i <= |hs| && forall e :: e in due ==> e in After(cf, hs[..i]).outbox
    requires (forall h :: h in own ==> h in hs) && Ground(own, due, ns, note, Sent)
    ensures Grounds(cf, hs, ns.Keys, note)
  {
    hide After, Core;
    AfterGrows(cf, hs, i);
    var outbox := After(cf, hs[..i]).outbox;
    var e :| e in due && e.id == note && (e.notifier in ns ==> Notified(e, true) in own);
    assert e in outbox;
    var k :| 0 <= k < |outbox| && outbox[k] == e;
    assert Core(After(cf, hs).outbox[k]) == Core(e);
    assert e.notifier in ns ==> Notified(e, true) in hs;
  }

  /** The journal takes the write of a turn, and nobody else marks the entry in it. */
  predicate LeftAlone(t: Turn, note: int) {
    t.disk.Accepts? && Unmarked(t.foreign, note)
  }

  lemma {:induction false} ClockedUnmarked(now: Time, ins: seq<Input>, note: int)
    requires Unmarked(ins, note)
    ensures Unmarked(Clocked(now, ins), note)
  {
    if ins != [] {
      ClockedUnmarked(now, ins[..|ins| - 1], note);
    }
  }

  /** The outbox as our call finds it, and as a mark leaves it. */
  lemma MetOutbox(cf: Settings, ix: Index, now: Time, t: Turn, k: nat)
    requires OutboxCoherent(ix)
    ensures OutboxCoherent(Met(cf, ix, now, t)) && Grown(ix.outbox, Met(cf, ix, now, t).outbox)
    ensures k < |ix.outbox| && Unmarked(t.foreign, ix.outbox[k].id) ==>
              k < |Met(cf, ix, now, t).outbox| && Met(cf, ix, now, t).outbox[k] == ix.outbox[k]
  {
    hide Exec, Clocked, Core, Unmarked, OutboxCoherent;
    var ins := Clocked(now, t.foreign);
    ExecGrows(cf, ix, ins);
    ExecNumbered(cf, ix, ins);
    if k < |ix.outbox| && Unmarked(t.foreign, ix.outbox[k].id) {
      ClockedUnmarked(now, t.foreign, ix.outbox[k].id);
      EntryStaysOver(cf, ix, ins, k);
    }
  }

  /** What a mark does to the k-th entry, and that a mark on a known entry is accepted. */
  lemma MarkOutbox(cf: Settings, ix: Index, now: Time, note: int, m: Mark, k: nat)
    requires OutboxCoherent(ix)
    ensures var op := MarkNote(note, m);
            && Grown(ix.outbox, Next(cf, ix, now, op).outbox)
            && (HasId(ix.outbox, note) ==> Decide(cf, ix, now, op).Write?)
            && (k < |ix.outbox| ==>
                  && k < |Next(cf, ix, now, op).outbox|
                  && Next(cf, ix, now, op).outbox[k] == if ix.outbox[k].id == note then Marked(ix.outbox[k], m, now)
                                                        else ix.outbox[k])
  {
    hide Next, Decide, Core, Marked;
    NextGrows(cf, ix, now, MarkNote(note, m));
    if HasId(ix.outbox, note) {
      var j :| 0 <= j < |ix.outbox| && ix.outbox[j].id == note;
      MarkAt(cf, ix, now, j, m);
    }
    if k < |ix.outbox| && ix.outbox[k].id != note {
      EntryStays(cf, ix, now, MarkNote(note, m), k);
    }
  }

  lemma GrownTrans(a: seq<OutboxEntry>, b: seq<OutboxEntry>, c: seq<OutboxEntry>)
    requires Grown(a, b) && Grown(b, c)
    ensures Grown(a, c)
  {
    hide Core;
  }

  lemma GrownSelf(a: seq<OutboxEntry>)
    ensures Grown(a, a)
  {
  }

  predicate HasId(outbox: seq<OutboxEntry>, note: int) {
    exists j :: 0 <= j < |outbox| && outbox[j].id == note
  }

  lemma GrownHas(a: seq<OutboxEntry>, b: seq<OutboxEntry>, note: int)
    requires Grown(a, b) && HasId(a, note)
    ensures HasId(b, note)
  {
    var j :| 0 <= j < |a| && a[j].id == note;
    assert Core(b[j]) == Core(a[j]);
    CoreKeeps(a[j], b[j]);
  }

  /** What an attempt makes of an entry. */
  predicate Attempted(e: OutboxEntry, e': OutboxEntry, m: Mark, from: Time, to: Time) {
    exists t :: from <= t <= to && e' == Marked(e, m, t)
  }

  /**
    * The same in the entry's fields: delivered if its notifier took it or if it has none, else counted,
    * the notifier's answer kept, and due again within 256 seconds.
    */
  predicate Outcome(ns: Notifiers, e: OutboxEntry, e': OutboxEntry, from: Time, to: Time) {
    if e.notifier in ns && ns[e.notifier](e).Some? then
      && e' == e.(attempts := e.attempts + 1, lastError := ns[e.notifier](e).value, nextAttempt := e'.nextAttempt)
      && from + 2 * SECOND <= e'.nextAttempt <= to + 256 * SECOND
    else e'.deliveredAt.Some? && from <= e'.deliveredAt.value <= to
         && e' == e.(deliveredAt := e'.deliveredAt, lastError := "")
  }

  lemma AttemptMeans(ns: Notifiers, e: OutboxEntry, e': OutboxEntry, from: Time, to: Time)
    requires Attempted(e, e', Verdict(ns, e), from, to)
    ensures Outcome(ns, e, e', from, to)
  {
    hide Backoff;
    var t :| from <= t <= to && e' == Marked(e, Verdict(ns, e), t);
    if Verdict(ns, e).NotSent? {
      RetriedSoon(e, Verdict(ns, e).cause, t);
    }
  }

  class Worker {
    const w: World
    const ns: Notifiers
    var hs: seq<Happening>

    constructor (w: World, ns: Notifiers)
      ensures this.w == w && this.ns == ns && hs == []
    {
      this.w, this.ns, hs := w, ns, [];
    }

    /** Writes a mark. */
    method MarkEntry(e: OutboxEntry, m: Mark, ghost k: nat) returns (written: bool)
      requires w.Valid()
      modifies this, w`turn, w`now, w`ix, w`log, w`tries
      ensures w.Valid() && old(w.log) <= w.log && w.turn == old(w.turn) + 1
      ensures w.now == old(w.ComingTime()) >= old(w.now)
      ensures hs == old(hs) + [Called(Input(w.now, MarkNote(e.id, m), old(w.turns(w.turn)).disk))]
      ensures Grown(old(w.ix).outbox, w.ix.outbox)
      ensures old(w.turns(w.turn)).disk.Accepts? && HasId(old(w.ix).outbox, e.id) ==> written
      ensures k < |old(w.ix).outbox| && LeftAlone(old(w.turns(w.turn)), old(w.ix).outbox[k].id) ==>
                w.ix.outbox[k] == if old(w.ix).outbox[k].id == e.id then Marked(old(w.ix).outbox[k], m, w.now)
                                  else old(w.ix).outbox[k]
    {
      hide Named, Recorded, InStep, TraceHolds, OutboxCoherent, Met, MetTime, Next, Decide, Grown, Unmarked,
           Marked;
      ghost var ix, now := w.ix, w.now;
      var t := w.turns(w.turn);
      ghost var met := w.Coming();
      MetOutbox(w.settings, ix, now, t, k);
      var d := w.Call(MarkNote(e.id, m));
      hs := hs + [Called(Input(w.now, MarkNote(e.id, m), t.disk))];
      MarkOutbox(w.settings, met, w.now, e.id, m, k);
      GrownSelf(met.outbox);
      GrownTrans(ix.outbox, met.outbox, w.ix.outbox);
      if HasId(ix.outbox, e.id) {
        GrownHas(ix.outbox, met.outbox, e.id);
      }
      return d.Write?;
    }

    /** One attempt at an entry, and the mark that records it; false if that could not be written. */
    method Deliver(e: OutboxEntry, ghost due: seq<OutboxEntry>, ghost n: nat, ghost k: nat) returns (on: bool)
      requires w.Valid() && e in due && Grounded(hs, n, due, ns)
      modifies this, w`turn, w`now, w`ix, w`log, w`tries
      ensures w.Valid() && old(w.log) <= w.log && w.turn == old(w.turn) + 1 && old(w.now) <= w.now
      ensures old(hs) <= hs && Grounded(hs, n, due, ns)
      ensures Grown(old(w.ix).outbox, w.ix.outbox)
      ensures old(w.turns(w.turn)).disk.Accepts? && HasId(old(w.ix).outbox, e.id) ==> on
      ensures k < |old(w.ix).outbox| && LeftAlone(old(w.turns(w.turn)), old(w.ix).outbox[k].id) ==>
                var was := old(w.ix).outbox[k];
                w.ix.outbox[k] == if was.id == e.id then Marked(was, Verdict(ns, e), w.now) else was
    {
      hide Named, Recorded, InStep, TraceHolds, OutboxCoherent, Met, MetTime, Grown, LeftAlone, Marked, Grounded;
      ghost var hs0, at, disk := hs, w.ComingTime(), w.turns(w.turn).disk;
      GroundedOn(hs, n, due, ns, e, at, disk);
      if e.notifier !in ns {
        var _ := MarkEntry(e, Sent, k);
        return true;
      }
      var answer := ns[e.notifier](e);
      hs := hs + [Notified(e, answer.None?)];
      on := MarkEntry(e, if answer.None? then Sent else NotSent(answer.value), k);
      assert hs == hs0 + [Notified(e, Verdict(ns, e).Sent?), Called(Input(at, MarkNote(e.id, Verdict(ns, e)), disk))];
    }

    /** Attempts every due entry once, at most a batch; cancelled(i) says whether the i-th is still begun. */
    method Drain(batch: nat, cancelled: nat -> bool, ghost k: nat) returns (ok: bool, ghost due: seq<OutboxEntry>)
      requires w.Valid()
      modifies this, w`turn, w`now, w`ix, w`log, w`tries
      ensures w.Valid() && old(w.log) <= w.log && old(w.turn) < w.turn && old(hs) <= hs
      ensures due == FirstDue(old(w.Coming()).outbox, old(w.ComingTime()), if batch > 0 then batch else 20)
      ensures Grounded(hs, |old(hs)|, due, ns) && Grown(old(w.Coming()).outbox, w.ix.outbox)
      ensures k < |old(w.Coming()).outbox| && (forall i :: !cancelled(i))
              && (forall i :: old(w.turn) < i < w.turn ==> LeftAlone(w.turns(i), old(w.Coming()).outbox[k].id)) ==>
                var e := old(w.Coming()).outbox[k];
                ok && if e in due then Outcome(ns, e, w.ix.outbox[k], old(w.ComingTime()), w.now)
                      else w.ix.outbox[k] == e
    {
      hide Named, Recorded, InStep, TraceHolds, OutboxCoherent, Met, MetTime, Core, Unmarked, Marked,
           Grounded, IsDue, Verdict, UniqueIds, AllDue, HasId, Attempted, Outcome;
      ghost var n, turn0 := |hs|, w.turn;
      w.Interlude();
      ghost var outbox, now := w.ix.outbox, w.now;
      var size := if batch > 0 then batch else 20;
      var d := DueOutbox(w.ix.outbox, w.now, size);
      due := d;
      assert due == FirstDue(outbox, now, size);
      DrainBegins(w.ix, hs, due, now, size, ns);
      for i := 0 to |d|
        invariant w.Valid() && old(w.log) <= w.log && turn0 < w.turn && old(hs) <= hs && now <= w.now
        invariant Grounded(hs, n, due, ns) && Grown(outbox, w.ix.outbox)
        invariant k < |outbox| && (forall j :: turn0 < j < w.turn ==> LeftAlone(w.turns(j), outbox[k].id)) ==>
                    if outbox[k] in d[..i] then Attempted(outbox[k], w.ix.outbox[k], Verdict(ns, outbox[k]), now, w.now)
                    else w.ix.outbox[k] == outbox[k]
      {
        if cancelled(i) {
          return false, due;
        }
        ghost var outbox1, now1, t := w.ix.outbox, w.now, w.turns(w.turn);
        StillThere(outbox, outbox1, due, i);
        if k < |outbox| {
          CoreKeeps(outbox[k], outbox1[k]);
        }
        var on := Deliver(d[i], due, n, k);
        GrownTrans(outbox, outbox1, w.ix.outbox);
        if k < |outbox| && LeftAlone(t, outbox1[k].id) {
          DrainStep(outbox, outbox1, w.ix.outbox, due, i, k, ns, now, now1, w.now);
        }
        if !on {
          return false, due;
        }
      }
      ok := true;
      if k < |outbox| && outbox[k] in due && Attempted(outbox[k], w.ix.outbox[k], Verdict(ns, outbox[k]), now, w.now) {
        AttemptMeans(ns, outbox[k], w.ix.outbox[k], now, w.now);
      }
    }
  }

  lemma DrainBegins(ix: Index, hs: seq<Happening>, due: seq<OutboxEntry>, now: Time, size: nat, ns: Notifiers)
    requires OutboxCoherent(ix) && due == FirstDue(ix.outbox, now, size)
    ensures Grounded(hs, |hs|, due, ns) && Grown(ix.outbox, ix.outbox)
    ensures UniqueIds(ix.outbox) && UniqueIds(due) && forall e :: e in due ==> e in ix.outbox
  {
    FirstDueIsDue(ix.outbox, now, size);
  }

  lemma StillThere(outbox: seq<OutboxEntry>, outbox': seq<OutboxEntry>, due: seq<OutboxEntry>, i: nat)
    requires Grown(outbox, outbox') && i < |due| && forall e :: e in due ==> e in outbox
    ensures HasId(outbox', due[i].id)
  {
    assert due[i] in outbox;
    GrownHas(outbox, outbox', due[i].id);
  }

  /** One entry more of a pass, as far as the k-th entry of the outbox is concerned. */
  lemma DrainStep(outbox: seq<OutboxEntry>, outbox1: seq<OutboxEntry>, outbox2: seq<OutboxEntry>, due: seq<OutboxEntry>,
                  i: nat, k: nat, ns: Notifiers, from: Time, now1: Time, now2: Time)
    requires Grown(outbox, outbox1) && Grown(outbox1, outbox2) && k < |outbox| && i < |due| && from <= now1 <= now2
    requires UniqueIds(outbox) && UniqueIds(due) && forall e :: e in due ==> e in outbox
    requires outbox2[k] == if outbox1[k].id == due[i].id then Marked(outbox1[k], Verdict(ns, due[i]), now2)
                           else outbox1[k]
    ensures
      (if outbox[k] in due[..i] then Attempted(outbox[k], outbox1[k], Verdict(ns, outbox[k]), from, now1)
       else outbox1[k] == outbox[k]) ==>
      (if outbox[k] in due[..i + 1] then Attempted(outbox[k], outbox2[k], Verdict(ns, outbox[k]), from, now2)
       else outbox2[k] == outbox[k])
  {
    hide Verdict, Marked;
    assert due[..i + 1] == due[..i] + [due[i]];
    assert due[i] in outbox by { assert due[i] in due; }
    assert Core(outbox1[k]) == Core(outbox[k]);
    CoreKeeps(outbox[k], outbox1[k]);
    if outbox[k] in due[..i] {
      assert due[i].id != outbox[k].id;
    }
  }
}
