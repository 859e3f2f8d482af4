/** What every reachable index satisfies, and what the store needs in order to refine its log. */
module Coherence {
  import opened Prelude
  import opened Lifecycle
  import opened Records
  import opened AuditChain
  import opened Decisions

  /** Rows sit under their own names. */
  ghost predicate Named(ix: Index) {
    && (forall id :: id in ix.deployments ==> ix.deployments[id].id == id)
    && (forall r :: r in ix.leases ==> ix.leases[r].resource == r)
  }

  /** Every row's idempotency key leads to it, and no key leads nowhere. */
  ghost predicate RowsCoherent(ix: Index) {
    && Named(ix)
    && (forall id :: id in ix.deployments ==> KeyLeadsHome(ix, ix.deployments[id]))
    && (forall k :: k in ix.byIdemKey ==> ix.byIdemKey[k] in ix.deployments)
  }

  predicate KeyLeadsHome(ix: Index, d: Deployment) {
    d.idempotencyKey == "" || (d.idempotencyKey in ix.byIdemKey && ix.byIdemKey[d.idempotencyKey] == d.id)
  }

  /** Outbox entries are numbered upwards and none above the counter. */
  ghost predicate OutboxCoherent(ix: Index) {
    && 0 <= ix.outboxSeq
    && (forall i :: 0 <= i < |ix.outbox| ==> 0 < ix.outbox[i].id <= ix.outboxSeq)
    && (forall i, j :: 0 <= i < j < |ix.outbox| ==> ix.outbox[i].id < ix.outbox[j].id)
  }

  ghost predicate AuditCoherent(ix: Index) {
    && (forall i :: 0 <= i < |ix.audit| ==> ix.audit[i].id == i + 1)
    && ix.auditHead == (if ix.audit == [] then GENESIS else ix.audit[|ix.audit| - 1].hash)
  }

  /** The insertion order lists each deployment once. */
  ghost predicate OrderCoherent(ix: Index) {
    && (forall i :: 0 <= i < |ix.order| ==> ix.order[i] in ix.deployments)
    && (forall id :: id in ix.deployments ==> id in ix.order)
    && (forall i, j :: 0 <= i < j < |ix.order| ==> ix.order[i] != ix.order[j])
  }

  ghost predicate Coherent(ix: Index) {
    RowsCoherent(ix) && OutboxCoherent(ix) && AuditCoherent(ix) && OrderCoherent(ix)
  }

  /** What the store asks of UpdateDeployment's callers: the row's key is blank or already its own. */
  predicate KeepsKey(ix: Index, op: Op) {
    op.Update? ==> KeyLeadsHome(ix, op.row)
  }

  // ---------------------------------------------------------------- notes

  /** The entries that NoteRows records. */
  function NotesOf(notes: seq<OutboxEntry>, top: int, now: Time): seq<OutboxEntry> {
    seq(|notes|, i requires 0 <= i < |notes| => Stamped(notes[i], top + 1 + i, now))
  }

  function WithNotes(ix: Index, notes: seq<OutboxEntry>, now: Time): Index {
    ix.(outbox := ix.outbox + NotesOf(notes, ix.outboxSeq, now), outboxSeq := ix.outboxSeq + |notes|)
  }

  lemma {:induction false} ApplyNotes(ix: Index, notes: seq<OutboxEntry>, now: Time)
    ensures ApplyAll(ix, NoteRows(notes, ix.outboxSeq, now)) == WithNotes(ix, notes, now)
  {
    var rows := NoteRows(notes, ix.outboxSeq, now);
    if notes == [] {
      assert ix.outbox + NotesOf(notes, ix.outboxSeq, now) == ix.outbox;
    } else {
      var init := notes[..|notes| - 1];
      var last := Stamped(notes[|init|], ix.outboxSeq + 1 + |init|, now);
      assert rows[..|rows| - 1] == NoteRows(init, ix.outboxSeq, now);
      ApplyNotes(ix, init, now);
      assert NotesOf(notes, ix.outboxSeq, now) == NotesOf(init, ix.outboxSeq, now) + [last];
      assert ix.outbox + NotesOf(notes, ix.outboxSeq, now)
          == ix.outbox + NotesOf(init, ix.outboxSeq, now) + [last];
    }
  }

  /** A group of one or two records, unfolded. */
  lemma ApplyTwo(ix: Index, a: Change, b: Change)
    ensures ApplyAll(ix, [a]) == ApplyRecord(ix, a)
    ensures ApplyAll(ix, [a, b]) == ApplyRecord(ApplyRecord(ix, a), b)
  {
    assert [a][..0] == [] && [a, b][..1] == [a];
  }

  /** The audit entries a transition appends. */
  function Linked(cf: Settings, ix: Index, now: Time, d: Deployment, to: State, entry: Option<Draft>): seq<AuditEntry> {
    if entry.None? then []
    else [NextEntry(cf.hasher, ix, [DeploymentRow(Moved(d, to, now))], Completed(entry.value, d, now))]
  }

  /** The same as records. */
  function AuditPart(cf: Settings, ix: Index, now: Time, d: Deployment, to: State, entry: Option<Draft>): seq<Change> {
    var linked := Linked(cf, ix, now, d, to, entry);
    if linked == [] then [] else [AuditRow(linked[0])]
  }

  lemma RowsInParts(cf: Settings, ix: Index, now: Time, d: Deployment, to: State,
                    entry: Option<Draft>, notes: seq<OutboxEntry>)
    ensures TransitionRows(cf, ix, now, d, to, entry, notes)
         == [DeploymentRow(Moved(d, to, now))] + AuditPart(cf, ix, now, d, to, entry)
            + NoteRows(notes, ix.outboxSeq, now)
  {
    hide NextEntry, Completed, Moved, NoteRows;
  }

  /** The index after a transition: the row, then the audit entry, then the notes. */
  lemma ApplyTransition(cf: Settings, ix: Index, now: Time, d: Deployment, to: State,
                        entry: Option<Draft>, notes: seq<OutboxEntry>)
    ensures ApplyAll(ix, TransitionRows(cf, ix, now, d, to, entry, notes))
         == WithNotes(ApplyAll(ApplyRecord(ix, DeploymentRow(Moved(d, to, now))),
                               AuditPart(cf, ix, now, d, to, entry)), notes, now)
  {
    hide NextEntry, Completed, TransitionRows, Moved;
    var row := DeploymentRow(Moved(d, to, now));
    var part := AuditPart(cf, ix, now, d, to, entry);
    var tail := NoteRows(notes, ix.outboxSeq, now);
    RowsInParts(cf, ix, now, d, to, entry, notes);
    ApplyAllConcat(ix, [row] + part, tail);
    ApplyAllConcat(ix, [row], part);
    ApplyTwo(ix, row, row);
    var ix1 := ApplyRecord(ix, row);
    if part != [] {
      ApplyTwo(ix1, part[0], part[0]);
    }
    ApplyNotes(ApplyAll(ix1, part), notes, now);
  }

  lemma NotesCoherent(ix: Index, notes: seq<OutboxEntry>, now: Time)
    requires Coherent(ix)
    ensures Coherent(WithNotes(ix, notes, now))
  {
  }

  /** In a coherent index an id belongs to one entry, so delivery state reaches exactly that entry. */
  lemma ApplyMark(ix: Index, k: nat, u: OutboxEntry)
    requires OutboxCoherent(ix) && k < |ix.outbox| && u.id == ix.outbox[k].id
    requires Delivery(ix.outbox[k], u) == u
    ensures ApplyAll(ix, [OutboxStateRow(u)]) == ix.(outbox := ix.outbox[k := u])
  {
    hide ApplyAll, Delivery, OutboxCoherent;
    ApplyTwo(ix, OutboxStateRow(u), OutboxStateRow(u));
    forall i | 0 <= i < |ix.outbox| ensures Delivery(ix.outbox[i], u) == ix.outbox[k := u][i] {
      OnlyOnId(ix, k, u, i);
    }
    assert ApplyRecord(ix, OutboxStateRow(u)).outbox == ix.outbox[k := u];
  }

  lemma OnlyOnId(ix: Index, k: nat, u: OutboxEntry, i: nat)
    requires OutboxCoherent(ix) && k < |ix.outbox| && i < |ix.outbox| && u.id == ix.outbox[k].id
    requires Delivery(ix.outbox[k], u) == u
    ensures Delivery(ix.outbox[i], u) == if i == k then u else ix.outbox[i]
  {
  }

  /** Rewriting a known row, its key unchanged, touches only that row. */
  lemma RowIndex(ix: Index, d: Deployment)
    requires d.id in ix.deployments && KeyLeadsHome(ix, d)
    ensures ApplyRecord(ix, DeploymentRow(d)) == ix.(deployments := ix.deployments[d.id := d])
  {
    if d.idempotencyKey != "" {
      assert ix.byIdemKey[d.idempotencyKey := d.id] == ix.byIdemKey;
    }
  }

  lemma RowIndexExactly(ix: Index, d: Deployment)
    requires d.id in ix.deployments
    ensures ApplyRecord(ix, DeploymentRow(d)) == ix.(deployments := ix.deployments[d.id := d])
            <==> KeyLeadsHome(ix, d)
  {
    if KeyLeadsHome(ix, d) {
      RowIndex(ix, d);
    } else {
      assert ApplyRecord(ix, DeploymentRow(d)).byIdemKey[d.idempotencyKey] == d.id;
    }
  }

  function WithEntries(ix: Index, linked: seq<AuditEntry>): Index {
    ix.(audit := ix.audit + linked, auditHead := if linked == [] then ix.auditHead else linked[|linked| - 1].hash)
  }

  /** In a coherent index a transition changes its row and appends; nothing else moves. */
  lemma TransitionIndex(cf: Settings, ix: Index, now: Time, d: Deployment, to: State,
                        entry: Option<Draft>, notes: seq<OutboxEntry>)
    requires d.id in ix.deployments && KeyLeadsHome(ix, d)
    ensures ApplyAll(ix, TransitionRows(cf, ix, now, d, to, entry, notes))
         == WithNotes(WithEntries(ix.(deployments := ix.deployments[d.id := Moved(d, to, now)]),
                                  Linked(cf, ix, now, d, to, entry)), notes, now)
  {
    hide NotesOf, WithNotes, WithEntries, TransitionRows, Linked, ApplyRecord, ApplyAll, AuditPart;
    ApplyTransition(cf, ix, now, d, to, entry, notes);
    var d' := Moved(d, to, now);
    RowIndex(ix, d');
    EntriesIndex(cf, ix, ApplyRecord(ix, DeploymentRow(d')), now, d, to, entry);
  }

  lemma EntriesIndex(cf: Settings, ix: Index, ix1: Index, now: Time, d: Deployment, to: State, entry: Option<Draft>)
    ensures ApplyAll(ix1, AuditPart(cf, ix, now, d, to, entry)) == WithEntries(ix1, Linked(cf, ix, now, d, to, entry))
  {
    hide NextEntry, Completed, Moved;
    if entry.Some? {
      var a := AuditPart(cf, ix, now, d, to, entry)[0];
      ApplyTwo(ix1, a, a);
    } else {
      assert ix1.audit + [] == ix1.audit;
    }
  }

  /** When one more record keeps an index coherent. */
  predicate Fitting(ix: Index, c: Change) {
    match c
    case DeploymentRow(d) =>
      KeyLeadsHome(ix, d) || (d.idempotencyKey !in ix.byIdemKey && d.id !in ix.deployments)
    case AuditRow(a) => a.id == |ix.audit| + 1
    case OutboxRow(o) => o.id > ix.outboxSeq
    case _ => true
  }

  lemma RecordCoherent(ix: Index, c: Change)
    requires Coherent(ix) && Fitting(ix, c)
    ensures Coherent(ApplyRecord(ix, c))
  {
    match c
    case DeploymentRow(d) => DeploymentCoherent(ix, d);
    case AuditRow(a) => AuditRowCoherent(ix, a);
    case OutboxStateRow(o) =>
    case _ =>
  }

  lemma DeploymentCoherent(ix: Index, d: Deployment)
    requires Coherent(ix) && Fitting(ix, DeploymentRow(d))
    ensures Coherent(ApplyRecord(ix, DeploymentRow(d)))
  {
    hide OutboxCoherent, RowsCoherent, OrderCoherent, Fitting;
    RowKeepsRows(ix, d);
    RowKeepsOrder(ix, d);
    SameNumbers(ix, ApplyRecord(ix, DeploymentRow(d)));
  }

  lemma RowKeepsRows(ix: Index, d: Deployment)
    requires RowsCoherent(ix) && Fitting(ix, DeploymentRow(d))
    ensures RowsCoherent(ApplyRecord(ix, DeploymentRow(d)))
  {
    var ix' := ApplyRecord(ix, DeploymentRow(d));
    forall id | id in ix'.deployments
      ensures ix'.deployments[id].id == id && KeyLeadsHome(ix', ix'.deployments[id])
    {
      if id != d.id {
        assert KeyLeadsHome(ix, ix.deployments[id]);
      }
    }
  }

  /** Whatever is recorded, the insertion order lists each deployment once. */
  lemma {:induction false} GroupKeepsOrder(ix: Index, cs: seq<Change>)
    requires OrderCoherent(ix)
    ensures OrderCoherent(ApplyAll(ix, cs))
  {
    hide OrderCoherent, ApplyRecord;
    if cs != [] {
      GroupKeepsOrder(ix, cs[..|cs| - 1]);
      RecordKeepsOrder(ApplyAll(ix, cs[..|cs| - 1]), cs[|cs| - 1]);
    }
  }

  lemma RecordKeepsOrder(ix: Index, c: Change)
    requires OrderCoherent(ix)
    ensures OrderCoherent(ApplyRecord(ix, c))
  {
    if c.DeploymentRow? {
      RowKeepsOrder(ix, c.deployment);
    }
  }

  lemma RowKeepsOrder(ix: Index, d: Deployment)
    requires OrderCoherent(ix)
    ensures OrderCoherent(ApplyRecord(ix, DeploymentRow(d)))
  {
  }

  lemma AuditRowCoherent(ix: Index, a: AuditEntry)
    requires Coherent(ix) && a.id == |ix.audit| + 1
    ensures Coherent(ApplyRecord(ix, AuditRow(a)))
  {
  }

  /** A group of a row and an audit entry about it. */
  lemma TwoCoherent(cf: Settings, ix: Index, c: Change, d: Draft)
    requires Coherent(ix) && Fitting(ix, c) && (c.DeploymentRow? || c.LeaseReleaseRow?)
    ensures Coherent(ApplyAll(ix, [c]))
    ensures Coherent(ApplyAll(ix, [c, AuditRow(NextEntry(cf.hasher, ix, [c], d))]))
  {
    hide AuditHash;
    var a := AuditRow(NextEntry(cf.hasher, ix, [c], d));
    ApplyTwo(ix, c, a);
    RecordCoherent(ix, c);
    assert [c][..0] == [];
    assert AuditRows([c]) == 0;
    RecordCoherent(ApplyRecord(ix, c), a);
  }

  lemma TransitionCoherent(cf: Settings, ix: Index, now: Time, d: Deployment, to: State,
                           entry: Option<Draft>, notes: seq<OutboxEntry>)
    requires Coherent(ix) && d.id in ix.deployments && ix.deployments[d.id] == d
    ensures Coherent(ApplyAll(ix, TransitionRows(cf, ix, now, d, to, entry, notes)))
  {
    hide NextEntry, Coherent, WithNotes, ApplyRecord;
    var row := DeploymentRow(Moved(d, to, now));
    ApplyTransition(cf, ix, now, d, to, entry, notes);
    MovedFitting(ix, d, to, now);
    TwoCoherent(cf, ix, row, if entry.None? then Draft(0, "", "", "", map[]) else Completed(entry.value, d, now));
    var ix1 := ApplyAll(ApplyRecord(ix, row), AuditPart(cf, ix, now, d, to, entry));
    ApplyTwo(ix, row, row);
    if entry.Some? {
      var e := AuditPart(cf, ix, now, d, to, entry)[0];
      ApplyTwo(ix, row, e);
      ApplyTwo(ApplyRecord(ix, row), e, e);
    }
    NotesCoherent(ix1, notes, now);
  }

  lemma MovedFitting(ix: Index, d: Deployment, to: State, now: Time)
    requires Coherent(ix) && d.id in ix.deployments && ix.deployments[d.id] == d
    ensures Fitting(ix, DeploymentRow(Moved(d, to, now)))
  {
  }

  /** Whatever is recorded, rows stay under their own names. */
  lemma {:induction false} GroupNamed(ix: Index, cs: seq<Change>)
    requires Named(ix)
    ensures Named(ApplyAll(ix, cs))
  {
    hide Named, ApplyRecord;
    if cs != [] {
      GroupNamed(ix, cs[..|cs| - 1]);
      RecordNamed(ApplyAll(ix, cs[..|cs| - 1]), cs[|cs| - 1]);
    }
  }

  lemma RecordNamed(ix: Index, c: Change)
    requires Named(ix)
    ensures Named(ApplyRecord(ix, c))
  {
  }

  /** Every operation keeps the index coherent. */
  lemma NextCoherent(cf: Settings, ix: Index, now: Time, op: Op)
    requires Coherent(ix) && KeepsKey(ix, op)
    ensures Coherent(Next(cf, ix, now, op))
  {
    hide NextEntry, Coherent, ApplyRecord;
    var decision := Decide(cf, ix, now, op);
    if decision.Write? {
      match op
      case Create(d, source) =>
        TwoCoherent(cf, ix, DeploymentRow(NewRow(d, now)), CreatedDraft(d, source, now));
      case Transition(id, fence, from, to, entry, notes) =>
        DeploymentNamed(ix, id);
        TransitionCoherent(cf, ix, now, ix.deployments[id], to, entry, notes);
      case Break(resource, actor) =>
        TwoCoherent(cf, ix, LeaseReleaseRow(ix.leases[resource].(expiresAt := now)),
                    BrokenDraft(resource, actor, ix.leases[resource].holder, now));
      case Enqueue(e) =>
        EnqueueCoherent(ix, e, now);
      case MarkNote(id, m) =>
        MarkCoherent(ix, Marked(ix.outbox[FindNote(ix.outbox, id)], m, now));
      case AppendAudit(d) =>
        AuditCoherentNext(cf, ix, d.(at := if d.at == 0 then now else d.at));
      case _ =>
        var c := decision.group[0];
        ApplyTwo(ix, c, c);
        RecordCoherent(ix, c);
    }
  }

  /** Using up outbox numbers spoils nothing. */
  lemma BurnedCoherent(ix: Index, group: seq<Change>)
    ensures Coherent(ix) ==> Coherent(Burned(ix, group))
    ensures Named(ix) ==> Named(Burned(ix, group))
    ensures OutboxCoherent(ix) ==> OutboxCoherent(Burned(ix, group))
  {
  }

  lemma {:induction false} BurnsNothing(ix: Index, cs: seq<Change>)
    requires forall i :: 0 <= i < |cs| ==> !cs[i].OutboxRow?
    ensures NotesIn(cs) == 0 && Burned(ix, cs) == ix
  {
    if cs != [] {
      BurnsNothing(ix, cs[..|cs| - 1]);
    }
  }

  lemma {:induction false} BurnsNotes(cs: seq<Change>, notes: seq<OutboxEntry>, top: int, now: Time)
    requires forall i :: 0 <= i < |cs| ==> !cs[i].OutboxRow?
    ensures NotesIn(cs + NoteRows(notes, top, now)) == |notes|
  {
    var rows := NoteRows(notes, top, now);
    if notes == [] {
      assert cs + rows == cs;
      BurnsNothing(EMPTY_INDEX, cs);
    } else {
      var init := notes[..|notes| - 1];
      assert rows[..|rows| - 1] == NoteRows(init, top, now);
      assert (cs + rows)[..|cs + rows| - 1] == cs + NoteRows(init, top, now);
      BurnsNotes(cs, init, top, now);
    }
  }

  // ------------------------------------------------------- the outbox alone

  lemma {:induction false} NoNotes(ix: Index, cs: seq<Change>)
    requires forall i :: 0 <= i < |cs| ==> !cs[i].OutboxRow? && !cs[i].OutboxStateRow?
    ensures ApplyAll(ix, cs).outbox == ix.outbox && ApplyAll(ix, cs).outboxSeq == ix.outboxSeq
  {
    if cs != [] {
      NoNotes(ix, cs[..|cs| - 1]);
    }
  }

  lemma NotesNumbered(ix: Index, notes: seq<OutboxEntry>, now: Time)
    requires OutboxCoherent(ix)
    ensures OutboxCoherent(WithNotes(ix, notes, now))
  {
  }

  /** Every operation keeps the outbox numbered upwards, whatever becomes of the rest. */
  lemma NextNumbered(cf: Settings, ix: Index, now: Time, op: Op)
    requires OutboxCoherent(ix)
    ensures OutboxCoherent(Next(cf, ix, now, op))
  {
    hide ApplyAll, ApplyRecord, NextEntry, CreatedDraft, BrokenDraft, Marked, Moved, Refusal, NoteRows,
         NotesOf, WithNotes, OutboxCoherent;
    var d := Decide(cf, ix, now, op);
    if d.Write? && op.Transition? {
      RefusesUnknown(ix, now, op.id, op.fence, op.from, op.to);
      TransitionNumbered(cf, ix, now, ix.deployments[op.id], op.to, op.entry, op.notes);
    } else if d.Write? && op.Enqueue? {
      ApplyNotes(ix, [op.note], now);
      NotesNumbered(ix, [op.note], now);
    } else if d.Write? && op.MarkNote? {
      MarkNumbered(ix, FindNote(ix.outbox, op.noteId), op.mark, now);
    } else {
      NoNotes(ix, Writes(cf, ix, now, op));
      SameNumbers(ix, Next(cf, ix, now, op));
    }
  }

  lemma SameNumbers(ix: Index, ix': Index)
    requires OutboxCoherent(ix) && ix'.outbox == ix.outbox && ix'.outboxSeq == ix.outboxSeq
    ensures OutboxCoherent(ix')
  {
  }

  lemma MarkIndex(ix: Index, k: nat, m: Mark, now: Time)
    requires OutboxCoherent(ix) && k < |ix.outbox|
    ensures ApplyAll(ix, [OutboxStateRow(Marked(ix.outbox[k], m, now))])
         == ix.(outbox := ix.outbox[k := Marked(ix.outbox[k], m, now)])
  {
    hide Backoff, ApplyAll;
    ApplyMark(ix, k, Marked(ix.outbox[k], m, now));
  }

  lemma SameRowId(d: Deployment, now: Time)
    ensures NewRow(d, now).id == d.id && NewRow(d, now).idempotencyKey == d.idempotencyKey
  {
  }

  lemma MarkNumbered(ix: Index, k: nat, m: Mark, now: Time)
    requires OutboxCoherent(ix) && k < |ix.outbox|
    ensures OutboxCoherent(ApplyAll(ix, [OutboxStateRow(Marked(ix.outbox[k], m, now))]))
  {
    hide Backoff;
    ApplyMark(ix, k, Marked(ix.outbox[k], m, now));
  }

  lemma TransitionNumbered(cf: Settings, ix: Index, now: Time, d: Deployment, to: State,
                           entry: Option<Draft>, notes: seq<OutboxEntry>)
    requires OutboxCoherent(ix)
    ensures OutboxCoherent(ApplyAll(ix, TransitionRows(cf, ix, now, d, to, entry, notes)))
  {
    hide NextEntry, Moved, WithNotes, NotesOf, OutboxCoherent, TransitionRows;
    ApplyTransition(cf, ix, now, d, to, entry, notes);
    var ix1 := ApplyRecord(ix, DeploymentRow(Moved(d, to, now)));
    NoNotes(ix1, AuditPart(cf, ix, now, d, to, entry));
    SameNumbers(ix, ApplyAll(ix1, AuditPart(cf, ix, now, d, to, entry)));
    NotesNumbered(ApplyAll(ix1, AuditPart(cf, ix, now, d, to, entry)), notes, now);
  }

  /** A new row and the entry that tells of it. */
  lemma CreatedIndex(ix: Index, row: Deployment, entry: AuditEntry)
    requires row.id !in ix.deployments
    ensures ApplyAll(ix, [DeploymentRow(row), AuditRow(entry)])
         == ix.(order := ix.order + [row.id], deployments := ix.deployments[row.id := row],
                byIdemKey := if row.idempotencyKey == "" then ix.byIdemKey
                             else ix.byIdemKey[row.idempotencyKey := row.id],
                audit := ix.audit + [entry], auditHead := entry.hash)
  {
    ApplyTwo(ix, DeploymentRow(row), AuditRow(entry));
  }

  /** A cleared lease and the entry that tells of it. */
  lemma BrokenIndex(ix: Index, l: Lease, entry: AuditEntry)
    requires l.resource in ix.leases && ix.leases[l.resource] == l.(expiresAt := ix.leases[l.resource].expiresAt)
    ensures ApplyAll(ix, [LeaseReleaseRow(l), AuditRow(entry)])
         == ix.(leases := ix.leases[l.resource := l.(holder := "")],
                audit := ix.audit + [entry], auditHead := entry.hash)
  {
    ApplyTwo(ix, LeaseReleaseRow(l), AuditRow(entry));
  }

  lemma RowNamed(ix: Index, id: string)
    requires Named(ix) && id in ix.deployments
    ensures ix.deployments[id].id == id
  {
  }

  lemma ResourceNamed(ix: Index, resource: string)
    requires Named(ix) && resource in ix.leases
    ensures ix.leases[resource].resource == resource
  {
  }

  lemma DeploymentNamed(ix: Index, id: string)
    requires Coherent(ix) && id in ix.deployments
    ensures ix.deployments[id].id == id && KeyLeadsHome(ix, ix.deployments[id])
  {
  }

  lemma LeaseNamed(ix: Index, resource: string)
    requires Coherent(ix) && resource in ix.leases
    ensures ix.leases[resource].resource == resource
  {
  }

  lemma KeyNamesRow(ix: Index, key: string)
    requires Coherent(ix) && key in ix.byIdemKey
    ensures ix.byIdemKey[key] in ix.deployments
  {
  }

  lemma EnqueueCoherent(ix: Index, e: OutboxEntry, now: Time)
    requires Coherent(ix)
    ensures Coherent(ApplyAll(ix, NoteRows([e], ix.outboxSeq, now)))
  {
    ApplyNotes(ix, [e], now);
    NotesCoherent(ix, [e], now);
  }

  lemma MarkCoherent(ix: Index, u: OutboxEntry)
    requires Coherent(ix)
    ensures Coherent(ApplyAll(ix, [OutboxStateRow(u)]))
  {
    ApplyTwo(ix, OutboxStateRow(u), OutboxStateRow(u));
  }

  lemma AuditCoherentNext(cf: Settings, ix: Index, d: Draft)
    requires Coherent(ix)
    ensures Coherent(ApplyAll(ix, [AuditRow(NextEntry(cf.hasher, ix, [], d))]))
  {
    hide AuditHash;
    var a := AuditRow(NextEntry(cf.hasher, ix, [], d));
    ApplyTwo(ix, a, a);
    RecordCoherent(ix, a);
  }
}
