/** The store of store/store.go: an index kept in fields beside the journal it is rebuilt from. */
module Stores {
  import opened Prelude
  import opened Lifecycle
  import opened Records
  import opened AuditChain
  import opened Decisions
  import opened Coherence
  import opened Runs
  import opened Durability
  import J = Journal
  import T = Tears

  /** What carrying out a decision does to the index and to the file. */
  ghost predicate Carried(c: J.Codec, d: Decision, disk: J.Disk,
                          ix0: Index, f0: J.Contents, ix1: Index, f1: J.Contents)
  {
    if d.Write? then
      && J.Appended(c, d.group, disk, f0, f1)
      && (disk.Accepts? ==> ix1 == ApplyAll(ix0, d.group))
      && (disk.FailsAfter? ==> ix1 == Burned(ix0, d.group))
    else ix1 == ix0 && f1 == f0
  }

  /** What a caller sees of a decision. */
  function Answer(d: Decision, disk: J.Disk): Result<int, StoreError> {
    match d
    case Refuse(e) => Err(e)
    case Keep(t) => Ok(t)
    case Write(_) => if disk.Accepts? then Ok(0) else Err(JournalFailed)
  }

  class Store {
    const settings: Settings
    const journal: J.File

    var deployments: map<string, Deployment>
    var order: seq<string>
    var byIdemKey: map<string, string>
    var leases: map<string, Lease>
    var audit: seq<AuditEntry>
    var auditHead: string
    var outbox: seq<OutboxEntry>
    var outboxSeq: int

    /** The live index. */
    function Live(): Index
      reads this
    {
      Index(deployments, order, byIdemKey, leases, audit, auditHead, outbox, outboxSeq)
    }

    /** The live index is what replaying the journal's committed groups yields. */
    ghost predicate Valid()
      reads this, journal
    {
      && journal.Valid()
      && Live() == ApplyAll(EMPTY_INDEX, J.Changes(journal.log))
      && Coherent(Live())
    }

    /** The live index is in order, whatever earlier writes the disk refused. */
    ghost predicate Usable()
      reads this
    {
      Coherent(Live())
    }

    constructor (settings: Settings, journal: J.File)
      ensures this.settings == settings && this.journal == journal && Live() == EMPTY_INDEX
    {
      this.settings, this.journal := settings, journal;
      deployments, order, byIdemKey, leases := map[], [], map[], map[];
      audit, auditHead, outbox, outboxSeq := [], GENESIS, [], 0;
    }

    /** One replayed record. */
    method ApplyOne(c: Change)
      modifies this
      ensures Live() == ApplyRecord(old(Live()), c)
    {
      match c {
        case DeploymentRow(d) =>
          if d.id !in deployments {
            order := order + [d.id];
          }
          deployments := deployments[d.id := d];
          if d.idempotencyKey != "" {
            byIdemKey := byIdemKey[d.idempotencyKey := d.id];
          }
        case LeaseRow(l) =>
          leases := leases[l.resource := l];
        case LeaseReleaseRow(l) =>
          if l.resource in leases && leases[l.resource].holder == l.holder {
            leases := leases[l.resource := leases[l.resource].(expiresAt := l.expiresAt, holder := "")];
          }
        case AuditRow(a) =>
          audit := audit + [a];
          auditHead := a.hash;
        case OutboxRow(o) =>
          outbox := outbox + [o];
          if o.id > outboxSeq {
            outboxSeq := o.id;
          }
        case OtherRow(_) =>
        case OutboxStateRow(o) =>
          for i := 0 to |outbox|
            invariant |outbox| == |old(outbox)|
            invariant forall k :: i <= k < |outbox| ==> outbox[k] == old(outbox)[k]
            invariant forall k :: 0 <= k < i ==> outbox[k] == Delivery(old(outbox)[k], o)
            invariant Live() == old(Live()).(outbox := outbox)
          {
            if outbox[i].id == o.id {
              outbox := outbox[i := outbox[i].(attempts := o.attempts, nextAttempt := o.nextAttempt,
                                               deliveredAt := o.deliveredAt, lastError := o.lastError)];
            }
          }
      }
    }

    /** Replays the journal into an empty index; known names the groups the file is believed to hold. */
    method Recover(ghost known: seq<J.Group>) returns (ok: bool)
      requires Live() == EMPTY_INDEX
      modifies this, journal
      ensures match J.Scan(journal.codec, old(journal.bytes), 0, J.NO_GROUP, J.START)
              case Err(_) => !ok
              case Ok(p) => ok && Live() == ApplyAll(EMPTY_INDEX, p.applied)
                            && p.good <= |old(journal.bytes)| && journal.bytes == old(journal.bytes)[..p.good]
      ensures J.Lawful(journal.codec) && J.AllWritable(journal.codec, known)
              && J.EncodeLog(journal.codec, known) <= old(journal.bytes)
              && J.Scan(journal.codec, old(journal.bytes), 0, J.NO_GROUP, J.START)
                 == Ok(J.Replayed(journal.codec, known))
              ==> journal.Valid() && journal.log == known
    {
      hide J.Scan, J.EncodeLog, J.AllWritable, J.Lawful, ApplyRecord;
      var r := journal.Replay(known);
      if r.Err? {
        return false;
      }
      for i := 0 to |r.value|
        modifies this
        invariant Live() == ApplyAll(EMPTY_INDEX, r.value[..i])
      {
        assert r.value[..i + 1][..i] == r.value[..i];
        ApplyOne(r.value[i]);
      }
      assert r.value[..|r.value|] == r.value;
      return true;
    }

    // ---------------------------------------------------------- transactions

    /** Writes a transaction's records; the caller updates the index only when this says so. */
    method Commit(recs: seq<Change>, disk: J.Disk) returns (ok: bool)
      requires |recs| > 0
      modifies journal
      ensures ok <==> disk.Accepts?
      ensures J.Appended(journal.codec, recs, disk, old(journal.Now()), journal.Now())
    {
      ok := journal.AppendGroup(recs, disk);
    }

    /** Numbers and links an audit entry behind the records already in the transaction. */
    method LinkEntry(recs: seq<Change>, d: Draft) returns (e: AuditEntry)
      ensures e == NextEntry(settings.hasher, Live(), recs, d)
    {
      var prev, id := auditHead, |audit| + 1;
      for i := 0 to |recs|
        invariant prev == LastHash(auditHead, recs[..i])
        invariant id == |audit| + 1 + AuditRows(recs[..i])
      {
        assert recs[..i + 1][..i] == recs[..i];
        if recs[i].AuditRow? {
          prev := recs[i].entry.hash;
          id := id + 1;
        }
      }
      assert recs[..|recs|] == recs;
      e := Link(settings.hasher, prev, id, d);
    }

    // ---------------------------------------------------------- deployments

    method CreateDeployment(d: Deployment, source: string, now: Time, disk: J.Disk)
      returns (r: Result<(Deployment, bool), StoreError>)
      requires Usable()
      modifies this, journal
      ensures Carried(journal.codec, DecideCreate(settings, old(Live()), now, d, source), disk,
                      old(Live()), old(journal.Now()), Live(), journal.Now())
      ensures match DecideCreate(settings, old(Live()), now, d, source)
              case Refuse(e) => r == Err(e)
              case Keep(_) => d.idempotencyKey in old(byIdemKey)
                              && old(byIdemKey)[d.idempotencyKey] in old(deployments)
                              && r == Ok((old(deployments)[old(byIdemKey)[d.idempotencyKey]], false))
              case Write(_) => r == if disk.Accepts? then Ok((NewRow(d, now), true)) else Err(JournalFailed)
    {
      hide NextEntry, CreatedDraft, ApplyAll, ApplyRecord, J.Appended, Coherent, KeyLeadsHome, J.Changes, NewRow;
      ghost var before := Live();
      SameRowId(d, now);
      if d.idempotencyKey != "" && d.idempotencyKey in byIdemKey {
        KeyNamesRow(before, d.idempotencyKey);
        return Ok((deployments[byIdemKey[d.idempotencyKey]], false));
      }
      if d.id in deployments {
        return Err(AlreadyExists);
      }
      var row := NewRow(d, now);
      var recs := [DeploymentRow(row)];
      var entry := LinkEntry(recs, CreatedDraft(d, source, now));
      CreatedIndex(before, row, entry);
      assert recs + [AuditRow(entry)] == [DeploymentRow(row), AuditRow(entry)];
      BurnsNothing(before, recs + [AuditRow(entry)]);
      var ok := Commit(recs + [AuditRow(entry)], disk);
      if !ok {
        return Err(JournalFailed);
      }
      audit, auditHead := audit + [entry], entry.hash;
      order := order + [row.id];
      deployments := deployments[row.id := row];
      if row.idempotencyKey != "" {
        byIdemKey := byIdemKey[row.idempotencyKey := row.id];
      }
      return Ok((row, true));
    }

    /** The lease check of a guarded transition. */
    predicate CheckFence(resource: string, holder: string, fence: int, now: Time)
      reads this
      ensures CheckFence(resource, holder, fence, now) <==> FenceOk(Live(), resource, holder, fence, now)
    {
      && resource in leases
      && !(leases[resource].fenceToken > fence)
      && leases[resource].holder == holder
      && !leases[resource].Expired(now)
    }

    /** Why a transition is refused, the conditions taken in the source's order. */
    function CheckMove(id: string, fence: int, from: State, to: State, now: Time): (refusal: Option<StoreError>)
      reads this
      ensures refusal == Refusal(Live(), now, id, fence, from, to)
    {
      if id !in deployments then Some(NotFound)
      else if deployments[id].state != from then Some(UnexpectedState(from, deployments[id].state))
      else if !CanTransition(from, to) then Some(IllegalTransition(from, to))
      else if Guarded(from, to) && !CheckFence(deployments[id].Resource(), id, fence, now) then Some(StaleFence)
      else None
    }

    /** Numbers notes from the counter on and adds them to a transaction. The counter moves at once. */
    method EnqueueAll(recs: seq<Change>, notes: seq<OutboxEntry>, now: Time)
      returns (recs': seq<Change>, added: seq<OutboxEntry>)
      modifies this`outboxSeq
      ensures recs' == recs + NoteRows(notes, old(outboxSeq), now)
      ensures added == NotesOf(notes, old(outboxSeq), now)
      ensures outboxSeq == old(outboxSeq) + |notes|
    {
      recs', added := recs, [];
      for i := 0 to |notes|
        invariant outboxSeq == old(outboxSeq) + i
        invariant |added| == i && |recs'| == |recs| + i && recs'[..|recs|] == recs
        invariant forall k :: 0 <= k < i ==>
          && added[k] == Stamped(notes[k], old(outboxSeq) + 1 + k, now)
          && recs'[|recs| + k] == OutboxRow(added[k])
      {
        outboxSeq := outboxSeq + 1;
        var e := Stamped(notes[i], outboxSeq, now);
        recs', added := recs' + [OutboxRow(e)], added + [e];
      }
    }

    /** The transaction of a transition that has passed its checks. */
    method Move(d: Deployment, to: State, entry: Option<Draft>, notes: seq<OutboxEntry>, now: Time, disk: J.Disk)
      returns (ok: bool)
      requires Usable() && d.id in deployments && deployments[d.id] == d
      modifies this, journal
      ensures ok <==> disk.Accepts?
      ensures Carried(journal.codec, Write(TransitionRows(settings, old(Live()), now, d, to, entry, notes)), disk,
                      old(Live()), old(journal.Now()), Live(), journal.Now())
    {
      hide NextEntry, Completed, ApplyAll, J.Appended, NoteRows, NotesOf, Coherent, KeyLeadsHome, Moved, J.Changes,
           TransitionRows;
      ghost var before := Live();
      DeploymentNamed(before, d.id);
      TransitionIndex(settings, before, now, d, to, entry, notes);
      var next := Moved(d, to, now);
      var recs, linked := [DeploymentRow(next)], [];
      RowsInParts(settings, before, now, d, to, entry, notes);
      if entry.Some? {
        var e := LinkEntry(recs, Completed(entry.value, d, now));
        recs, linked := recs + [AuditRow(e)], [e];
      }
      assert linked == Linked(settings, before, now, d, to, entry);
      assert recs == [DeploymentRow(next)] + AuditPart(settings, before, now, d, to, entry);
      var added;
      recs, added := EnqueueAll(recs, notes, now);
      BurnsNotes([DeploymentRow(next)] + AuditPart(settings, before, now, d, to, entry), notes, before.outboxSeq, now);
      ok := Commit(recs, disk);
      if ok {
        if linked != [] {
          audit, auditHead := audit + linked, linked[0].hash;
        }
        outbox := outbox + added;
        deployments := deployments[d.id := next];
        assert Live() == WithNotes(WithEntries(before.(deployments := before.deployments[d.id := next]), linked),
                                   notes, now);
      }
    }

    /** The guarded update: expected state, legal move, live and current lease. */
    method Transition(id: string, fence: int, from: State, to: State, entry: Option<Draft>,
                      notes: seq<OutboxEntry>, now: Time, disk: J.Disk)
      returns (r: Result<int, StoreError>)
      requires Usable()
      modifies this, journal
      ensures var d := DecideTransition(settings, old(Live()), now, id, fence, from, to, entry, notes);
              && Carried(journal.codec, d, disk, old(Live()), old(journal.Now()), Live(), journal.Now())
              && r == Answer(d, disk)
    {
      hide ApplyAll, J.Appended, TransitionRows, Coherent, Refusal;
      var refusal := CheckMove(id, fence, from, to, now);
      if refusal.Some? {
        return Err(refusal.value);
      }
      RefusesUnknown(Live(), now, id, fence, from, to);
      DeploymentNamed(Live(), id);
      var ok := Move(deployments[id], to, entry, notes, now, disk);
      return if ok then Ok(0) else Err(JournalFailed);
    }

    /**
      * Rewrites a whole row; the state must not change. The live key table is left alone, while
      * replay files the row under its key: the two agree exactly when the key already led there.
      */
    method UpdateDeployment(d: Deployment, now: Time, disk: J.Disk) returns (r: Result<int, StoreError>)
      requires Usable()
      modifies this, journal
      ensures r == Answer(DecideUpdate(old(Live()), now, d), disk)
      ensures KeyLeadsHome(old(Live()), d) || !DecideUpdate(old(Live()), now, d).Write? ==>
                Carried(journal.codec, DecideUpdate(old(Live()), now, d), disk,
                        old(Live()), old(journal.Now()), Live(), journal.Now())
      ensures r.Ok? ==> (Live() == ApplyAll(old(Live()), [DeploymentRow(d.(updatedAt := now))])
                         <==> KeyLeadsHome(old(Live()), d))
    {
      hide J.Appended, Coherent, ApplyAll;
      ghost var before := Live();
      if d.id !in deployments {
        return Err(NotFound);
      }
      if deployments[d.id].state != d.state {
        return Err(StateChange);
      }
      var next := d.(updatedAt := now);
      ApplyTwo(before, DeploymentRow(next), DeploymentRow(next));
      RowIndexExactly(before, next);
      BurnsNothing(before, [DeploymentRow(next)]);
      var ok := Commit([DeploymentRow(next)], disk);
      if !ok {
        return Err(JournalFailed);
      }
      deployments := deployments[d.id := next];
      return Ok(0);
    }

    // ---------------------------------------------------------- leases

    method AcquireLease(resource: string, holder: string, node: string, now: Time, disk: J.Disk)
      returns (r: Result<int, StoreError>)
      requires Usable()
      modifies this, journal
      ensures var d := DecideAcquire(settings, old(Live()), now, resource, holder, node);
              && Carried(journal.codec, d, disk, old(Live()), old(journal.Now()), Live(), journal.Now())
              && r == (if d.Write? && disk.Accepts? then Ok(Token(old(Live()), resource) + 1) else Answer(d, disk))
    {
      hide J.Appended, Coherent, ApplyAll;
      ghost var before := Live();
      var fence := 0;
      if resource in leases {
        var cur := leases[resource];
        if cur.holder != "" && !cur.Expired(now) {
          return if cur.holder == holder then Ok(cur.fenceToken) else Err(LeaseHeld(cur.holder, cur.expiresAt));
        }
        fence := cur.fenceToken;
      }
      fence := fence + 1;
      var l := Lease(resource, holder, node, now, now + settings.leaseTTL, fence);
      ApplyTwo(before, LeaseRow(l), LeaseRow(l));
      BurnsNothing(before, [LeaseRow(l)]);
      var ok := Commit([LeaseRow(l)], disk);
      if !ok {
        return Err(JournalFailed);
      }
      leases := leases[resource := l];
      return Ok(fence);
    }

    method RenewLease(resource: string, holder: string, fence: int, now: Time, disk: J.Disk)
      returns (r: Result<int, StoreError>)
      requires Usable()
      modifies this, journal
      ensures var d := DecideRenew(settings, old(Live()), now, resource, holder, fence);
              && Carried(journal.codec, d, disk, old(Live()), old(journal.Now()), Live(), journal.Now())
              && r == Answer(d, disk)
    {
      hide J.Appended, Coherent, ApplyAll;
      ghost var before := Live();
      if resource !in leases || leases[resource].holder != holder || leases[resource].fenceToken != fence {
        return Err(StaleFence);
      }
      if leases[resource].Expired(now) {
        return Err(StaleFence);
      }
      LeaseNamed(before, resource);
      var next := leases[resource].(expiresAt := now + settings.leaseTTL);
      ApplyTwo(before, LeaseRow(next), LeaseRow(next));
      BurnsNothing(before, [LeaseRow(next)]);
      var ok := Commit([LeaseRow(next)], disk);
      if !ok {
        return Err(JournalFailed);
      }
      leases := leases[resource := next];
      return Ok(0);
    }

    method ReleaseLease(resource: string, holder: string, now: Time, disk: J.Disk)
      returns (r: Result<int, StoreError>)
      requires Usable()
      modifies this, journal
      ensures var d := DecideRelease(old(Live()), now, resource, holder);
              && Carried(journal.codec, d, disk, old(Live()), old(journal.Now()), Live(), journal.Now())
              && r == Answer(d, disk)
    {
      hide J.Appended, Coherent, ApplyAll;
      ghost var before := Live();
      if resource !in leases || leases[resource].holder != holder {
        return Ok(0);
      }
      LeaseNamed(before, resource);
      var released := leases[resource].(expiresAt := now);
      ApplyTwo(before, LeaseReleaseRow(released), LeaseReleaseRow(released));
      BurnsNothing(before, [LeaseReleaseRow(released)]);
      var ok := Commit([LeaseReleaseRow(released)], disk);
      if !ok {
        return Err(JournalFailed);
      }
      leases := leases[resource := released.(holder := "")];
      return Ok(0);
    }

    method BreakLease(resource: string, actor: string, now: Time, disk: J.Disk)
      returns (r: Result<int, StoreError>)
      requires Usable()
      modifies this, journal
      ensures var d := DecideBreak(settings, old(Live()), now, resource, actor);
              && Carried(journal.codec, d, disk, old(Live()), old(journal.Now()), Live(), journal.Now())
              && r == Answer(d, disk)
    {
      hide J.Appended, Coherent, ApplyAll, ApplyRecord, NextEntry, BrokenDraft, J.Changes;
      ghost var before := Live();
      if resource !in leases {
        return Err(NotFound);
      }
      LeaseNamed(before, resource);
      var broken := leases[resource].(expiresAt := now);
      var recs := [LeaseReleaseRow(broken)];
      var entry := LinkEntry(recs, BrokenDraft(resource, actor, leases[resource].holder, now));
      BrokenIndex(before, broken, entry);
      assert recs + [AuditRow(entry)] == [LeaseReleaseRow(broken), AuditRow(entry)];
      BurnsNothing(before, recs + [AuditRow(entry)]);
      var ok := Commit(recs + [AuditRow(entry)], disk);
      if !ok {
        return Err(JournalFailed);
      }
      audit, auditHead := audit + [entry], entry.hash;
      leases := leases[resource := broken.(holder := "")];
      return Ok(0);
    }

    // ---------------------------------------------------------- audit, outbox

    method AppendAuditEntry(e: Draft, now: Time, disk: J.Disk) returns (r: Result<int, StoreError>)
      requires Usable()
      modifies this, journal
      ensures var d := DecideAudit(settings, old(Live()), now, e);
              && Carried(journal.codec, d, disk, old(Live()), old(journal.Now()), Live(), journal.Now())
              && r == Answer(d, disk)
    {
      hide J.Appended, Coherent, ApplyAll, NextEntry;
      ghost var before := Live();
      var entry := LinkEntry([], e.(at := if e.at == 0 then now else e.at));
      ApplyTwo(before, AuditRow(entry), AuditRow(entry));
      BurnsNothing(before, [AuditRow(entry)]);
      var ok := Commit([AuditRow(entry)], disk);
      if !ok {
        return Err(JournalFailed);
      }
      audit, auditHead := audit + [entry], entry.hash;
      return Ok(0);
    }

    method EnqueueNote(e: OutboxEntry, now: Time, disk: J.Disk) returns (r: Result<int, StoreError>)
      requires Usable()
      modifies this, journal
      ensures var d := Write(NoteRows([e], old(outboxSeq), now));
              && Carried(journal.codec, d, disk, old(Live()), old(journal.Now()), Live(), journal.Now())
              && r == Answer(d, disk)
    {
      hide J.Appended, Coherent, ApplyAll, NoteRows, NotesOf;
      ghost var before := Live();
      ApplyNotes(before, [e], now);
      var recs, added := EnqueueAll([], [e], now);
      assert recs == [] + NoteRows([e], before.outboxSeq, now) == NoteRows([e], before.outboxSeq, now);
      BurnsNotes([], [e], before.outboxSeq, now);
      var ok := Commit(recs, disk);
      if !ok {
        return Err(JournalFailed);
      }
      outbox := outbox + added;
      return Ok(0);
    }

    /** A row of a table that nothing here reads: a step, a sample, an approval, a freeze. */
    method RecordOther(text: string, now: Time, disk: J.Disk) returns (r: Result<int, StoreError>)
      requires Usable()
      modifies this, journal
      ensures Carried(journal.codec, Write([OtherRow(text)]), disk,
                      old(Live()), old(journal.Now()), Live(), journal.Now())
      ensures r == Answer(Write([OtherRow(text)]), disk)
    {
      hide J.Appended, Coherent, ApplyAll;
      ghost var before := Live();
      ApplyTwo(before, OtherRow(text), OtherRow(text));
      BurnsNothing(before, [OtherRow(text)]);
      var ok := Commit([OtherRow(text)], disk);
      return if ok then Ok(0) else Err(JournalFailed);
    }

    /** Rewrites the first entry with the id. */
    method UpdateOutbox(id: int, m: Mark, now: Time, disk: J.Disk) returns (r: Result<int, StoreError>)
      requires Usable()
      modifies this, journal
      ensures var d := DecideMark(old(Live()), now, id, m);
              && Carried(journal.codec, d, disk, old(Live()), old(journal.Now()), Live(), journal.Now())
              && r == Answer(d, disk)
    {
      hide J.Appended, ApplyAll, Marked, RowsCoherent, AuditCoherent, OrderCoherent, J.Changes;
      ghost var before := Live();
      for i := 0 to |outbox|
        invariant Live() == before && journal.Now() == old(journal.Now())
        invariant forall k :: 0 <= k < i ==> outbox[k].id != id
      {
        if outbox[i].id == id {
          assert FindNote(before.outbox, id) == i;
          var next := Marked(outbox[i], m, now);
          MarkIndex(before, i, m, now);
          BurnsNothing(before, [OutboxStateRow(next)]);
          var ok := Commit([OutboxStateRow(next)], disk);
          if !ok {
            return Err(JournalFailed);
          }
          outbox := outbox[i := next];
          return Ok(0);
        }
      }
      return Err(NotFound);
    }

    /**
      * Any store call, whatever the disk has done with earlier ones and does with this one: the index
      * goes as a run says, and the group goes to the end of the file as far as the disk takes it. As
      * long as the disk takes everything, the live index goes on being the replay of the file.
      */
    method Do(op: Op, now: Time, disk: J.Disk) returns (r: Result<int, StoreError>)
      requires Usable()
      modifies this, journal
      ensures var d := Decide(settings, old(Live()), now, op);
              KeepsKey(old(Live()), op) ==>
                && Usable() && Live() == Effect(settings, old(Live()), Input(now, op, disk))
                && Carried(journal.codec, d, disk, old(Live()), old(journal.Now()), Live(), journal.Now())
                && (old(Valid()) && Fit(journal.codec, old(journal.Now()), d) && disk.Accepts? ==> Valid())
    {
      hide J.Appended, J.Sound, J.Writable, Coherent, ApplyAll, DecideCreate, DecideUpdate, DecideTransition,
           DecideAcquire, DecideRenew,
           DecideRelease, DecideBreak, DecideAudit, DecideMark, NoteRows, KeyLeadsHome, Fit, Burned;
      ghost var before, file, sound := Live(), journal.Now(), Valid();
      match op {
        case Create(d, source) =>
          var c := CreateDeployment(d, source, now, disk);
          r := if c.Ok? then Ok(0) else Err(c.error);
        case Transition(id, fence, from, to, entry, notes) =>
          r := Transition(id, fence, from, to, entry, notes, now, disk);
        case Update(d) => r := UpdateDeployment(d, now, disk);
        case Acquire(resource, holder, node) => r := AcquireLease(resource, holder, node, now, disk);
        case Renew(resource, holder, fence) => r := RenewLease(resource, holder, fence, now, disk);
        case Release(resource, holder) => r := ReleaseLease(resource, holder, now, disk);
        case Break(resource, actor) => r := BreakLease(resource, actor, now, disk);
        case AppendAudit(d) => r := AppendAuditEntry(d, now, disk);
        case Enqueue(e) => r := EnqueueNote(e, now, disk);
        case MarkNote(id, m) => r := UpdateOutbox(id, m, now, disk);
        case Record(text) => r := RecordOther(text, now, disk);
      }
      if KeepsKey(before, op) {
        EffectCoherent(settings, before, Input(now, op, disk));
        CarriedEffect(journal.codec, settings, now, op, disk, before, file, Live(), journal.Now());
      }
      if sound && disk.Accepts? && KeepsKey(before, op) && Fit(journal.codec, file, Decide(settings, before, now, op)) {
        StaysInStep(journal.codec, settings, now, op, before, file, Live(), journal.Now());
      }
    }
  }

  /** The group a decision writes is small enough for the journal's length fields. */
  ghost predicate Fit(c: J.Codec, f: J.Contents, d: Decision) {
    d.Write? ==> J.Writable(c, J.Group(f.seqNo + 1, d.group))
  }

  /** Carrying out what an operation decides is what a run takes the call to do. */
  lemma CarriedEffect(c: J.Codec, cf: Settings, now: Time, op: Op, disk: J.Disk,
                      ix0: Index, f0: J.Contents, ix1: Index, f1: J.Contents)
    requires Carried(c, Decide(cf, ix0, now, op), disk, ix0, f0, ix1, f1)
    ensures ix1 == Effect(cf, ix0, Input(now, op, disk))
  {
    hide J.Appended, Decide, ApplyRecord;
  }

  /** The file and the index that a run leaves are those the store's methods leave, writes refused or not. */
  lemma FileGoesOn(c: J.Codec, cf: Settings, ins: seq<Input>, i: Input, f0: J.Contents, ix1: Index, f1: J.Contents)
    requires f0.bytes == FileOf(c, cf, ins) && f0.seqNo == |Tries(cf, EMPTY_INDEX, ins)|
    requires Carried(c, Decide(cf, Exec(cf, EMPTY_INDEX, ins), i.now, i.op), i.disk,
                     Exec(cf, EMPTY_INDEX, ins), f0, ix1, f1)
    ensures f1.bytes == FileOf(c, cf, ins + [i]) && f1.seqNo == |Tries(cf, EMPTY_INDEX, ins + [i])|
    ensures ix1 == Exec(cf, EMPTY_INDEX, ins + [i])
  {
    hide J.Appended, Decide, ApplyRecord, Exec, J.EncodeGroup, T.Left, Tries, T.Trail;
    var ix, ts := Exec(cf, EMPTY_INDEX, ins), Tries(cf, EMPTY_INDEX, ins);
    CarriedEffect(c, cf, i.now, i.op, i.disk, ix, f0, ix1, f1);
    OneMoreExec(cf, EMPTY_INDEX, ins, i);
    OneMoreTry(cf, EMPTY_INDEX, ins, i);
    var d := Decide(cf, ix, i.now, i.op);
    GroupNotEmpty(cf, ix, i.now, i.op);
    if d.Write? {
      var t := T.Try(J.Group(|ts| + 1, d.group), i.disk);
      T.AppendLeaves(c, d.group, i.disk, f0, f1);
      T.TrailConcat(c, ts, [t]);
      OneTrail(c, t);
    }
  }

  lemma OneTrail(c: J.Codec, t: T.Try)
    ensures T.Trail(c, [t]) == T.Left(c, t)
  {
    hide T.Left;
    assert T.Trail(c, [t][1..]) == [];
  }

  lemma GroupNotEmpty(cf: Settings, ix: Index, now: Time, op: Op)
    ensures var d := Decide(cf, ix, now, op);
            if d.Write? then d.group != [] && Writes(cf, ix, now, op) == d.group else Writes(cf, ix, now, op) == []
  {
    hide NextEntry, Moved, Stamped, CreatedDraft, BrokenDraft, Marked, Refusal;
  }

  /** A carried-out operation leaves file and index in step. */
  lemma {:induction false} StaysInStep(c: J.Codec, cf: Settings, now: Time, op: Op, ix0: Index, f0: J.Contents,
                                       ix1: Index, f1: J.Contents)
    requires J.Sound(c, f0) && ix0 == ApplyAll(EMPTY_INDEX, J.Changes(f0.log)) && Coherent(ix0)
    requires KeepsKey(ix0, op) && Fit(c, f0, Decide(cf, ix0, now, op))
    requires Carried(c, Decide(cf, ix0, now, op), J.Accepts, ix0, f0, ix1, f1)
    ensures J.Sound(c, f1) && ix1 == ApplyAll(EMPTY_INDEX, J.Changes(f1.log)) && Coherent(ix1)
    ensures ix1 == Next(cf, ix0, now, op)
  {
    hide J.Sound, J.Writable, Coherent, Decide, J.Appended, ApplyRecord;
    NextCoherent(cf, ix0, now, op);
    var d := Decide(cf, ix0, now, op);
    if d.Write? {
      J.AppendSound(c, d.group, f0, f1);
      ApplyAllConcat(EMPTY_INDEX, J.Changes(f0.log), d.group);
    }
  }

  /** Opens a store on a file: a fresh index, rebuilt from what the journal can replay. */
  method Open(settings: Settings, codec: J.Codec, bytes: seq<J.byte>, ghost known: seq<J.Group>)
    returns (s: Store, ok: bool)
    ensures fresh(s) && fresh(s.journal) && s.settings == settings && s.journal.codec == codec
    ensures match J.Scan(codec, bytes, 0, J.NO_GROUP, J.START)
            case Err(_) => !ok
            case Ok(p) => ok && s.Live() == ApplyAll(EMPTY_INDEX, p.applied)
    ensures J.Lawful(codec) && J.AllWritable(codec, known) && J.EncodeLog(codec, known) <= bytes
            && J.Scan(codec, bytes, 0, J.NO_GROUP, J.START) == Ok(J.Replayed(codec, known))
            && Coherent(ApplyAll(EMPTY_INDEX, J.Changes(known)))
            ==> ok && s.Valid() && s.journal.log == known
  {
    hide J.Scan, J.EncodeLog, Coherent, J.AllWritable, J.Lawful, ApplyAll;
    var j := new J.File(codec, bytes);
    s := new Store(settings, j);
    ok := s.Recover(known);
  }
}
