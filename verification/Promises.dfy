/**
  * What each store operation promises its caller, in terms of the rows before and after: when it is
  * accepted, what it changes, and that it changes nothing else.
  */
module Promises {
  import opened Prelude
  import opened Lifecycle
  import opened Records
  import opened AuditChain
  import opened Decisions
  import opened Coherence

  /** One entry more in the audit log, linked behind the last, with these contents. */
  ghost predicate AuditedBy(ix: Index, ix': Index, at: Time, actor: string, action: string, resource: string,
                            detail: map<string, string>)
  {
    && |ix'.audit| == |ix.audit| + 1 && ix.audit <= ix'.audit
    && var e := ix'.audit[|ix.audit|];
       && e.at == at && e.actor == actor && e.action == action && e.resource == resource && e.detail == detail
       && e.id == |ix.audit| + 1 && e.prevHash == ix.auditHead && ix'.auditHead == e.hash
  }

  ghost predicate SameRows(ix: Index, ix': Index) {
    ix'.deployments == ix.deployments && ix'.order == ix.order && ix'.byIdemKey == ix.byIdemKey
  }

  ghost predicate SameAudit(ix: Index, ix': Index) {
    ix'.audit == ix.audit && ix'.auditHead == ix.auditHead
  }

  ghost predicate SameOutbox(ix: Index, ix': Index) {
    ix'.outbox == ix.outbox && ix'.outboxSeq == ix.outboxSeq
  }

  // ------------------------------------------------------- deployments

  /** A row is created once; a key that is known, or an id, makes the call change nothing. */
  lemma CreatePromise(cf: Settings, ix: Index, now: Time, d: Deployment, source: string)
    requires Coherent(ix)
    ensures var decision, ix' := Decide(cf, ix, now, Create(d, source)), Next(cf, ix, now, Create(d, source));
            if d.idempotencyKey != "" && d.idempotencyKey in ix.byIdemKey then decision.Keep? && ix' == ix
            else if d.id in ix.deployments then decision == Refuse(AlreadyExists) && ix' == ix
            else
              && decision.Write?
              && ix'.deployments == ix.deployments[d.id :=
                   d.(createdAt := if d.createdAt == 0 then now else d.createdAt, updatedAt := now)]
              && ix'.order == ix.order + [d.id]
              && (d.idempotencyKey == "" ==> ix'.byIdemKey == ix.byIdemKey)
              && (d.idempotencyKey != "" ==> ix'.byIdemKey == ix.byIdemKey[d.idempotencyKey := d.id])
              && AuditedBy(ix, ix', now, d.triggeredBy, "deployment.created",
                           "app:" + d.app + "/env:" + d.environment,
                           map["deployment" := d.id, "version" := d.version, "source" := source])
              && ix'.leases == ix.leases && SameOutbox(ix, ix')
  {
    hide ApplyAll, Coherent;
    NothingApplied(ix);
    if Decide(cf, ix, now, Create(d, source)).Write? {
      var row := NewRow(d, now);
      var entry := NextEntry(cf.hasher, ix, [DeploymentRow(row)], CreatedDraft(d, source, now));
      CreatedIndex(ix, row, entry);
      FirstEntry(cf.hasher, ix, DeploymentRow(row), CreatedDraft(d, source, now));
      assert Writes(cf, ix, now, Create(d, source)) == [DeploymentRow(row), AuditRow(entry)];
    }
  }

  lemma NothingApplied(ix: Index)
    ensures ApplyAll(ix, []) == ix
  {
  }

  /** The first audit entry of a group follows the last one of the log. */
  lemma FirstEntry(h: Hasher, ix: Index, c: Change, d: Draft)
    requires !c.AuditRow?
    ensures NextEntry(h, ix, [c], d) == Link(h, ix.auditHead, |ix.audit| + 1, d)
    ensures NextEntry(h, ix, [], d) == Link(h, ix.auditHead, |ix.audit| + 1, d)
  {
    hide Link;
    assert [c][..0] == [] && |[c]| == 1;
    assert LastHash(ix.auditHead, [c]) == ix.auditHead && AuditRows([c]) == 0;
  }

  /** Asking twice under one key creates once: whatever the second request says, it is given the first one's row. */
  lemma CreatedOnce(cf: Settings, ix: Index, now: Time, d: Deployment, source: string, later: Time, d': Deployment,
                    source': string)
    requires Coherent(ix) && d.idempotencyKey != "" && d'.idempotencyKey == d.idempotencyKey
    requires !Decide(cf, ix, now, Create(d, source)).Refuse?
    ensures var ix' := Next(cf, ix, now, Create(d, source));
            && d.idempotencyKey in ix'.byIdemKey && ix'.byIdemKey[d.idempotencyKey] in ix'.deployments
            && (d.idempotencyKey !in ix.byIdemKey ==> ix'.byIdemKey[d.idempotencyKey] == d.id)
            && Decide(cf, ix', later, Create(d', source')).Keep?
            && Next(cf, ix', later, Create(d', source')) == ix'
  {
    hide Decide, Next, AuditedBy, SameOutbox;
    CreatePromise(cf, ix, now, d, source);
    var ix' := Next(cf, ix, now, Create(d, source));
    KnownKeyKeeps(cf, ix', later, d', source');
  }

  lemma KnownKeyKeeps(cf: Settings, ix: Index, now: Time, d: Deployment, source: string)
    requires d.idempotencyKey != "" && d.idempotencyKey in ix.byIdemKey
    ensures Decide(cf, ix, now, Create(d, source)).Keep? && Next(cf, ix, now, Create(d, source)) == ix
  {
    NothingApplied(ix);
  }

  /** The lease that a deployment's target is under is its own, no newer than its token, and has not run out. */
  ghost predicate UnderLease(ix: Index, d: Deployment, fence: int, now: Time) {
    var r := "app:" + d.app + "/env:" + d.environment;
    && r in ix.leases && ix.leases[r].holder == d.id && ix.leases[r].fenceToken <= fence
    && now < ix.leases[r].expiresAt
  }

  /**
    * When a transition is accepted: the row is in the state it is expected in, the table has the move,
    * and, unless it ends a deployment that has not begun, it is made under the row's own live lease.
    */
  lemma TransitionAccepted(cf: Settings, ix: Index, now: Time, op: Op)
    requires Coherent(ix) && op.Transition?
    ensures Decide(cf, ix, now, op).Write? <==>
              && op.id in ix.deployments && ix.deployments[op.id].state == op.from
              && CanTransition(op.from, op.to)
              && (op.from != Pending || op.to == Preflight ==> UnderLease(ix, ix.deployments[op.id], op.fence, now))
    ensures !Decide(cf, ix, now, op).Write? ==>
              && Next(cf, ix, now, op) == ix
              && Decide(cf, ix, now, op) == Refuse(
                   if op.id !in ix.deployments then NotFound
                   else if ix.deployments[op.id].state != op.from then
                     UnexpectedState(op.from, ix.deployments[op.id].state)
                   else if !CanTransition(op.from, op.to) then IllegalTransition(op.from, op.to)
                   else StaleFence)
  {
    hide TransitionRows, CanTransition, Guarded;
    NothingApplied(ix);
    if op.id in ix.deployments {
      RowNamed(ix, op.id);
    }
    if CanTransition(op.from, op.to) {
      NeedsLease(op.from, op.to);
    }
  }

  /** The note as the outbox has it: numbered, due as asked for or at once, its contents untouched. */
  ghost predicate Posted(n: OutboxEntry, id: int, now: Time, note: OutboxEntry) {
    && n.id == id && n.createdAt == (if note.createdAt == 0 then now else note.createdAt)
    && n.nextAttempt == (if note.nextAttempt == 0 then n.createdAt else note.nextAttempt)
    && n.notifier == note.notifier && n.payload == note.payload && n.dedupeKey == note.dedupeKey
    && n.attempts == note.attempts && n.deliveredAt == note.deliveredAt && n.lastError == note.lastError
  }

  ghost predicate Announced(ix: Index, ix': Index, now: Time, notes: seq<OutboxEntry>) {
    && |ix'.outbox| == |ix.outbox| + |notes| && ix.outbox <= ix'.outbox && ix'.outboxSeq == ix.outboxSeq + |notes|
    && forall i :: 0 <= i < |notes| ==>
         Posted(ix'.outbox[|ix.outbox| + i], ix.outboxSeq + 1 + i, now, notes[i])
  }

  /** What an accepted transition does: the state and the times of its own row, its audit entry, its notes. */
  lemma TransitionPromise(cf: Settings, ix: Index, now: Time, op: Op)
    requires Coherent(ix) && op.Transition? && op.id in ix.deployments && Decide(cf, ix, now, op).Write?
    ensures var ix', row := Next(cf, ix, now, op), ix.deployments[op.id];
            && ix'.deployments == ix.deployments[op.id :=
                 row.(state := op.to, updatedAt := now,
                      finishedAt := if op.to in {Succeeded, RolledBack, RollbackFailed, Failed, Aborted, Unknown}
                                    then Some(now) else row.finishedAt)]
            && ix'.order == ix.order && ix'.byIdemKey == ix.byIdemKey && ix'.leases == ix.leases
            && (op.entry.None? ==> SameAudit(ix, ix'))
            && (op.entry.Some? ==>
                  var e := op.entry.value;
                  AuditedBy(ix, ix', if e.at == 0 then now else e.at, e.actor, e.action,
                            if e.resource == "" then row.Resource() else e.resource, e.detail))
            && Announced(ix, ix', now, op.notes)
  {
    hide Decide, TransitionRows, Deployment.Resource, NextEntry, WithNotes, WithEntries, ApplyAll, Coherent, Completed,
         AuditedBy, Announced;
    TransitionAccepted(cf, ix, now, op);
    var row := ix.deployments[op.id];
    RowIsHome(ix, op.id);
    WritesRows(cf, ix, now, op);
    TransitionIndex(cf, ix, now, row, op.to, op.entry, op.notes);
    var ix1 := ix.(deployments := ix.deployments[op.id := Moved(row, op.to, now)]);
    EntriesAdded(cf, ix, ix1, now, row, op.to, op.entry, op.notes);
  }

  lemma RowIsHome(ix: Index, id: string)
    requires Coherent(ix) && id in ix.deployments
    ensures ix.deployments[id].id == id && KeyLeadsHome(ix, ix.deployments[id])
  {
  }

  lemma WritesRows(cf: Settings, ix: Index, now: Time, op: Op)
    requires op.Transition? && Decide(cf, ix, now, op).Write?
    ensures Next(cf, ix, now, op)
         == ApplyAll(ix, TransitionRows(cf, ix, now, ix.deployments[op.id], op.to, op.entry, op.notes))
  {
    hide ApplyAll, TransitionRows;
  }

  lemma EntriesAdded(cf: Settings, ix: Index, ix1: Index, now: Time, row: Deployment, to: State, entry: Option<Draft>,
                     notes: seq<OutboxEntry>)
    requires SameAudit(ix, ix1) && SameOutbox(ix, ix1)
    ensures var ix' := WithNotes(WithEntries(ix1, Linked(cf, ix, now, row, to, entry)), notes, now);
            && SameRows(ix1, ix') && ix'.leases == ix1.leases
            && (entry.None? ==> SameAudit(ix, ix'))
            && (entry.Some? ==>
                  var e := entry.value;
                  AuditedBy(ix, ix', if e.at == 0 then now else e.at, e.actor, e.action,
                            if e.resource == "" then row.Resource() else e.resource, e.detail))
            && Announced(ix, ix', now, notes)
  {
    hide Deployment.Resource, Moved, NextEntry;
    if entry.Some? {
      FirstEntry(cf.hasher, ix, DeploymentRow(Moved(row, to, now)), Completed(entry.value, row, now));
    }
  }

  /** A rewrite takes the caller's copy, but never moves the state. */
  lemma UpdatePromise(cf: Settings, ix: Index, now: Time, d: Deployment)
    requires Coherent(ix)
    ensures var decision, ix' := Decide(cf, ix, now, Update(d)), Next(cf, ix, now, Update(d));
            if d.id !in ix.deployments then decision == Refuse(NotFound) && ix' == ix
            else if ix.deployments[d.id].state != d.state then decision == Refuse(StateChange) && ix' == ix
            else
              && decision.Write? && ix'.deployments == ix.deployments[d.id := d.(updatedAt := now)]
              && ix'.order == ix.order && ix'.leases == ix.leases && SameAudit(ix, ix') && SameOutbox(ix, ix')
  {
    hide Coherent;
    NothingApplied(ix);
    var row := DeploymentRow(d.(updatedAt := now));
    ApplyTwo(ix, row, row);
  }

  // ------------------------------------------------------- leases

  /** A target is granted to whoever asks when nobody holds it, to its holder again as it is, and else to nobody. */
  lemma AcquirePromise(cf: Settings, ix: Index, now: Time, r: string, holder: string, node: string)
    ensures var op := Acquire(r, holder, node);
            var decision, ix' := Decide(cf, ix, now, op), Next(cf, ix, now, op);
            var held := r in ix.leases && ix.leases[r].holder != "" && now < ix.leases[r].expiresAt;
            if held && ix.leases[r].holder == holder then decision == Keep(ix.leases[r].fenceToken) && ix' == ix
            else if held then
              decision == Refuse(LeaseHeld(ix.leases[r].holder, ix.leases[r].expiresAt)) && ix' == ix
            else
              && decision.Write?
              && ix'.leases == ix.leases[r := Lease(r, holder, node, now, now + cf.leaseTTL,
                                                    if r in ix.leases then ix.leases[r].fenceToken + 1 else 1)]
              && SameRows(ix, ix') && SameAudit(ix, ix') && SameOutbox(ix, ix')
  {
    NothingApplied(ix);
    var group := Writes(cf, ix, now, Acquire(r, holder, node));
    if group != [] {
      ApplyTwo(ix, group[0], group[0]);
    }
  }

  /** Only the holder renews, under its own token and in time; nothing but the expiry moves. */
  lemma RenewPromise(cf: Settings, ix: Index, now: Time, r: string, holder: string, fence: int)
    requires Coherent(ix)
    ensures var op := Renew(r, holder, fence);
            var decision, ix' := Decide(cf, ix, now, op), Next(cf, ix, now, op);
            if r in ix.leases && ix.leases[r].holder == holder && ix.leases[r].fenceToken == fence
               && now < ix.leases[r].expiresAt then
              && decision.Write? && ix'.leases == ix.leases[r := ix.leases[r].(expiresAt := now + cf.leaseTTL)]
              && SameRows(ix, ix') && SameAudit(ix, ix') && SameOutbox(ix, ix')
            else decision == Refuse(StaleFence) && ix' == ix
  {
    NothingApplied(ix);
    var group := Writes(cf, ix, now, Renew(r, holder, fence));
    if group != [] {
      ApplyTwo(ix, group[0], group[0]);
    }
  }

  /** The holder's release leaves the lease to nobody, its token kept; anybody else's changes nothing. */
  lemma ReleasePromise(cf: Settings, ix: Index, now: Time, r: string, holder: string)
    requires Coherent(ix)
    ensures var decision, ix' := Decide(cf, ix, now, Release(r, holder)), Next(cf, ix, now, Release(r, holder));
            && !decision.Refuse?
            && if r in ix.leases && ix.leases[r].holder == holder then
                 && ix'.leases == ix.leases[r := ix.leases[r].(holder := "", expiresAt := now)]
                 && SameRows(ix, ix') && SameAudit(ix, ix') && SameOutbox(ix, ix')
               else ix' == ix
  {
    NothingApplied(ix);
    var group := Writes(cf, ix, now, Release(r, holder));
    if group != [] {
      ApplyTwo(ix, group[0], group[0]);
    }
  }

  /** A break leaves the lease to nobody, whoever held it, and says so in the audit log. */
  lemma BreakPromise(cf: Settings, ix: Index, now: Time, r: string, actor: string)
    requires Coherent(ix)
    ensures var decision, ix' := Decide(cf, ix, now, Break(r, actor)), Next(cf, ix, now, Break(r, actor));
            if r !in ix.leases then decision == Refuse(NotFound) && ix' == ix
            else
              && decision.Write? && ix'.leases == ix.leases[r := ix.leases[r].(holder := "", expiresAt := now)]
              && AuditedBy(ix, ix', now, actor, "lease.broken", r, map["previous_holder" := ix.leases[r].holder])
              && SameRows(ix, ix') && SameOutbox(ix, ix')
  {
    hide ApplyAll;
    NothingApplied(ix);
    if r in ix.leases {
      var l := ix.leases[r].(expiresAt := now);
      var draft := BrokenDraft(r, actor, ix.leases[r].holder, now);
      BrokenIndex(ix, l, NextEntry(cf.hasher, ix, [LeaseReleaseRow(l)], draft));
      FirstEntry(cf.hasher, ix, LeaseReleaseRow(l), draft);
      assert Writes(cf, ix, now, Break(r, actor))
          == [LeaseReleaseRow(l), AuditRow(NextEntry(cf.hasher, ix, [LeaseReleaseRow(l)], draft))];
    }
  }

  // ------------------------------------------------------- audit and outbox

  lemma AuditPromise(cf: Settings, ix: Index, now: Time, d: Draft)
    ensures var decision, ix' := Decide(cf, ix, now, AppendAudit(d)), Next(cf, ix, now, AppendAudit(d));
            && decision.Write?
            && AuditedBy(ix, ix', if d.at == 0 then now else d.at, d.actor, d.action, d.resource, d.detail)
            && SameRows(ix, ix') && ix'.leases == ix.leases && SameOutbox(ix, ix')
  {
    var group := Writes(cf, ix, now, AppendAudit(d));
    ApplyTwo(ix, group[0], group[0]);
    FirstEntry(cf.hasher, ix, OtherRow(""), d.(at := if d.at == 0 then now else d.at));
  }

  lemma EnqueuePromise(cf: Settings, ix: Index, now: Time, note: OutboxEntry)
    ensures var decision, ix' := Decide(cf, ix, now, Enqueue(note)), Next(cf, ix, now, Enqueue(note));
            && decision.Write? && Announced(ix, ix', now, [note])
            && SameRows(ix, ix') && ix'.leases == ix.leases && SameAudit(ix, ix')
  {
    hide ApplyAll;
    ApplyNotes(ix, [note], now);
  }

  /** A mark reaches the one entry with its id: delivered and its error cleared, or counted and due again later. */
  lemma MarkPromise(cf: Settings, ix: Index, now: Time, id: int, m: Mark)
    requires Coherent(ix)
    ensures var decision, ix' := Decide(cf, ix, now, MarkNote(id, m)), Next(cf, ix, now, MarkNote(id, m));
            && (decision.Refuse? <==> forall k :: 0 <= k < |ix.outbox| ==> ix.outbox[k].id != id)
            && (decision.Refuse? ==> decision == Refuse(NotFound) && ix' == ix)
            && (!decision.Refuse? ==>
                  && SameRows(ix, ix') && ix'.leases == ix.leases && SameAudit(ix, ix')
                  && |ix'.outbox| == |ix.outbox| && ix'.outboxSeq == ix.outboxSeq
                  && forall k :: 0 <= k < |ix.outbox| ==>
                       Noted(ix.outbox[k], ix'.outbox[k], now, id, m))
  {
    hide ApplyAll, Marked, Noted;
    NothingApplied(ix);
    var k := FindNote(ix.outbox, id);
    if k < |ix.outbox| {
      MarkIndex(ix, k, m, now);
      forall j | 0 <= j < |ix.outbox|
        ensures Noted(ix.outbox[j], ix.outbox[k := Marked(ix.outbox[k], m, now)][j], now, id, m)
      {
        MarkNotes(ix.outbox[j], now, id, m);
        assert j != k ==> ix.outbox[j].id != id;
      }
    }
  }

  lemma MarkNotes(e: OutboxEntry, now: Time, id: int, m: Mark)
    ensures Noted(e, if e.id == id then Marked(e, m, now) else e, now, id, m)
  {
    hide Backoff;
    Delays(e.attempts + 1);
  }

  ghost predicate Noted(e: OutboxEntry, e': OutboxEntry, now: Time, id: int, m: Mark) {
    if e.id != id then e' == e
    else
      && e'.id == e.id && e'.createdAt == e.createdAt && e'.notifier == e.notifier && e'.payload == e.payload
      && e'.dedupeKey == e.dedupeKey
      && (m.Sent? ==>
            e'.deliveredAt == Some(now) && e'.lastError == "" && e'.attempts == e.attempts
            && e'.nextAttempt == e.nextAttempt)
      && (m.NotSent? ==>
            && e'.deliveredAt == e.deliveredAt && e'.lastError == m.cause && e'.attempts == e.attempts + 1
            && now + 2000 <= e'.nextAttempt <= now + 256000)
  }

  lemma Delays(n: nat)
    requires n > 0
    ensures 2000 <= Backoff(n) <= 256000
  {
    PowerGrows(1, if n < 8 then n else 8);
    PowerGrows(if n < 8 then n else 8, 8);
    assert Power2(1) == 2 && Power2(4) == 16;
  }

  lemma {:induction false} PowerGrows(m: nat, n: nat)
    requires m <= n
    ensures Power2(m) <= Power2(n)
    decreases n
  {
    if m < n {
      PowerGrows(m, n - 1);
    }
  }
}
