/**
  * What each store operation decides, as a function of the index, the clock and the arguments:
  * refuse, answer without writing, or write one group of records. Class Store carries these
  * decisions out; the run theorems are about sequences of them.
  */
module Decisions {
  import opened Prelude
  import opened Lifecycle
  import opened Records
  import opened AuditChain

  datatype StoreError =
    | NotFound | AlreadyExists | UnexpectedState(want: State, got: State)
    | IllegalTransition(from: State, to: State) | StaleFence
    | LeaseHeld(holder: string, until: Time) | StateChange | JournalFailed

  datatype Decision = Refuse(error: StoreError) | Keep(token: int) | Write(group: seq<Change>)

  datatype Settings = Settings(hasher: Hasher, leaseTTL: int)

  datatype Op =
    | Create(row: Deployment, source: string)
    | Transition(id: string, fence: int, from: State, to: State,
                 entry: Option<Draft>, notes: seq<OutboxEntry>)
    | Update(row: Deployment)
    | Acquire(resource: string, holder: string, node: string)
    | Renew(resource: string, holder: string, fence: int)
    | Release(resource: string, holder: string)
    | Break(resource: string, actor: string)
    | AppendAudit(draft: Draft)
    | Enqueue(note: OutboxEntry)
    | MarkNote(noteId: int, mark: Mark)
    | Record(text: string)

  // -------------------------------------------------------------- audit rows

  function LastHash(head: string, recs: seq<Change>): string {
    if recs == [] then head
    else if recs[|recs| - 1].AuditRow? then recs[|recs| - 1].entry.hash
    else LastHash(head, recs[..|recs| - 1])
  }

  function AuditRows(recs: seq<Change>): nat {
    if recs == [] then 0
    else AuditRows(recs[..|recs| - 1]) + (if recs[|recs| - 1].AuditRow? then 1 else 0)
  }

  /** The next audit entry of a transaction that already holds recs. */
  function NextEntry(h: Hasher, ix: Index, recs: seq<Change>, d: Draft): AuditEntry {
    Link(h, LastHash(ix.auditHead, recs), |ix.audit| + 1 + AuditRows(recs), d)
  }

  // -------------------------------------------------------------- deployments

  function NewRow(d: Deployment, now: Time): Deployment {
    d.(createdAt := if d.createdAt == 0 then now else d.createdAt, updatedAt := now)
  }

  function CreatedDraft(d: Deployment, source: string, now: Time): Draft {
    Draft(now, d.triggeredBy, "deployment.created", d.Resource(),
          map["deployment" := d.id, "version" := d.version, "source" := source])
  }

  function DecideCreate(cf: Settings, ix: Index, now: Time, d: Deployment, source: string): Decision {
    if d.idempotencyKey != "" && d.idempotencyKey in ix.byIdemKey then Keep(0)
    else if d.id in ix.deployments then Refuse(AlreadyExists)
    else
      var recs := [DeploymentRow(NewRow(d, now))];
      Write(recs + [AuditRow(NextEntry(cf.hasher, ix, recs, CreatedDraft(d, source, now)))])
  }

  /** The lease check of a guarded transition: recorded, not newer, same holder, not expired. */
  predicate FenceOk(ix: Index, resource: string, holder: string, fence: int, now: Time) {
    && resource in ix.leases
    && ix.leases[resource].fenceToken <= fence
    && ix.leases[resource].holder == holder
    && !ix.leases[resource].Expired(now)
  }

  predicate Guarded(from: State, to: State) {
    RequiresLease(to) || RequiresLease(from)
  }

  /** Of the legal moves, all need the lease but those that end a deployment before it began. */
  lemma NeedsLease(from: State, to: State)
    requires CanTransition(from, to)
    ensures Guarded(from, to) <==> from != Pending || to == Preflight
  {
  }

  function Moved(d: Deployment, to: State, now: Time): Deployment {
    d.(state := to, updatedAt := now, finishedAt := if IsTerminal(to) then Some(now) else d.finishedAt)
  }

  function Completed(e: Draft, d: Deployment, now: Time): Draft {
    e.(at := if e.at == 0 then now else e.at,
       resource := if e.resource == "" then d.Resource() else e.resource)
  }

  /** A note numbered and stamped as enqueueTx does it. */
  function Stamped(e: OutboxEntry, id: int, now: Time): OutboxEntry {
    var created := if e.createdAt == 0 then now else e.createdAt;
    e.(id := id, createdAt := created, nextAttempt := if e.nextAttempt == 0 then created else e.nextAttempt)
  }

  /** Outbox records for notes, numbered on from top. */
  function NoteRows(notes: seq<OutboxEntry>, top: int, now: Time): (rows: seq<Change>)
    ensures |rows| == |notes|
  {
    seq(|notes|, i requires 0 <= i < |notes| => OutboxRow(Stamped(notes[i], top + 1 + i, now)))
  }

  function TransitionRows(cf: Settings, ix: Index, now: Time, d: Deployment, to: State,
                          entry: Option<Draft>, notes: seq<OutboxEntry>): seq<Change>
  {
    var row := [DeploymentRow(Moved(d, to, now))];
    row + (if entry.None? then []
           else [AuditRow(NextEntry(cf.hasher, ix, row, Completed(entry.value, d, now)))])
        + NoteRows(notes, ix.outboxSeq, now)
  }

  /** Why a transition is refused, if it is. */
  function Refusal(ix: Index, now: Time, id: string, fence: int, from: State, to: State): Option<StoreError> {
    if id !in ix.deployments then Some(NotFound)
    else
      var d := ix.deployments[id];
      if d.state != from then Some(UnexpectedState(from, d.state))
      else if !CanTransition(from, to) then Some(IllegalTransition(from, to))
      else if Guarded(from, to) && !FenceOk(ix, d.Resource(), id, fence, now) then Some(StaleFence)
      else None
  }

  lemma RefusesUnknown(ix: Index, now: Time, id: string, fence: int, from: State, to: State)
    requires Refusal(ix, now, id, fence, from, to).None?
    ensures id in ix.deployments && ix.deployments[id].state == from && CanTransition(from, to)
  {
  }

  function DecideTransition(cf: Settings, ix: Index, now: Time, id: string, fence: int, from: State, to: State,
                            entry: Option<Draft>, notes: seq<OutboxEntry>): Decision
  {
    match Refusal(ix, now, id, fence, from, to)
    case Some(e) => Refuse(e)
    case None => Write(TransitionRows(cf, ix, now, ix.deployments[id], to, entry, notes))
  }

  function DecideUpdate(ix: Index, now: Time, d: Deployment): Decision {
    if d.id !in ix.deployments then Refuse(NotFound)
    else if ix.deployments[d.id].state != d.state then Refuse(StateChange)
    else Write([DeploymentRow(d.(updatedAt := now))])
  }

  // -------------------------------------------------------------- leases

  /** The highest token granted on a resource so far. */
  function Token(ix: Index, resource: string): int {
    if resource in ix.leases then ix.leases[resource].fenceToken else 0
  }

  function DecideAcquire(cf: Settings, ix: Index, now: Time, resource: string, holder: string, node: string): Decision {
    if resource in ix.leases && ix.leases[resource].Live(now) then
      var cur := ix.leases[resource];
      if cur.holder == holder then Keep(cur.fenceToken) else Refuse(LeaseHeld(cur.holder, cur.expiresAt))
    else
      Write([LeaseRow(Lease(resource, holder, node, now, now + cf.leaseTTL, Token(ix, resource) + 1))])
  }

  function DecideRenew(cf: Settings, ix: Index, now: Time, resource: string, holder: string, fence: int): Decision {
    if resource !in ix.leases then Refuse(StaleFence)
    else
      var cur := ix.leases[resource];
      if cur.holder != holder || cur.fenceToken != fence || cur.Expired(now) then Refuse(StaleFence)
      else Write([LeaseRow(cur.(expiresAt := now + cf.leaseTTL))])
  }

  function DecideRelease(ix: Index, now: Time, resource: string, holder: string): Decision {
    if resource !in ix.leases || ix.leases[resource].holder != holder then Keep(0)
    else Write([LeaseReleaseRow(ix.leases[resource].(expiresAt := now))])
  }

  function BrokenDraft(resource: string, actor: string, holder: string, now: Time): Draft {
    Draft(now, actor, "lease.broken", resource, map["previous_holder" := holder])
  }

  function DecideBreak(cf: Settings, ix: Index, now: Time, resource: string, actor: string): Decision {
    if resource !in ix.leases then Refuse(NotFound)
    else
      var recs := [LeaseReleaseRow(ix.leases[resource].(expiresAt := now))];
      var draft := BrokenDraft(resource, actor, ix.leases[resource].holder, now);
      Write(recs + [AuditRow(NextEntry(cf.hasher, ix, recs, draft))])
  }

  // -------------------------------------------------------------- audit, outbox

  function DecideAudit(cf: Settings, ix: Index, now: Time, d: Draft): Decision {
    Write([AuditRow(NextEntry(cf.hasher, ix, [], d.(at := if d.at == 0 then now else d.at)))])
  }

  /** Position of the first entry with an id, or the length when there is none. */
  function FindNote(outbox: seq<OutboxEntry>, id: int): (k: nat)
    ensures k <= |outbox| && (forall i :: 0 <= i < k ==> outbox[i].id != id)
    ensures k < |outbox| ==> outbox[k].id == id
  {
    if outbox == [] || outbox[0].id == id then 0
    else 1 + FindNote(outbox[1..], id)
  }

  const SECOND := 1000

  /** Two to the power of the attempt count, the exponent capped at eight; in seconds, capped at five minutes. */
  function Backoff(attempts: nat): int {
    var d := Power2(if attempts < 8 then attempts else 8) * SECOND;
    if d > 300 * SECOND then 300 * SECOND else d
  }

  function Power2(n: nat): (p: nat)
    ensures p > 0
  {
    if n == 0 then 1 else 2 * Power2(n - 1)
  }

  /** What a delivery attempt records about an entry. */
  datatype Mark = Sent | NotSent(cause: string)

  function Marked(e: OutboxEntry, m: Mark, now: Time): OutboxEntry {
    match m
    case Sent => e.(deliveredAt := Some(now), lastError := "")
    case NotSent(cause) =>
      e.(attempts := e.attempts + 1, lastError := cause, nextAttempt := now + Backoff(e.attempts + 1))
  }

  function DecideMark(ix: Index, now: Time, id: int, m: Mark): Decision {
    var k := FindNote(ix.outbox, id);
    if k == |ix.outbox| then Refuse(NotFound)
    else Write([OutboxStateRow(Marked(ix.outbox[k], m, now))])
  }

  // -------------------------------------------------------------- dispatch

  function Decide(cf: Settings, ix: Index, now: Time, op: Op): Decision {
    match op
    case Create(d, source) => DecideCreate(cf, ix, now, d, source)
    case Transition(id, fence, from, to, entry, notes) =>
      DecideTransition(cf, ix, now, id, fence, from, to, entry, notes)
    case Update(d) => DecideUpdate(ix, now, d)
    case Acquire(resource, holder, node) => DecideAcquire(cf, ix, now, resource, holder, node)
    case Renew(resource, holder, fence) => DecideRenew(cf, ix, now, resource, holder, fence)
    case Release(resource, holder) => DecideRelease(ix, now, resource, holder)
    case Break(resource, actor) => DecideBreak(cf, ix, now, resource, actor)
    case AppendAudit(d) => DecideAudit(cf, ix, now, d)
    case Enqueue(e) => Write(NoteRows([e], ix.outboxSeq, now))
    case MarkNote(id, m) => DecideMark(ix, now, id, m)
    case Record(text) => Write([OtherRow(text)])
  }

  /** The records an operation commits: none unless it decides to write. */
  function Writes(cf: Settings, ix: Index, now: Time, op: Op): seq<Change> {
    match Decide(cf, ix, now, op)
    case Write(group) => group
    case _ => []
  }

  function Next(cf: Settings, ix: Index, now: Time, op: Op): Index {
    ApplyAll(ix, Writes(cf, ix, now, op))
  }

  function NotesIn(cs: seq<Change>): nat {
    if cs == [] then 0 else NotesIn(cs[..|cs| - 1]) + if cs[|cs| - 1].OutboxRow? then 1 else 0
  }

  /** The index after a write that the journal did not take: outbox numbers are used up, nothing else happens. */
  function Burned(ix: Index, group: seq<Change>): Index {
    ix.(outboxSeq := ix.outboxSeq + NotesIn(group))
  }
}
