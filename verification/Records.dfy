/** The rows of the store, the journal's record contents, and the index they rebuild. */
module Records {
  import opened Prelude
  import opened Lifecycle

  datatype Deployment = Deployment(
    id: string, app: string, environment: string, version: string, previousVersion: string,
    state: State, idempotencyKey: string, triggeredBy: string, providerHandle: string,
    isRollback: bool, createdAt: Time, updatedAt: Time, finishedAt: Option<Time>,
    error: string, fence: int)
  {
    /** The lease key of the deployment's target. */
    function Resource(): string {
      "app:" + app + "/env:" + environment
    }
  }

  datatype Lease = Lease(
    resource: string, holder: string, ownerNode: string,
    acquiredAt: Time, expiresAt: Time, fenceToken: int)
  {
    predicate Expired(now: Time) {
      expiresAt <= now
    }

    /** Held by someone and not expired. */
    predicate Live(now: Time) {
      holder != "" && !Expired(now)
    }
  }

  datatype AuditEntry = AuditEntry(
    id: int, at: Time, actor: string, action: string, resource: string,
    detail: map<string, string>, prevHash: string, hash: string)

  /** The consumer's dedupe key; the source joins the three parts with colons. */
  datatype DedupeKey = NoKey | NoteKey(deployment: string, to: State, notifier: string)

  datatype OutboxEntry = OutboxEntry(
    id: int, createdAt: Time, notifier: string, payload: string, attempts: nat,
    nextAttempt: Time, deliveredAt: Option<Time>, lastError: string, dedupeKey: DedupeKey)
  {
    predicate Delivered() {
      deliveredAt.Some?
    }
  }

  /**
    * What one journal record says, apart from its sequence number. Steps, health samples, approvals
    * and freezes go to tables that nothing here reads.
    */
  datatype Change =
    | DeploymentRow(deployment: Deployment)
    | LeaseRow(lease: Lease)
    | LeaseReleaseRow(released: Lease)
    | AuditRow(entry: AuditEntry)
    | OutboxRow(note: OutboxEntry)
    | OutboxStateRow(update: OutboxEntry)
    | OtherRow(text: string)

  /** The previous hash of the first audit entry: sixty-four zeros. */
  const GENESIS := Zeros(64)

  function Zeros(n: nat): string {
    if n == 0 then "" else "0" + Zeros(n - 1)
  }

  /** The in-memory index. */
  datatype Index = Index(
    deployments: map<string, Deployment>, order: seq<string>, byIdemKey: map<string, string>,
    leases: map<string, Lease>, audit: seq<AuditEntry>, auditHead: string,
    outbox: seq<OutboxEntry>, outboxSeq: int)

  const EMPTY_INDEX := Index(map[], [], map[], map[], [], GENESIS, [], 0)

  function Delivery(e: OutboxEntry, u: OutboxEntry): OutboxEntry {
    if e.id != u.id then e
    else e.(attempts := u.attempts, nextAttempt := u.nextAttempt,
            deliveredAt := u.deliveredAt, lastError := u.lastError)
  }

  /** How replay changes the index for one record; a function of the record alone. */
  function ApplyRecord(ix: Index, c: Change): Index {
    match c
    case DeploymentRow(d) =>
      ix.(order := if d.id in ix.deployments then ix.order else ix.order + [d.id],
          deployments := ix.deployments[d.id := d],
          byIdemKey := if d.idempotencyKey == "" then ix.byIdemKey
                       else ix.byIdemKey[d.idempotencyKey := d.id])
    case LeaseRow(l) =>
      ix.(leases := ix.leases[l.resource := l])
    case LeaseReleaseRow(l) =>
      if l.resource in ix.leases && ix.leases[l.resource].holder == l.holder then
        ix.(leases := ix.leases[l.resource :=
              ix.leases[l.resource].(expiresAt := l.expiresAt, holder := "")])
      else ix
    case AuditRow(a) =>
      ix.(audit := ix.audit + [a], auditHead := a.hash)
    case OutboxRow(o) =>
      ix.(outbox := ix.outbox + [o], outboxSeq := Max(ix.outboxSeq, o.id))
    case OutboxStateRow(o) =>
      ix.(outbox := seq(|ix.outbox|, i requires 0 <= i < |ix.outbox| => Delivery(ix.outbox[i], o)))
    case OtherRow(_) => ix
  }

  /** The index after a sequence of records. */
  function ApplyAll(ix: Index, cs: seq<Change>): Index {
    if cs == [] then ix
    else ApplyRecord(ApplyAll(ix, cs[..|cs| - 1]), cs[|cs| - 1])
  }

  lemma {:induction false} ApplyAllConcat(ix: Index, a: seq<Change>, b: seq<Change>)
    ensures ApplyAll(ix, a + b) == ApplyAll(ApplyAll(ix, a), b)
  {
    if b == [] {
      assert a + b == a;
    } else {
      var b' := b[..|b| - 1];
      assert (a + b)[..|a + b| - 1] == a + b';
      ApplyAllConcat(ix, a, b');
    }
  }
}
