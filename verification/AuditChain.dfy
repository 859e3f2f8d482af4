/** The audit hash chain: the parts of store/store.go between appendAuditTx and VerifyAudit. */
module AuditChain {
  import opened Prelude
  import opened Records
  import opened Strings

  /** SHA-256 in hexadecimal and the RFC 3339 rendering of an instant, neither looked into. */
  datatype Hasher = Hasher(digest: string -> string, formatTime: Time -> string)

  /** An entry before it is numbered and linked. */
  datatype Draft = Draft(at: Time, actor: string, action: string, resource: string, detail: map<string, string>)

  /** The detail map as auditHash renders it: "|key=value" for each key in ascending order. */
  function RenderDetail(m: map<string, string>): string
    decreases |m|
  {
    if m == map[] then ""
    else
      var k := Least(m.Keys);
      assert |m - {k}| < |m| by { assert (m - {k}).Keys == m.Keys - {k}; }
      "|" + k + "=" + m[k] + RenderDetail(m - {k})
  }

  /** The hashed text of an entry that follows an entry with hash prev. */
  function Payload(h: Hasher, prev: string, e: AuditEntry): string {
    prev + "|" + h.formatTime(e.at) + "|" + e.actor + "|" + e.action + "|" + e.resource
    + RenderDetail(e.detail)
  }

  function AuditHash(h: Hasher, prev: string, e: AuditEntry): string {
    h.digest(Payload(h, prev, e))
  }

  /** The draft linked behind an entry with hash prev, as entry number id. */
  function Link(h: Hasher, prev: string, id: int, d: Draft): AuditEntry {
    var e := AuditEntry(id, d.at, d.actor, d.action, d.resource, d.detail, prev, "");
    e.(hash := AuditHash(h, prev, e))
  }
}
