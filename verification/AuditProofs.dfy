/** The audit chain over whole runs, and what an anchored head hash proves. */
module AuditProofs {
  import opened Prelude
  import opened Records
  import opened Strings
  import opened AuditChain
  import opened Decisions
  import opened Runs

  function HeadOf(audit: seq<AuditEntry>): string {
    if audit == [] then GENESIS else audit[|audit| - 1].hash
  }

  /** Every entry carries its predecessor's hash and its own recomputed one. */
  ghost predicate ChainLinked(h: Hasher, audit: seq<AuditEntry>) {
    forall i :: 0 <= i < |audit| ==>
      && audit[i].prevHash == HeadOf(audit[..i])
      && audit[i].hash == AuditHash(h, audit[i].prevHash, audit[i])
  }

  predicate InOrder(audit: seq<AuditEntry>) {
    forall i :: 0 < i < |audit| ==> audit[i - 1].at <= audit[i].at
  }

  lemma HeadIs(audit: seq<AuditEntry>, i: nat)
    requires i < |audit|
    ensures HeadOf(audit[..i + 1]) == audit[i].hash
  {
  }

  /** The walk of `orch audit verify`. */
  method VerifyAudit(h: Hasher, audit: seq<AuditEntry>) returns (ok: bool)
    ensures ok <==> ChainLinked(h, audit) && InOrder(audit)
  {
    var prev := GENESIS;
    for i := 0 to |audit|
      invariant prev == HeadOf(audit[..i])
      invariant forall k :: 0 <= k < i ==>
        && audit[k].prevHash == HeadOf(audit[..k])
        && audit[k].hash == AuditHash(h, audit[k].prevHash, audit[k])
        && (k > 0 ==> audit[k - 1].at <= audit[k].at)
    {
      hide AuditHash, HeadOf;
      var e := audit[i];
      HeadIs(audit, i);
      if e.prevHash != prev {
        return false;
      }
      if AuditHash(h, prev, e) != e.hash {
        return false;
      }
      if i > 0 && e.at < audit[i - 1].at {
        return false;
      }
      prev := e.hash;
    }
    return true;
  }

  // -------------------------------------------------------- reachable chains

  function DraftOf(e: AuditEntry): Draft {
    Draft(e.at, e.actor, e.action, e.resource, e.detail)
  }

  /** A record, if it is an audit entry, is numbered and linked behind the index before it. */
  predicate LinkedBehind(h: Hasher, ix: Index, c: Change) {
    c.AuditRow? ==> c.entry == Link(h, ix.auditHead, |ix.audit| + 1, DraftOf(c.entry))
  }

  /** Entries of one transaction see the entries added before them in the same transaction. */
  lemma {:induction false} TransactionHead(ix: Index, recs: seq<Change>)
    ensures LastHash(ix.auditHead, recs) == ApplyAll(ix, recs).auditHead
    ensures |ix.audit| + AuditRows(recs) == |ApplyAll(ix, recs).audit|
  {
    if recs != [] {
      TransactionHead(ix, recs[..|recs| - 1]);
    }
  }

  /** So the next entry of a transaction is linked behind all that went before, however many there are. */
  lemma NextEntryLinked(h: Hasher, ix: Index, recs: seq<Change>, d: Draft)
    ensures LinkedBehind(h, ApplyAll(ix, recs), AuditRow(NextEntry(h, ix, recs, d)))
  {
    hide AuditHash, ApplyAll;
    TransactionHead(ix, recs);
  }

  lemma RecordLinked(h: Hasher, ix: Index, c: Change)
    requires ChainLinked(h, ix.audit) && ix.auditHead == HeadOf(ix.audit) && LinkedBehind(h, ix, c)
    ensures var ix' := ApplyRecord(ix, c);
            ChainLinked(h, ix'.audit) && ix'.auditHead == HeadOf(ix'.audit)
  {
    hide Payload;
    var ix' := ApplyRecord(ix, c);
    if c.AuditRow? {
      SelfHash(h, ix.auditHead, c.entry);
      forall i | 0 <= i < |ix'.audit|
        ensures ix'.audit[i].prevHash == HeadOf(ix'.audit[..i])
             && ix'.audit[i].hash == AuditHash(h, ix'.audit[i].prevHash, ix'.audit[i])
      {
        if i < |ix.audit| {
          assert ix'.audit[..i] == ix.audit[..i];
        } else {
          assert ix'.audit[..i] == ix.audit;
        }
      }
    }
  }

  lemma SelfHash(h: Hasher, prev: string, e: AuditEntry)
    requires e == Link(h, prev, e.id, DraftOf(e))
    ensures e.hash == AuditHash(h, prev, e) && e.prevHash == prev
  {
  }

  lemma {:induction false} GroupLinked(h: Hasher, ix: Index, cs: seq<Change>)
    requires ChainLinked(h, ix.audit) && ix.auditHead == HeadOf(ix.audit)
    requires forall k :: 0 <= k < |cs| ==> LinkedBehind(h, ApplyAll(ix, cs[..k]), cs[k])
    ensures var ix' := ApplyAll(ix, cs);
            ChainLinked(h, ix'.audit) && ix'.auditHead == HeadOf(ix'.audit)
  {
    hide LinkedBehind, ChainLinked, ApplyRecord;
    if cs != [] {
      var init := cs[..|cs| - 1];
      forall k | 0 <= k < |init| ensures LinkedBehind(h, ApplyAll(ix, init[..k]), init[k]) {
        assert init[..k] == cs[..k];
      }
      GroupLinked(h, ix, init);
      RecordLinked(h, ApplyAll(ix, init), cs[|cs| - 1]);
    }
  }

  /** Every group the store writes links its entries. */
  lemma WritesLinked(cf: Settings, ix: Index, now: Time, op: Op, k: nat)
    requires k < |Writes(cf, ix, now, op)|
    ensures var cs := Writes(cf, ix, now, op);
            LinkedBehind(cf.hasher, ApplyAll(ix, cs[..k]), cs[k])
  {
    hide ApplyAll, NextEntry, Moved, Stamped, CreatedDraft, BrokenDraft, Marked, Refusal;
    var cs := Writes(cf, ix, now, op);
    if cs[k].AuditRow? {
      match op
      case Create(d, source) =>
        NextEntryLinked(cf.hasher, ix, [cs[0]], CreatedDraft(d, source, now));
        assert cs[..1] == [cs[0]];
      case Transition(id, fence, from, to, entry, notes) =>
        var d := cs[0].deployment;
        assert cs[..1] == [cs[0]];
        RefusesUnknown(ix, now, id, fence, from, to);
        NextEntryLinked(cf.hasher, ix, [cs[0]], Completed(entry.value, ix.deployments[id], now));
      case Break(resource, actor) =>
        NextEntryLinked(cf.hasher, ix, [cs[0]], BrokenDraft(resource, actor, ix.leases[resource].holder, now));
        assert cs[..1] == [cs[0]];
      case AppendAudit(d) =>
        NextEntryLinked(cf.hasher, ix, [], d.(at := if d.at == 0 then now else d.at));
        assert cs[..0] == [];
      case _ =>
    }
  }

  /**
    * Every reachable log is linked, whatever the callers did, so verification of a reachable log
    * fails exactly when the times it was given go backwards.
    */
  lemma {:induction false} ReachableChain(cf: Settings, ins: seq<Input>)
    ensures ChainLinked(cf.hasher, Exec(cf, EMPTY_INDEX, ins).audit)
    ensures Exec(cf, EMPTY_INDEX, ins).auditHead == HeadOf(Exec(cf, EMPTY_INDEX, ins).audit)
  {
    hide ChainLinked, LinkedBehind, Writes, ApplyAll, Effect;
    if ins == [] {
      NoEntries(cf.hasher);
    } else {
      var init, last := ins[..|ins| - 1], ins[|ins| - 1];
      ReachableChain(cf, init);
      var ix := Exec(cf, EMPTY_INDEX, init);
      var cs := Taken(cf, ix, last);
      EffectIs(cf, ix, last);
      forall k | 0 <= k < |cs| ensures LinkedBehind(cf.hasher, ApplyAll(ix, cs[..k]), cs[k]) {
        WritesLinked(cf, ix, last.now, last.op, k);
      }
      GroupLinked(cf.hasher, ix, cs);
    }
  }

  lemma NoEntries(h: Hasher)
    ensures ChainLinked(h, EMPTY_INDEX.audit) && EMPTY_INDEX.auditHead == HeadOf(EMPTY_INDEX.audit)
  {
  }

  /** The caller supplies no time of its own, or the one the store's clock shows. */
  predicate Timely(i: Input) {
    match i.op
    case Transition(_, _, _, _, entry, _) => entry.Some? ==> entry.value.at in {0, i.now}
    case AppendAudit(d) => d.at in {0, i.now}
    case _ => true
  }

  predicate InOrderBy(audit: seq<AuditEntry>, t: Time) {
    InOrder(audit) && forall i :: 0 <= i < |audit| ==> audit[i].at <= t
  }

  lemma {:induction false} TimesInOrder(ix: Index, cs: seq<Change>, t: Time)
    requires InOrderBy(ix.audit, t)
    requires forall k :: 0 <= k < |cs| && cs[k].AuditRow? ==> cs[k].entry.at == t
    ensures InOrderBy(ApplyAll(ix, cs).audit, t)
  {
    if cs != [] {
      TimesInOrder(ix, cs[..|cs| - 1], t);
      assert cs[|cs| - 1].AuditRow? ==> cs[|cs| - 1].entry.at == t;
    }
  }

  lemma WrittenTimes(cf: Settings, ix: Index, i: Input, k: nat)
    requires Timely(i) && k < |Writes(cf, ix, i.now, i.op)| && Writes(cf, ix, i.now, i.op)[k].AuditRow?
    ensures Writes(cf, ix, i.now, i.op)[k].entry.at == i.now
  {
    hide AuditHash, LastHash, AuditRows, Moved, Stamped, Marked, Refusal;
  }

  /** With an advancing clock and timely callers, every reachable log passes verification. */
  lemma {:induction false} TimelyLogsVerify(cf: Settings, ins: seq<Input>, t: Time)
    requires ClockAdvances(ins) && forall k :: 0 <= k < |ins| ==> Timely(ins[k]) && ins[k].now <= t
    ensures ChainLinked(cf.hasher, Exec(cf, EMPTY_INDEX, ins).audit)
    ensures InOrderBy(Exec(cf, EMPTY_INDEX, ins).audit, t)
  {
    hide ChainLinked, Writes, ApplyAll, Timely, Effect;
    ReachableChain(cf, ins);
    if ins != [] {
      var init, last := ins[..|ins| - 1], ins[|ins| - 1];
      TimelyLogsVerify(cf, init, last.now);
      var ix := Exec(cf, EMPTY_INDEX, init);
      var cs := Taken(cf, ix, last);
      EffectIs(cf, ix, last);
      forall k | 0 <= k < |cs| && cs[k].AuditRow? ensures cs[k].entry.at == last.now {
        WrittenTimes(cf, ix, last, k);
      }
      TimesInOrder(ix, cs, last.now);
    }
  }

  // -------------------------------------------------------- tamper evidence

  function PayloadAt(h: Hasher, audit: seq<AuditEntry>, i: nat): string
    requires i < |audit|
  {
    Payload(h, audit[i].prevHash, audit[i])
  }

  /** Among the payloads of two logs the digest does not collide, and none hashes to the genesis value. */
  predicate NoCollisions(h: Hasher, a: seq<AuditEntry>, b: seq<AuditEntry>) {
    && (forall i, j :: 0 <= i < |a| && 0 <= j < |b| ==>
          h.digest(PayloadAt(h, a, i)) == h.digest(PayloadAt(h, b, j)) ==> PayloadAt(h, a, i) == PayloadAt(h, b, j))
    && (forall i :: 0 <= i < |a| ==> h.digest(PayloadAt(h, a, i)) != GENESIS)
    && (forall j :: 0 <= j < |b| ==> h.digest(PayloadAt(h, b, j)) != GENESIS)
  }

  /** A string without the field separator. */
  predicate Plain(s: string) {
    '|' !in s
  }

  /** Hashes are of one length, as hexadecimal SHA-256 values are, and time renderings can be read back. */
  ghost predicate FixedFormat(h: Hasher) {
    && (forall s :: |h.digest(s)| == |GENESIS|)
    && (forall t :: Plain(h.formatTime(t)))
    && (forall t, u :: h.formatTime(t) == h.formatTime(u) ==> t == u)
  }

  /**
    * The anchored head. Two logs that both verify and end in the same hash have the same length
    * and, entry by entry, the same payloads and hashes.
    */
  lemma {:induction false} SameHeadSameLog(h: Hasher, a: seq<AuditEntry>, b: seq<AuditEntry>)
    requires ChainLinked(h, a) && ChainLinked(h, b) && NoCollisions(h, a, b) && FixedFormat(h)
    requires HeadOf(a) == HeadOf(b)
    ensures |a| == |b|
    ensures forall i :: 0 <= i < |a| ==> PayloadAt(h, a, i) == PayloadAt(h, b, i) && a[i].hash == b[i].hash
  {
    hide Payload, FixedFormat, PayloadAt, ChainLinked;
    if a != [] {
      Shorter(h, a);
    }
    if b != [] {
      Shorter(h, b);
    }
    if a != [] && b != [] {
      var a', b' := a[..|a| - 1], b[..|b| - 1];
      assert PayloadAt(h, a, |a| - 1) == PayloadAt(h, b, |b| - 1);
      SamePrev(h, a, b);
      PrefixPayloads(h, a);
      PrefixPayloads(h, b);
      PrefixCollisions(h, a, b);
      SameHeadSameLog(h, a', b');
    }
  }

  lemma PrefixCollisions(h: Hasher, a: seq<AuditEntry>, b: seq<AuditEntry>)
    requires NoCollisions(h, a, b) && a != [] && b != []
    ensures NoCollisions(h, a[..|a| - 1], b[..|b| - 1])
  {
    hide Payload, GENESIS, PayloadAt;
    var a', b' := a[..|a| - 1], b[..|b| - 1];
    PrefixPayloads(h, a);
    PrefixPayloads(h, b);
    forall i, j | 0 <= i < |a'| && 0 <= j < |b'| && h.digest(PayloadAt(h, a', i)) == h.digest(PayloadAt(h, b', j))
      ensures PayloadAt(h, a', i) == PayloadAt(h, b', j)
    {
      assert PayloadAt(h, a', i) == PayloadAt(h, a, i) && PayloadAt(h, b', j) == PayloadAt(h, b, j);
    }
    forall i | 0 <= i < |a'| ensures h.digest(PayloadAt(h, a', i)) != GENESIS {
      assert PayloadAt(h, a', i) == PayloadAt(h, a, i);
    }
    forall j | 0 <= j < |b'| ensures h.digest(PayloadAt(h, b', j)) != GENESIS {
      assert PayloadAt(h, b', j) == PayloadAt(h, b, j);
    }
  }

  lemma PrefixPayloads(h: Hasher, a: seq<AuditEntry>)
    requires a != []
    ensures forall i :: 0 <= i < |a| - 1 ==> PayloadAt(h, a[..|a| - 1], i) == PayloadAt(h, a, i)
  {
    hide Payload;
  }

  lemma Shorter(h: Hasher, a: seq<AuditEntry>)
    requires ChainLinked(h, a) && a != []
    ensures ChainLinked(h, a[..|a| - 1]) && a[|a| - 1].prevHash == HeadOf(a[..|a| - 1])
    ensures a[|a| - 1].hash == h.digest(PayloadAt(h, a, |a| - 1))
  {
    hide Payload;
    var a' := a[..|a| - 1];
    forall i | 0 <= i < |a'|
      ensures a'[i].prevHash == HeadOf(a'[..i]) && a'[i].hash == AuditHash(h, a'[i].prevHash, a'[i])
    {
      assert a'[..i] == a[..i];
    }
  }

  /** Equal payloads begin with equal previous hashes, these being of one length. */
  lemma SamePrev(h: Hasher, a: seq<AuditEntry>, b: seq<AuditEntry>)
    requires FixedFormat(h) && ChainLinked(h, a) && ChainLinked(h, b) && a != [] && b != []
    requires PayloadAt(h, a, |a| - 1) == PayloadAt(h, b, |b| - 1)
    ensures HeadOf(a[..|a| - 1]) == HeadOf(b[..|b| - 1])
  {
    hide GENESIS, RenderDetail, Payload;
    HeadLength(h, a[..|a| - 1], a);
    HeadLength(h, b[..|b| - 1], b);
    PrevFirst(h, a[|a| - 1].prevHash, a[|a| - 1]);
    PrevFirst(h, b[|b| - 1].prevHash, b[|b| - 1]);
  }

  lemma PrevFirst(h: Hasher, p: string, x: AuditEntry)
    ensures |p| <= |Payload(h, p, x)| && Payload(h, p, x)[..|p|] == p
  {
    hide RenderDetail;
  }

  lemma HeadLength(h: Hasher, a: seq<AuditEntry>, whole: seq<AuditEntry>)
    requires FixedFormat(h) && ChainLinked(h, whole) && a <= whole
    ensures |HeadOf(a)| == |GENESIS|
  {
    hide GENESIS, Payload;
    if a != [] {
      assert whole[|a| - 1].hash == AuditHash(h, whole[|a| - 1].prevHash, whole[|a| - 1]);
    }
  }

  // -------------------------------------------------------- reading a payload back

  /** Fields that cannot be confused with the payload's own punctuation. */
  predicate Readable(e: AuditEntry) {
    && Plain(e.actor) && Plain(e.action) && Plain(e.resource)
    && forall k :: k in e.detail ==> Plain(k) && '=' !in k && Plain(e.detail[k])
  }

  /** Two texts that agree up to their first separator agree on both sides of it. */
  lemma {:induction false} SplitOnce(c: char, x: string, y: string, u: string, v: string)
    requires c !in x && c !in u
    requires x + [c] + y == u + [c] + v
    ensures x == u && y == v
  {
    var s := x + [c] + y;
    assert s == u + [c] + v;
    assert s[|x|] == c && s[|u|] == c;
    assert forall i :: 0 <= i < |x| ==> s[i] == x[i];
    assert forall i :: 0 <= i < |u| ==> s[i] == u[i];
    assert |x| == |u|;
    assert s[..|x|] == x && s[..|u|] == u;
    assert s[|x| + 1..] == y && s[|u| + 1..] == v;
  }

  /** The rendering of a detail map is empty or starts with the separator. */
  lemma DetailStart(m: map<string, string>)
    ensures RenderDetail(m) == "" <==> m == map[]
    ensures m != map[] ==> RenderDetail(m)[0] == '|'
  {
  }

  /** Splitting off a field that ends the text or is followed by another field. */
  lemma SplitLast(x: string, y: string, u: string, v: string)
    requires Plain(x) && Plain(u) && x + y == u + v
    requires (y == "" || y[0] == '|') && (v == "" || v[0] == '|')
    ensures x == u && y == v
  {
    var s := x + y;
    assert s == u + v;
    assert forall i :: 0 <= i < |x| ==> s[i] == x[i];
    assert forall i :: 0 <= i < |u| ==> s[i] == u[i];
    assert |x| < |s| ==> s[|x|] == '|';
    assert |u| < |s| ==> s[|u|] == '|';
    assert |x| == |u|;
    assert s[..|x|] == x && s[..|u|] == u;
    assert s[|x|..] == y && s[|u|..] == v;
  }

  predicate ReadableDetail(m: map<string, string>) {
    forall k :: k in m ==> Plain(k) && '=' !in k && Plain(m[k])
  }

  lemma {:induction false} DetailInjective(m: map<string, string>, n: map<string, string>)
    requires ReadableDetail(m) && ReadableDetail(n) && RenderDetail(m) == RenderDetail(n)
    ensures m == n
    decreases |m|
  {
    DetailStart(m);
    DetailStart(n);
    if m != map[] {
      var k, l := Least(m.Keys), Least(n.Keys);
      var m', n' := m - {k}, n - {l};
      assert m'.Keys == m.Keys - {k};
      DetailParts(k, m[k], RenderDetail(m'), l, n[l], RenderDetail(n'), m', n');
      DetailInjective(m', n');
      assert m == m'[k := m[k]] && n == n'[l := n[l]];
    }
  }

  lemma DetailParts(k: string, v: string, rest: string, l: string, w: string, more: string,
                    m': map<string, string>, n': map<string, string>)
    requires Plain(k) && Plain(v) && '=' !in k && Plain(l) && Plain(w) && '=' !in l
    requires rest == RenderDetail(m') && more == RenderDetail(n')
    requires "|" + k + "=" + v + rest == "|" + l + "=" + w + more
    ensures k == l && v == w && rest == more
  {
    DetailStart(m');
    DetailStart(n');
    assert ("|" + k + "=" + v + rest)[1..] == k + "=" + (v + rest);
    assert ("|" + l + "=" + w + more)[1..] == l + "=" + (w + more);
    SplitOnce('=', k, v + rest, l, w + more);
    SplitLast(v, rest, w, more);
  }

  /** A payload determines every hashed field, as long as the fields keep clear of its punctuation. */
  lemma {:induction false} PayloadInjective(h: Hasher, p: string, x: AuditEntry, y: AuditEntry)
    requires FixedFormat(h) && Readable(x) && Readable(y)
    requires Payload(h, p, x) == Payload(h, p, y)
    ensures DraftOf(x) == DraftOf(y)
  {
    hide RenderDetail, GENESIS, Payload;
    var tx, ty := h.formatTime(x.at), h.formatTime(y.at);
    PayloadParts(h, p, x);
    PayloadParts(h, p, y);
    SplitOnce('|', tx, AfterTime(x), ty, AfterTime(y));
    SplitOnce('|', x.actor, AfterActor(x), y.actor, AfterActor(y));
    var rx, ry := RenderDetail(x.detail), RenderDetail(y.detail);
    SplitOnce('|', x.action, x.resource + rx, y.action, y.resource + ry);
    DetailStart(x.detail);
    DetailStart(y.detail);
    SplitLast(x.resource, rx, y.resource, ry);
    DetailInjective(x.detail, y.detail);
  }

  function AfterActor(e: AuditEntry): string {
    e.action + "|" + (e.resource + RenderDetail(e.detail))
  }

  function AfterTime(e: AuditEntry): string {
    e.actor + "|" + AfterActor(e)
  }

  lemma PayloadParts(h: Hasher, p: string, e: AuditEntry)
    ensures |p| + 1 <= |Payload(h, p, e)|
    ensures Payload(h, p, e)[|p| + 1..] == h.formatTime(e.at) + "|" + AfterTime(e)
  {
    hide RenderDetail;
  }

  /** The anchored head, in terms of what the entries say. */
  lemma {:induction false} SameHeadSameFacts(h: Hasher, a: seq<AuditEntry>, b: seq<AuditEntry>)
    requires ChainLinked(h, a) && ChainLinked(h, b) && NoCollisions(h, a, b) && FixedFormat(h)
    requires HeadOf(a) == HeadOf(b)
    requires (forall e :: e in a ==> Readable(e)) && (forall e :: e in b ==> Readable(e))
    ensures |a| == |b| && forall i :: 0 <= i < |a| ==> DraftOf(a[i]) == DraftOf(b[i])
  {
    hide Payload, NoCollisions, FixedFormat, AuditHash;
    SameHeadSameLog(h, a, b);
    forall i | 0 <= i < |a| ensures DraftOf(a[i]) == DraftOf(b[i]) {
      assert a[i].prevHash == b[i].prevHash by {
        assert a[i].prevHash == HeadOf(a[..i]) && b[i].prevHash == HeadOf(b[..i]);
      }
      assert PayloadAt(h, a, i) == PayloadAt(h, b, i);
      PayloadInjective(h, a[i].prevHash, a[i], b[i]);
    }
  }
}
