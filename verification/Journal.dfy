/** The append-only journal of store/journal.go, down to its bytes. */
module Journal {
  import opened Prelude
  import opened Records

  type byte = b: int | 0 <= b < 256
  type uint32 = n: int | 0 <= n < 0x1_0000_0000

  /** A journal record: a change, or the marker that closes a group. */
  datatype Record = Entry(change: Change, seqNo: nat) | Commit(seqNo: nat)

  /** The payload encoding and the checksum, which the journal does not look inside. */
  datatype Codec = Codec(
    marshal: Record -> seq<byte>,
    unmarshal: seq<byte> -> Option<Record>,
    checksum: seq<byte> -> uint32)

  /** The codec decodes what it encodes. */
  ghost predicate Lawful(c: Codec) {
    forall r :: c.unmarshal(c.marshal(r)) == Some(r)
  }

  const MAGIC: seq<byte> := [79, 82, 74, 49]
  const HEADER_SIZE := 12

  /** Big-endian, as encoding/binary writes and reads it. */
  function PutUint32(n: uint32): (bs: seq<byte>)
    ensures |bs| == 4 && Uint32(bs) == n
  {
    var n1 := n / 256;
    var n2 := n1 / 256;
    [n2 / 256, n2 % 256, n1 % 256, n % 256]
  }

  function Uint32(bs: seq<byte>): uint32
    requires |bs| == 4
  {
    (((bs[0] as int * 256 + bs[1]) * 256) + bs[2]) * 256 + bs[3]
  }

  /** Header and payload of one record; the length field is a uint32 conversion. */
  function EncodeRecord(c: Codec, r: Record): (bs: seq<byte>)
    ensures |bs| == HEADER_SIZE + |c.marshal(r)|
  {
    var payload := c.marshal(r);
    MAGIC + PutUint32(|payload| % 0x1_0000_0000) + PutUint32(c.checksum(payload)) + payload
  }

  /** The record's length survives the uint32 conversion. */
  predicate Fits(c: Codec, r: Record) {
    |c.marshal(r)| < 0x1_0000_0000
  }

  // ------------------------------------------------------------------ replay

  /** What reading one record off the front of some bytes yields. */
  datatype Parse = Tail | Bad | Got(record: Record, size: nat)

  function ParseOne(c: Codec, bs: seq<byte>): (p: Parse)
    ensures p.Got? ==> HEADER_SIZE <= p.size <= |bs|
  {
    if |bs| < HEADER_SIZE then Tail
    else if bs[..4] != MAGIC then Bad
    else
      var length := Uint32(bs[4..8]);
      if |bs| < HEADER_SIZE + length then Tail
      else
        var payload := bs[HEADER_SIZE..HEADER_SIZE + length];
        if c.checksum(payload) != Uint32(bs[8..12]) then Bad
        else
          match c.unmarshal(payload)
          case None => Bad
          case Some(r) => Got(r, HEADER_SIZE + length)
  }

  /** The group being read: sequence zero means no record is open. */
  datatype Open = Open(seqNo: nat, changes: seq<Change>)

  const NO_GROUP := Open(0, [])

  /** What replay has established so far: applied changes, last good offset, highest sequence. */
  datatype Progress = Progress(applied: seq<Change>, good: nat, seqNo: nat)

  const START := Progress([], 0, 0)

  /** Replay from a byte offset on; an error means the journal is refused as corrupt. */
  function Scan(c: Codec, bs: seq<byte>, offset: nat, open: Open, p: Progress): Result<Progress, ()>
    decreases |bs|
  {
    match ParseOne(c, bs)
    case Tail => Ok(p)
    case Bad => Err(())
    case Got(Commit(s), n) =>
      if s != open.seqNo then Err(())
      else Scan(c, bs[n..], offset + n, NO_GROUP,
                Progress(p.applied + open.changes, offset + n, Max(p.seqNo, s)))
    case Got(Entry(ch, s), n) =>
      Scan(c, bs[n..], offset + n,
           Open(if open.seqNo == 0 then s else open.seqNo, open.changes + [ch]), p)
  }

  /** One record more. */
  lemma ScanOne(c: Codec, bs: seq<byte>, offset: nat, open: Open, p: Progress)
    ensures Scan(c, bs, offset, open, p) ==
            match ParseOne(c, bs)
            case Tail => Ok(p)
            case Bad => Err(())
            case Got(Commit(s), n) =>
              if s != open.seqNo then Err(())
              else Scan(c, bs[n..], offset + n, NO_GROUP,
                        Progress(p.applied + open.changes, offset + n, Max(p.seqNo, s)))
            case Got(Entry(ch, s), n) =>
              Scan(c, bs[n..], offset + n, Open(if open.seqNo == 0 then s else open.seqNo, open.changes + [ch]), p)
  {
    hide ParseOne;
  }

  // ----------------------------------------------------- the committed log

  /** One committed transaction. */
  datatype Group = Group(seqNo: nat, changes: seq<Change>)

  ghost predicate Writable(c: Codec, g: Group) {
    g.seqNo > 0 && |g.changes| > 0 && Fits(c, Commit(g.seqNo))
    && forall ch :: ch in g.changes ==> Fits(c, Entry(ch, g.seqNo))
  }

  function EncodeEntries(c: Codec, changes: seq<Change>, s: nat): seq<byte> {
    if changes == [] then []
    else EncodeRecord(c, Entry(changes[0], s)) + EncodeEntries(c, changes[1..], s)
  }

  function EncodeGroup(c: Codec, g: Group): seq<byte> {
    EncodeEntries(c, g.changes, g.seqNo) + EncodeRecord(c, Commit(g.seqNo))
  }

  function EncodeLog(c: Codec, gs: seq<Group>): seq<byte> {
    if gs == [] then [] else EncodeLog(c, gs[..|gs| - 1]) + EncodeGroup(c, gs[|gs| - 1])
  }

  function Changes(gs: seq<Group>): seq<Change> {
    if gs == [] then [] else Changes(gs[..|gs| - 1]) + gs[|gs| - 1].changes
  }

  function TopSeq(gs: seq<Group>): nat {
    if gs == [] then 0 else Max(TopSeq(gs[..|gs| - 1]), gs[|gs| - 1].seqNo)
  }

  ghost predicate AllWritable(c: Codec, gs: seq<Group>) {
    forall g :: g in gs ==> Writable(c, g)
  }

  /** What replay must report for a log that is entirely on disk. */
  function Replayed(c: Codec, gs: seq<Group>): Progress {
    Progress(Changes(gs), |EncodeLog(c, gs)|, TopSeq(gs))
  }

  /** The open group after some entries written under one sequence number. */
  function Collected(open: Open, changes: seq<Change>, s: nat): Open {
    if changes == [] then open
    else Open(if open.seqNo == 0 then s else open.seqNo, open.changes + changes)
  }

  // ------------------------------------------------------- parsing lemmas

  /** A whole record at the front of the bytes is read back as written. */
  lemma ParseWhole(c: Codec, r: Record, rest: seq<byte>)
    requires Lawful(c) && Fits(c, r)
    ensures ParseOne(c, EncodeRecord(c, r) + rest) == Got(r, |EncodeRecord(c, r)|)
    ensures (EncodeRecord(c, r) + rest)[|EncodeRecord(c, r)|..] == rest
  {
    var payload := c.marshal(r);
    var bs := EncodeRecord(c, r) + rest;
    assert bs[..4] == MAGIC;
    assert bs[4..8] == PutUint32(|payload|);
    assert bs[8..12] == PutUint32(c.checksum(payload));
    assert bs[HEADER_SIZE..HEADER_SIZE + |payload|] == payload;
  }

  lemma HeaderReads(c: Codec, r: Record)
    requires Fits(c, r)
    ensures EncodeRecord(c, r)[..4] == MAGIC && EncodeRecord(c, r)[4..8] == PutUint32(|c.marshal(r)|)
  {
    hide PutUint32;
    var n := PutUint32(|c.marshal(r)|);
    SecondPart(MAGIC, n, PutUint32(c.checksum(c.marshal(r))) + c.marshal(r));
    assert EncodeRecord(c, r) == MAGIC + n + (PutUint32(c.checksum(c.marshal(r))) + c.marshal(r));
  }

  lemma SecondPart(a: seq<byte>, b: seq<byte>, rest: seq<byte>)
    ensures (a + b + rest)[..|a|] == a && (a + b + rest)[|a|..|a| + |b|] == b
  {
  }

  /** A record cut short anywhere reads as a torn tail, never as corruption. */
  lemma ParseTorn(c: Codec, r: Record, k: nat)
    requires Fits(c, r) && k < |EncodeRecord(c, r)|
    ensures ParseOne(c, EncodeRecord(c, r)[..k]) == Tail
  {
    hide PutUint32, EncodeRecord, Uint32;
    HeaderReads(c, r);
    var bs := EncodeRecord(c, r)[..k];
    if k >= HEADER_SIZE {
      assert bs[..4] == EncodeRecord(c, r)[..4];
      assert bs[4..8] == EncodeRecord(c, r)[4..8];
    }
  }

  /** Replay walks over the entries of a group, collecting them under the first sequence number seen. */
  lemma {:induction false} ScanEntries(c: Codec, changes: seq<Change>, s: nat, rest: seq<byte>,
                                       offset: nat, open: Open, p: Progress)
    requires Lawful(c) && s > 0
    requires forall ch :: ch in changes ==> Fits(c, Entry(ch, s))
    ensures Scan(c, EncodeEntries(c, changes, s) + rest, offset, open, p)
         == Scan(c, rest, offset + |EncodeEntries(c, changes, s)|, Collected(open, changes, s), p)
    decreases |changes|
  {
    hide ParseOne, EncodeRecord;
    if changes == [] {
      assert EncodeEntries(c, changes, s) + rest == rest;
    } else {
      var first := EncodeRecord(c, Entry(changes[0], s));
      var more := EncodeEntries(c, changes[1..], s) + rest;
      assert EncodeEntries(c, changes, s) + rest == first + more;
      ParseWhole(c, Entry(changes[0], s), more);
      ScanEntries(c, changes[1..], s, rest, offset + |first|, Collected(open, [changes[0]], s), p);
      assert open.changes + [changes[0]] + changes[1..] == open.changes + changes;
      assert changes == [changes[0]] + changes[1..];
      assert Collected(Collected(open, [changes[0]], s), changes[1..], s) == Collected(open, changes, s);
    }
  }

  /** Replay over a whole group applies it and moves the last good offset past it. */
  lemma ScanGroup(c: Codec, g: Group, rest: seq<byte>, offset: nat, p: Progress)
    requires Lawful(c) && Writable(c, g)
    ensures Scan(c, EncodeGroup(c, g) + rest, offset, NO_GROUP, p)
         == Scan(c, rest, offset + |EncodeGroup(c, g)|, NO_GROUP,
                 Progress(p.applied + g.changes, offset + |EncodeGroup(c, g)|, Max(p.seqNo, g.seqNo)))
  {
    hide ParseOne, EncodeRecord;
    var entries := EncodeEntries(c, g.changes, g.seqNo);
    var marker := EncodeRecord(c, Commit(g.seqNo));
    assert EncodeGroup(c, g) + rest == entries + (marker + rest);
    ScanEntries(c, g.changes, g.seqNo, marker + rest, offset, NO_GROUP, p);
    assert [] + g.changes == g.changes;
    ParseWhole(c, Commit(g.seqNo), rest);
  }

  /** Replay over a group that is not all there changes nothing. */
  lemma {:induction false} ScanTorn(c: Codec, changes: seq<Change>, s: nat, k: nat,
                                    offset: nat, open: Open, p: Progress)
    requires Lawful(c) && s > 0 && Fits(c, Commit(s))
    requires forall ch :: ch in changes ==> Fits(c, Entry(ch, s))
    requires k < |EncodeGroup(c, Group(s, changes))|
    ensures Scan(c, EncodeGroup(c, Group(s, changes))[..k], offset, open, p) == Ok(p)
    decreases |changes|
  {
    hide ParseOne, EncodeRecord;
    var bytes := EncodeGroup(c, Group(s, changes));
    var first := if changes == [] then Commit(s) else Entry(changes[0], s);
    var head := EncodeRecord(c, first);
    if k < |head| {
      assert bytes[..k] == head[..k];
      ParseTorn(c, first, k);
    } else {
      var more := EncodeGroup(c, Group(s, changes[1..]));
      assert bytes == head + more;
      assert bytes[..k] == head + more[..k - |head|];
      ParseWhole(c, first, more[..k - |head|]);
      ScanTorn(c, changes[1..], s, k - |head|, offset + |head|,
               Open(if open.seqNo == 0 then s else open.seqNo, open.changes + [changes[0]]), p);
    }
  }

  /** Replay over a whole log reports the whole log and carries on behind it. */
  lemma {:induction false} ScanLog(c: Codec, gs: seq<Group>, rest: seq<byte>)
    requires Lawful(c) && AllWritable(c, gs)
    ensures Scan(c, EncodeLog(c, gs) + rest, 0, NO_GROUP, START)
         == Scan(c, rest, |EncodeLog(c, gs)|, NO_GROUP, Replayed(c, gs))
  {
    hide ParseOne, EncodeRecord;
    if gs == [] {
      assert EncodeLog(c, gs) + rest == rest;
    } else {
      var init, last := gs[..|gs| - 1], gs[|gs| - 1];
      var before := EncodeLog(c, init);
      var more := EncodeGroup(c, last) + rest;
      assert EncodeLog(c, gs) + rest == before + more;
      calc {
        Scan(c, before + more, 0, NO_GROUP, START);
        { ScanLog(c, init, more); }
        Scan(c, more, |before|, NO_GROUP, Replayed(c, init));
        { ScanGroup(c, last, rest, |before|, Replayed(c, init)); }
        Scan(c, rest, |EncodeLog(c, gs)|, NO_GROUP, Replayed(c, gs));
      }
    }
  }

  // ------------------------------------------------------- crash recovery

  /**
    * A crash at any byte of an append: replay finds exactly the groups committed before it, and
    * the group being written exactly when all of its bytes arrived.
    */
  lemma CrashRecovery(c: Codec, gs: seq<Group>, g: Group, k: nat)
    requires Lawful(c) && AllWritable(c, gs) && Writable(c, g) && k <= |EncodeGroup(c, g)|
    ensures Scan(c, EncodeLog(c, gs) + EncodeGroup(c, g)[..k], 0, NO_GROUP, START)
         == Ok(Replayed(c, if k == |EncodeGroup(c, g)| then gs + [g] else gs))
  {
    hide ParseOne, EncodeRecord;
    var whole := EncodeGroup(c, g);
    if k == |whole| {
      assert (gs + [g])[..|gs|] == gs;
      assert EncodeLog(c, gs) + whole[..k] == EncodeLog(c, gs + [g]) + [];
      ScanLog(c, gs + [g], []);
      ScanNothing(c, |EncodeLog(c, gs + [g])|, Replayed(c, gs + [g]));
    } else {
      ScanLog(c, gs, whole[..k]);
      ScanTorn(c, g.changes, g.seqNo, k, |EncodeLog(c, gs)|, NO_GROUP, Replayed(c, gs));
    }
  }

  lemma ScanNothing(c: Codec, offset: nat, p: Progress)
    ensures Scan(c, [], offset, NO_GROUP, p) == Ok(p)
  {
  }

  /** The first m records of a group's encoding, the commit marker being the last one. */
  function EncodeFirst(c: Codec, g: Group, m: nat): seq<byte>
    requires m <= |g.changes| + 1
  {
    if m <= |g.changes| then EncodeEntries(c, g.changes[..m], g.seqNo) else EncodeGroup(c, g)
  }

  /**
    * Carrying on after a failed append, without reopening. When the failed group left m of its
    * records on disk and later groups are then committed, the journal can be replayed exactly when m
    * is none of them or all of them. In every other case the later commits, reported as durable,
    * make the whole journal unreadable. AnyFailedAppend says the rest.
    */
  lemma {:induction false} AppendAfterFailure(c: Codec, gs: seq<Group>, failed: Group, m: nat, later: seq<Group>)
    requires Lawful(c) && AllWritable(c, gs) && Writable(c, failed) && AllWritable(c, later)
    requires later != [] && failed.seqNo < later[0].seqNo && m <= |failed.changes| + 1
    ensures var r := Scan(c, EncodeLog(c, gs) + EncodeFirst(c, failed, m) + EncodeLog(c, later),
                          0, NO_GROUP, START);
            && (r.Ok? <==> m == 0 || m == |failed.changes| + 1)
            && (m == 0 ==> r == Ok(Replayed(c, gs + later)))
            && (m == |failed.changes| + 1 ==> r == Ok(Replayed(c, gs + [failed] + later)))
  {
    hide ParseOne, EncodeRecord, EncodeEntries, EncodeGroup, EncodeLog, Replayed, Writable, Lawful, Scan;
    var before, torn, after := EncodeLog(c, gs), EncodeFirst(c, failed, m), EncodeLog(c, later);
    if m == 0 {
      NoRecords(c, failed);
      assert before + torn == before;
      ReplaysAll(c, gs, later);
    } else if m == |failed.changes| + 1 {
      LastGroup(c, gs, failed);
      assert forall g :: g in gs + [failed] ==> g in gs || g == failed;
      ReplaysAll(c, gs + [failed], later);
    } else {
      FirstGroup(c, later);
      var rest := EncodeLog(c, later[1..]);
      assert before + torn + after == before + (torn + (EncodeGroup(c, later[0]) + rest));
      ScanLog(c, gs, torn + (EncodeGroup(c, later[0]) + rest));
      assert later[0] in later;
      FewRecords(c, failed, m);
      assert forall ch :: ch in failed.changes[..m] ==> ch in failed.changes;
      AllFits(c, failed);
      ScanMixed(c, failed.changes[..m], failed.seqNo, later[0], rest, |before|, Replayed(c, gs));
    }
  }

  lemma FewRecords(c: Codec, g: Group, m: nat)
    requires m <= |g.changes|
    ensures EncodeFirst(c, g, m) == EncodeEntries(c, g.changes[..m], g.seqNo)
  {
  }

  lemma AllFits(c: Codec, g: Group)
    requires Writable(c, g)
    ensures g.seqNo > 0 && forall ch :: ch in g.changes ==> Fits(c, Entry(ch, g.seqNo))
  {
  }

  lemma LastGroup(c: Codec, gs: seq<Group>, g: Group)
    ensures EncodeLog(c, gs + [g]) == EncodeLog(c, gs) + EncodeGroup(c, g)
    ensures EncodeFirst(c, g, |g.changes| + 1) == EncodeGroup(c, g)
  {
    assert (gs + [g])[..|gs|] == gs;
  }

  lemma {:induction false} FirstGroup(c: Codec, gs: seq<Group>)
    requires gs != []
    ensures EncodeLog(c, gs) == EncodeGroup(c, gs[0]) + EncodeLog(c, gs[1..])
  {
    hide EncodeGroup;
    LogConcat(c, gs[..1], gs[1..]);
    assert gs == gs[..1] + gs[1..] && gs[..1][..0] == [];
    assert EncodeLog(c, gs[..1]) == [] + EncodeGroup(c, gs[0]) == EncodeGroup(c, gs[0]);
  }

  lemma {:induction false} LogConcat(c: Codec, a: seq<Group>, b: seq<Group>)
    ensures EncodeLog(c, a + b) == EncodeLog(c, a) + EncodeLog(c, b)
  {
    hide EncodeGroup;
    if b == [] {
      assert a + b == a;
    } else {
      assert (a + b)[..|a + b| - 1] == a + b[..|b| - 1];
      LogConcat(c, a, b[..|b| - 1]);
    }
  }

  /** A log that is all there replays whole. */
  lemma ReplaysAll(c: Codec, a: seq<Group>, b: seq<Group>)
    requires Lawful(c) && AllWritable(c, a) && AllWritable(c, b)
    ensures Scan(c, EncodeLog(c, a) + EncodeLog(c, b), 0, NO_GROUP, START) == Ok(Replayed(c, a + b))
  {
    hide Scan, Replayed, EncodeLog, Writable, Lawful;
    LogConcat(c, a, b);
    assert forall g :: g in a + b ==> g in a || g in b;
    ScanLog(c, a + b, []);
    assert EncodeLog(c, a + b) + [] == EncodeLog(c, a + b);
    ScanNothing(c, |EncodeLog(c, a + b)|, Replayed(c, a + b));
  }

  /** Entries of one group run into a commit marker of another: replay refuses the journal. */
  lemma ScanMixed(c: Codec, stray: seq<Change>, s: nat, later: Group, rest: seq<byte>, offset: nat, p: Progress)
    requires Lawful(c) && Writable(c, later) && 0 < s < later.seqNo && stray != []
    requires forall ch :: ch in stray ==> Fits(c, Entry(ch, s))
    ensures Scan(c, EncodeEntries(c, stray, s) + (EncodeGroup(c, later) + rest), offset, NO_GROUP, p).Err?
  {
    hide ParseOne, EncodeRecord, EncodeEntries, Scan;
    var marker := EncodeRecord(c, Commit(later.seqNo));
    var entries := EncodeEntries(c, later.changes, later.seqNo);
    var offset' := offset + |EncodeEntries(c, stray, s)|;
    assert EncodeGroup(c, later) + rest == entries + (marker + rest);
    ScanEntries(c, stray, s, entries + (marker + rest), offset, NO_GROUP, p);
    ScanEntries(c, later.changes, later.seqNo, marker + rest, offset', Collected(NO_GROUP, stray, s), p);
    ParseWhole(c, Commit(later.seqNo), rest);
    ScanOne(c, marker + rest, offset' + |entries|,
            Collected(Collected(NO_GROUP, stray, s), later.changes, later.seqNo), p);
  }

  // ------------------------------------------------- failures inside a record

  /** The record of a group's encoding at a position, the commit marker being the last. */
  function RecordAt(g: Group, m: nat): Record
    requires m <= |g.changes|
  {
    if m < |g.changes| then Entry(g.changes[m], g.seqNo) else Commit(g.seqNo)
  }

  /** How many records of a group are whole within its first k bytes. */
  function WholeRecords(c: Codec, g: Group, k: nat): (m: nat)
    ensures m <= |g.changes| + 1
    decreases |g.changes|
  {
    var size := |EncodeRecord(c, RecordAt(g, 0))|;
    if k < size then 0
    else if g.changes == [] then 1
    else 1 + WholeRecords(c, g.(changes := g.changes[1..]), k - size)
  }

  /** The first k bytes of a group are its whole records and a part of the next. */
  lemma {:induction false} CutsAt(c: Codec, g: Group, k: nat)
    requires k <= |EncodeGroup(c, g)|
    ensures var m := WholeRecords(c, g, k);
            var start := |EncodeFirst(c, g, m)|;
            && start <= k
            && (m <= |g.changes| ==>
                  && k < start + |EncodeRecord(c, RecordAt(g, m))|
                  && EncodeGroup(c, g)[..k] == EncodeFirst(c, g, m) + EncodeRecord(c, RecordAt(g, m))[..k - start])
            && (m == |g.changes| + 1 ==> EncodeGroup(c, g)[..k] == EncodeFirst(c, g, m))
    decreases |g.changes|
  {
    hide EncodeRecord, EncodeGroup, EncodeEntries;
    var head := EncodeRecord(c, RecordAt(g, 0));
    OneRecordMore(c, g);
    if k < |head| {
      NoRecords(c, g);
      assert EncodeGroup(c, g)[..k] == [] + head[..k];
    } else if g.changes == [] {
      assert EncodeGroup(c, g)[..k] == head;
    } else {
      var rest := g.(changes := g.changes[1..]);
      var m := WholeRecords(c, rest, k - |head|);
      CutsAt(c, rest, k - |head|);
      FirstOfRest(c, g, m);
      assert EncodeGroup(c, g)[..k] == head + EncodeGroup(c, rest)[..k - |head|];
      if m <= |rest.changes| {
        var part := EncodeRecord(c, RecordAt(rest, m))[..k - |head| - |EncodeFirst(c, rest, m)|];
        assert head + (EncodeFirst(c, rest, m) + part) == (head + EncodeFirst(c, rest, m)) + part;
      }
    }
  }

  lemma NoRecords(c: Codec, g: Group)
    ensures EncodeFirst(c, g, 0) == []
  {
  }

  lemma OneRecordMore(c: Codec, g: Group)
    ensures var head := EncodeRecord(c, RecordAt(g, 0));
            if g.changes == [] then EncodeGroup(c, g) == head
            else EncodeGroup(c, g) == head + EncodeGroup(c, g.(changes := g.changes[1..]))
  {
  }

  lemma FirstOfRest(c: Codec, g: Group, m: nat)
    requires g.changes != [] && m <= |g.changes|
    ensures var rest := g.(changes := g.changes[1..]);
            && EncodeFirst(c, g, m + 1) == EncodeRecord(c, RecordAt(g, 0)) + EncodeFirst(c, rest, m)
            && (m < |g.changes| ==> RecordAt(g, m + 1) == RecordAt(rest, m))
  {
    OneRecordMore(c, g);
    if m < |g.changes| {
      assert g.changes[..m + 1][1..] == g.changes[1..][..m];
    }
  }

  /** A record cut short, with other bytes behind it. */
  function TornBytes(c: Codec, r: Record, o: nat, after: seq<byte>): seq<byte>
    requires o <= |EncodeRecord(c, r)|
  {
    EncodeRecord(c, r)[..o] + after
  }

  /** The torn record claims more bytes than the file has: replay takes it for the tail. */
  predicate Swallows(bs: seq<byte>)
    requires |bs| >= HEADER_SIZE
  {
    |bs| < HEADER_SIZE + Uint32(bs[4..8])
  }

  /** What stands where its payload should be does not have its checksum. */
  predicate Mismatched(c: Codec, bs: seq<byte>)
    requires |bs| >= HEADER_SIZE && !Swallows(bs)
  {
    c.checksum(bs[HEADER_SIZE..HEADER_SIZE + Uint32(bs[4..8])]) != Uint32(bs[8..12])
  }

  lemma ParseOverTear(c: Codec, r: Record, o: nat, after: seq<byte>)
    requires Fits(c, r) && 0 < o < |EncodeRecord(c, r)| && |after| >= HEADER_SIZE && after[..4] == MAGIC
    ensures var bs := TornBytes(c, r, o, after);
            && (o < 4 ==> ParseOne(c, bs) == Bad)
            && (o >= 4 && Swallows(bs) ==> ParseOne(c, bs) == Tail)
            && (o >= 4 && !Swallows(bs) && Mismatched(c, bs) ==> ParseOne(c, bs) == Bad)
            && (o >= HEADER_SIZE ==> (Swallows(bs) <==> o + |after| < |EncodeRecord(c, r)|))
  {
    var bs, whole := TornBytes(c, r, o, after), EncodeRecord(c, r);
    assert whole[..4] == MAGIC;
    if o < 4 {
      assert bs[o] == after[0] == after[..4][0] == MAGIC[0];
      assert bs[..4][o] == bs[o];
    } else {
      assert bs[..4] == whole[..4];
      if o >= HEADER_SIZE {
        assert bs[4..8] == whole[4..8] == PutUint32(|c.marshal(r)|);
      }
    }
  }

  /** Replay over a torn record that it takes for the tail, or refuses. */
  lemma ScanOverTear(c: Codec, changes: seq<Change>, s: nat, rest: seq<byte>, offset: nat, p: Progress)
    requires Lawful(c) && s > 0 && forall ch :: ch in changes ==> Fits(c, Entry(ch, s))
    ensures ParseOne(c, rest) == Tail ==>
      Scan(c, EncodeEntries(c, changes, s) + rest, offset, NO_GROUP, p) == Ok(p)
    ensures ParseOne(c, rest) == Bad ==>
      Scan(c, EncodeEntries(c, changes, s) + rest, offset, NO_GROUP, p).Err?
  {
    hide ParseOne, EncodeRecord;
    ScanEntries(c, changes, s, rest, offset, NO_GROUP, p);
  }

  /**
    * A failed append at any byte, carried on after without reopening. Cut between records, the
    * journal stays readable exactly when none or all of the group is there. Cut inside a record, it
    * is refused when the cut is in the record's first bytes, or when the checksum the record carries
    * is not that of what now stands in its place; but when the record claims to be longer than all
    * that follows, as a record with its header whole does exactly when it is, the journal reads
    * without complaint and the later commits, reported as durable, are gone.
    */
  lemma {:induction false} AnyFailedAppend(c: Codec, gs: seq<Group>, failed: Group, k: nat, later: seq<Group>)
    requires Lawful(c) && AllWritable(c, gs) && Writable(c, failed) && AllWritable(c, later)
    requires later != [] && failed.seqNo < later[0].seqNo && k <= |EncodeGroup(c, failed)|
    ensures var r := Scan(c, EncodeLog(c, gs) + EncodeGroup(c, failed)[..k] + EncodeLog(c, later),
                          0, NO_GROUP, START);
            var m := WholeRecords(c, failed, k);
            var o := k - |EncodeFirst(c, failed, m)|;
            if m == |failed.changes| + 1 || o == 0 then
              && (r.Ok? <==> m == 0 || m == |failed.changes| + 1)
              && (m == 0 ==> r == Ok(Replayed(c, gs + later)))
              && (m == |failed.changes| + 1 ==> r == Ok(Replayed(c, gs + [failed] + later)))
            else
              && 0 < o < |EncodeRecord(c, RecordAt(failed, m))|
              && var bs := TornBytes(c, RecordAt(failed, m), o, EncodeLog(c, later));
              && |bs| >= HEADER_SIZE
              && (o < 4 ==> r.Err?)
              && (o >= 4 && Swallows(bs) ==> r == Ok(Replayed(c, gs)))
              && (o >= 4 && !Swallows(bs) && Mismatched(c, bs) ==> r.Err?)
              && (o >= HEADER_SIZE ==>
                    (Swallows(bs) <==> o + |EncodeLog(c, later)| < |EncodeRecord(c, RecordAt(failed, m))|))
  {
    hide ParseOne, EncodeRecord, Swallows, Mismatched, WholeRecords, EncodeLog;
    CutsAt(c, failed, k);
    var m := WholeRecords(c, failed, k);
    var o := k - |EncodeFirst(c, failed, m)|;
    var before, after := EncodeLog(c, gs), EncodeLog(c, later);
    FirstGroup(c, later);
    StartsWithMagic(c, later[0]);
    assert after[..4] == EncodeGroup(c, later[0])[..4];
    if m == |failed.changes| + 1 || o == 0 {
      assert EncodeGroup(c, failed)[..k] == EncodeFirst(c, failed, m);
      AppendAfterFailure(c, gs, failed, m, later);
    } else {
      var bs := TornBytes(c, RecordAt(failed, m), o, after);
      var entries := EncodeEntries(c, failed.changes[..m], failed.seqNo);
      assert before + EncodeGroup(c, failed)[..k] + after == before + (entries + bs);
      ScanLog(c, gs, entries + bs);
      ParseOverTear(c, RecordAt(failed, m), o, after);
      ScanOverTear(c, failed.changes[..m], failed.seqNo, bs, |before|, Replayed(c, gs));
    }
  }

  lemma StartsWithMagic(c: Codec, g: Group)
    ensures |EncodeGroup(c, g)| >= HEADER_SIZE && EncodeGroup(c, g)[..4] == MAGIC
  {
    OneRecordMore(c, g);
    assert EncodeRecord(c, RecordAt(g, 0))[..4] == MAGIC;
    assert EncodeRecord(c, RecordAt(g, 0)) <= EncodeGroup(c, g);
  }

  // ------------------------------------------------------------- the file

  /** What the disk does with a write: takes all of it, or the first n bytes and then an error. */
  datatype Disk = Accepts | FailsAfter(n: nat)

  lemma ScanGood(c: Codec, bs: seq<byte>, offset: nat, open: Open, p: Progress)
    requires p.good <= offset
    ensures var r := Scan(c, bs, offset, open, p);
            r.Ok? ==> r.value.good <= offset + |bs| && r.value.seqNo >= p.seqNo
    decreases |bs|
  {
    match ParseOne(c, bs)
    case Got(Commit(s), n) =>
      if s == open.seqNo {
        ScanGood(c, bs[n..], offset + n, NO_GROUP, Progress(p.applied + open.changes, offset + n, Max(p.seqNo, s)));
      }
    case Got(Entry(ch, s), n) =>
      ScanGood(c, bs[n..], offset + n, Open(if open.seqNo == 0 then s else open.seqNo, open.changes + [ch]), p);
    case _ =>
  }

  /** The file at one moment. */
  datatype Contents = Contents(bytes: seq<byte>, seqNo: nat, log: seq<Group>)

  /** What appending a group does to the file, for either answer of the disk. */
  ghost predicate Appended(c: Codec, changes: seq<Change>, disk: Disk, f0: Contents, f1: Contents) {
    var g := Group(f0.seqNo + 1, changes);
    var whole := EncodeGroup(c, g);
    && f1.seqNo == g.seqNo
    && f1.log == (if disk.Accepts? then f0.log + [g] else f0.log)
    && f1.bytes == f0.bytes + (if disk.Accepts? || disk.n > |whole| then whole else whole[..disk.n])
  }

  /** The file holds exactly the groups it is credited with. */
  ghost predicate Sound(c: Codec, f: Contents) {
    && Lawful(c) && AllWritable(c, f.log)
    && f.bytes == EncodeLog(c, f.log) && f.seqNo >= TopSeq(f.log)
  }

  /** A write the disk takes in full leaves the file sound. */
  lemma AppendSound(c: Codec, changes: seq<Change>, f0: Contents, f1: Contents)
    requires Sound(c, f0) && Appended(c, changes, Accepts, f0, f1)
    requires Writable(c, Group(f0.seqNo + 1, changes))
    ensures Sound(c, f1) && Changes(f1.log) == Changes(f0.log) + changes
  {
    assert f1.log[..|f1.log| - 1] == f0.log;
  }

  /** A file cut off behind the groups it is known to begin with holds just these. */
  lemma Recovered(c: Codec, bs: seq<byte>, f: Contents, p: Progress)
    requires p.good <= |bs| && f.bytes == bs[..p.good] && f.seqNo >= p.seqNo
    ensures Lawful(c) && AllWritable(c, f.log) && EncodeLog(c, f.log) <= bs && p == Replayed(c, f.log) ==> Sound(c, f)
  {
    hide AllWritable, Lawful, Changes;
  }

  lemma DropBoth(bs: seq<byte>, m: nat, n: nat)
    requires m + n <= |bs|
    ensures bs[m..][n..] == bs[m + n..]
  {
  }

  class File {
    const codec: Codec
    var bytes: seq<byte>
    var seqNo: nat
    /** The groups the file is known to hold. */
    ghost var log: seq<Group>

    ghost predicate Valid()
      reads this
    {
      Sound(codec, Now())
    }

    ghost function Now(): Contents
      reads this
    {
      Contents(bytes, seqNo, log)
    }

    constructor (codec: Codec, bytes: seq<byte>)
      ensures this.codec == codec && this.bytes == bytes && seqNo == 0
    {
      this.codec, this.bytes, this.seqNo := codec, bytes, 0;
      this.log := [];
    }

    /** Reads every committed record in order and drops the torn tail. */
    method Replay(ghost known: seq<Group>) returns (r: Result<seq<Change>, ()>)
      modifies this
      ensures match Scan(codec, old(bytes), 0, NO_GROUP, START)
              case Err(_) => r.Err? && bytes == old(bytes)
              case Ok(p) => r == Ok(p.applied) && p.good <= |old(bytes)|
                            && bytes == old(bytes)[..p.good] && seqNo == Max(old(seqNo), p.seqNo)
      ensures Lawful(codec) && AllWritable(codec, known) && EncodeLog(codec, known) <= old(bytes)
              && Scan(codec, old(bytes), 0, NO_GROUP, START) == Ok(Replayed(codec, known))
              ==> Valid() && log == known
    {
      hide ParseOne, EncodeLog, AllWritable, Lawful, Replayed, Writable, TopSeq, Changes, Scan, Sound;
      var offset: nat, lastGood: nat, top: nat := 0, 0, 0;
      var groupSeq: nat, group: seq<Change>, applied: seq<Change> := 0, [], [];
      ghost var outcome := Scan(codec, bytes, 0, NO_GROUP, START);
      ScanGood(codec, bytes, 0, NO_GROUP, START);
      assert bytes[0..] == bytes;
      while true
        invariant 0 <= lastGood <= offset <= |bytes| && bytes == old(bytes)
        invariant seqNo == Max(old(seqNo), top)
        invariant Scan(codec, bytes[offset..], offset, Open(groupSeq, group),
                       Progress(applied, lastGood, top)) == outcome
        decreases |bytes| - offset
      {
        ScanOne(codec, bytes[offset..], offset, Open(groupSeq, group), Progress(applied, lastGood, top));
        match ParseOne(codec, bytes[offset..]) {
          case Tail => break;
          case Bad => return Err(());
          case Got(record, size) =>
            DropBoth(bytes, offset, size);
            offset := offset + size;
            match record {
              case Commit(s) =>
                if s != groupSeq {
                  return Err(());
                }
                applied := applied + group;
                groupSeq, group := 0, [];
                lastGood := offset;
                top := Max(top, s);
                if s > seqNo {
                  seqNo := s;
                }
              case Entry(change, s) =>
                if groupSeq == 0 {
                  groupSeq := s;
                }
                group := group + [change];
            }
        }
      }
      if |bytes| != lastGood {
        bytes := bytes[..lastGood];
      }
      log := known;
      Recovered(codec, old(bytes), Now(), Progress(applied, lastGood, top));
      return Ok(applied);
    }

    /** Writes the changes and a commit marker under the next sequence number. */
    method AppendGroup(changes: seq<Change>, disk: Disk) returns (ok: bool)
      modifies this
      ensures ok <==> disk.Accepts?
      ensures Appended(codec, changes, disk, old(Now()), Now())
    {
      seqNo := seqNo + 1;
      var buf: seq<byte> := [];
      for i := 0 to |changes|
        invariant buf + EncodeEntries(codec, changes[i..], seqNo) == EncodeEntries(codec, changes, seqNo)
        invariant seqNo == old(seqNo) + 1 && bytes == old(bytes) && log == old(log)
      {
        hide EncodeRecord;
        assert changes[i..][0] == changes[i] && changes[i..][1..] == changes[i + 1..];
        buf := buf + EncodeRecord(codec, Entry(changes[i], seqNo));
      }
      buf := buf + EncodeRecord(codec, Commit(seqNo));
      assert buf == EncodeGroup(codec, Group(seqNo, changes));
      match disk {
        case Accepts =>
          bytes := bytes + buf;
          log := log + [Group(seqNo, changes)];
          return true;
        case FailsAfter(n) =>
          bytes := bytes + (if n > |buf| then buf else buf[..n]);
          return false;
      }
    }
  }
}
