/**
  * What a file holds after any sequence of writes, each of which the disk may refuse after any of
  * its bytes, the store carrying on behind whatever was left.
  */
module Tears {
  import opened Prelude
  import opened Records
  import opened Journal

  /** A group the store tries to append, and what the disk does with it. */
  datatype Try = Try(group: Group, disk: Disk)

  /** The bytes a try leaves in the file. */
  function Left(c: Codec, t: Try): (bs: seq<byte>)
    ensures bs <= EncodeGroup(c, t.group)
  {
    var whole := EncodeGroup(c, t.group);
    if t.disk.Accepts? || t.disk.n > |whole| then whole else whole[..t.disk.n]
  }

  function Trail(c: Codec, ts: seq<Try>): seq<byte> {
    if ts == [] then [] else Left(c, ts[0]) + Trail(c, ts[1..])
  }

  /** All of the group is in the file, whatever the store was told. */
  predicate Whole(c: Codec, t: Try) {
    |Left(c, t)| == |EncodeGroup(c, t.group)|
  }

  /** Some of it is, and not all. */
  predicate Torn(c: Codec, t: Try) {
    0 < |Left(c, t)| < |EncodeGroup(c, t.group)|
  }

  /** The records of the group that are whole in the file. */
  function WholePart(c: Codec, t: Try): (m: nat)
    ensures m <= |t.group.changes| + 1
  {
    WholeRecords(c, t.group, |Left(c, t)|)
  }

  /** What they say, the commit marker aside. */
  function Stray(c: Codec, t: Try): (cs: seq<Change>)
  {
    if WholePart(c, t) <= |t.group.changes| then t.group.changes[..WholePart(c, t)] else t.group.changes
  }

  /** What is in the file of the record after them. */
  function Part(c: Codec, t: Try): seq<byte> {
    var start := |EncodeFirst(c, t.group, WholePart(c, t))|;
    if start <= |Left(c, t)| then Left(c, t)[start..] else []
  }

  /** Torn inside a record, not between two. */
  predicate Inside(c: Codec, t: Try) {
    Torn(c, t) && Part(c, t) != []
  }

  /** Replay takes the bytes for the torn end of the file: they begin a record that claims more than they are. */
  predicate TakenForTail(bs: seq<byte>) {
    |bs| < HEADER_SIZE || (bs[..4] == MAGIC && |bs| < HEADER_SIZE + Uint32(bs[4..8]))
  }

  /** Replay takes the bytes for a record: what stands where its payload should be has the checksum it claims. */
  predicate Coincides(c: Codec, bs: seq<byte>) {
    && !TakenForTail(bs) && bs[..4] == MAGIC
    && c.checksum(bs[HEADER_SIZE..HEADER_SIZE + Uint32(bs[4..8])]) == Uint32(bs[8..12])
  }

  /** No torn record is completed by coincidence out of what was written behind it. */
  predicate Clear(c: Codec, ts: seq<Try>) {
    forall k :: 0 <= k < |ts| && Inside(c, ts[k]) ==> !Coincides(c, Part(c, ts[k]) + Trail(c, ts[k + 1..]))
  }

  /** The sequence numbers ascend from above s. */
  predicate Numbered(ts: seq<Try>, s: nat) {
    && (forall i :: 0 <= i < |ts| ==> s < ts[i].group.seqNo)
    && (forall i, j :: 0 <= i < j < |ts| ==> ts[i].group.seqNo < ts[j].group.seqNo)
  }

  ghost predicate AllFit(c: Codec, ts: seq<Try>) {
    forall i :: 0 <= i < |ts| ==> Writable(c, ts[i].group)
  }

  /** The first tear, or the number of tries. */
  function FirstTear(c: Codec, ts: seq<Try>): (f: nat)
    ensures f <= |ts| && (forall k :: 0 <= k < f ==> !Torn(c, ts[k])) && (f < |ts| ==> Torn(c, ts[f]))
  {
    hide Torn;
    TearFrom(c, ts, 0)
  }

  function TearFrom(c: Codec, ts: seq<Try>, n: nat): (f: nat)
    requires n <= |ts|
    ensures n <= f <= |ts| && (forall k :: n <= k < f ==> !Torn(c, ts[k])) && (f < |ts| ==> Torn(c, ts[f]))
    decreases |ts| - n
  {
    hide Torn;
    if n == |ts| || Torn(c, ts[n]) then n else TearFrom(c, ts, n + 1)
  }

  /** The groups that are whole in the file, reported as written or not. */
  function WholeOf(c: Codec, ts: seq<Try>): seq<Group> {
    if ts == [] then []
    else WholeOf(c, ts[..|ts| - 1]) + if Whole(c, ts[|ts| - 1]) then [ts[|ts| - 1].group] else []
  }

  /** The groups that were reported as written. */
  function Reported(ts: seq<Try>): seq<Group> {
    if ts == [] then []
    else Reported(ts[..|ts| - 1]) + if ts[|ts| - 1].disk.Accepts? then [ts[|ts| - 1].group] else []
  }

  /** What of a file replay can reach: the whole groups before the first tear. */
  function Reached(c: Codec, ts: seq<Try>): seq<Group> {
    WholeOf(c, ts[..FirstTear(c, ts)])
  }

  /**
    * Whether replay gets to the end from a tear on: it must come upon a torn record that it takes
    * for the end of the file, or upon the end itself, before it comes upon the commit marker of a
    * whole group, which closes a group other than the one open.
    */
  predicate Readable(c: Codec, ts: seq<Try>) {
    if ts == [] then true
    else if Inside(c, ts[0]) then TakenForTail(Part(c, ts[0]) + Trail(c, ts[1..]))
    else !Whole(c, ts[0]) && Readable(c, ts[1..])
  }

  // ------------------------------------------------------- small facts

  lemma {:induction false} OneMoreReported(ts: seq<Try>, t: Try)
    ensures Changes(Reported(ts + [t])) == Changes(Reported(ts)) + if t.disk.Accepts? then t.group.changes else []
    ensures Reported(ts + [t]) == if t.disk.Accepts? then Reported(ts) + [t.group] else Reported(ts)
  {
    assert (ts + [t])[..|ts|] == ts;
    if t.disk.Accepts? {
      assert (Reported(ts) + [t.group])[..|Reported(ts)|] == Reported(ts);
    } else {
      assert Reported(ts) + [] == Reported(ts) && Changes(Reported(ts)) + [] == Changes(Reported(ts));
    }
  }

  lemma {:induction false} TrailConcat(c: Codec, a: seq<Try>, b: seq<Try>)
    ensures Trail(c, a + b) == Trail(c, a) + Trail(c, b)
  {
    if a == [] {
      assert a + b == b;
    } else {
      assert (a + b)[0] == a[0] && (a + b)[1..] == a[1..] + b;
      TrailConcat(c, a[1..], b);
    }
  }

  lemma NonEmptyGroup(c: Codec, g: Group)
    ensures |EncodeGroup(c, g)| >= HEADER_SIZE
  {
    StartsWithMagic(c, g);
  }

  /** Without a tear the file is the encoding of its whole groups. */
  lemma {:induction false} UntornTrail(c: Codec, ts: seq<Try>)
    requires forall k :: 0 <= k < |ts| ==> !Torn(c, ts[k])
    ensures Trail(c, ts) == EncodeLog(c, WholeOf(c, ts))
  {
    hide EncodeGroup, Left;
    if ts != [] {
      var init, last := ts[..|ts| - 1], ts[|ts| - 1];
      UntornTrail(c, init);
      assert ts == init + [last];
      TrailConcat(c, init, [last]);
      assert Trail(c, [last]) == Left(c, last) + [] == Left(c, last);
      assert !Torn(c, last);
      if Whole(c, last) {
        LogSnoc(c, WholeOf(c, init), last.group);
      } else {
        assert Left(c, last) == [] && WholeOf(c, init) + [] == WholeOf(c, init);
        assert Trail(c, init) + [] == Trail(c, init);
      }
    }
  }

  lemma LogSnoc(c: Codec, gs: seq<Group>, g: Group)
    ensures EncodeLog(c, gs + [g]) == EncodeLog(c, gs) + EncodeGroup(c, g)
  {
    assert (gs + [g])[..|gs|] == gs;
  }

  lemma {:induction false} WholeAreTried(c: Codec, ts: seq<Try>)
    requires AllFit(c, ts)
    ensures AllWritable(c, WholeOf(c, ts))
  {
    hide Writable, EncodeGroup;
    if ts != [] {
      WholeAreTried(c, ts[..|ts| - 1]);
    }
  }

  // ------------------------------------------------------- replay over tears

  /** A torn try is its whole records and a part of the next; the part ends in a proper prefix of that record. */
  lemma TearParts(c: Codec, t: Try)
    requires Torn(c, t)
    ensures WholePart(c, t) <= |t.group.changes|
    ensures var m := WholePart(c, t);
            && Left(c, t) == EncodeEntries(c, Stray(c, t), t.group.seqNo) + Part(c, t)
            && |Part(c, t)| < |EncodeRecord(c, RecordAt(t.group, m))|
            && Part(c, t) == EncodeRecord(c, RecordAt(t.group, m))[..|Part(c, t)|]
    ensures Part(c, t) == [] ==> Stray(c, t) != []
  {
    hide EncodeRecord, EncodeGroup, EncodeEntries, WholeRecords;
    var k := |Left(c, t)|;
    CutsAt(c, t.group, k);
    var m := WholePart(c, t);
    assert Left(c, t) == EncodeGroup(c, t.group)[..k];
    AllRecords(c, t.group);
    NoRecords(c, t.group);
  }

  lemma AllRecords(c: Codec, g: Group)
    ensures EncodeFirst(c, g, |g.changes| + 1) == EncodeGroup(c, g)
  {
  }

  lemma ParseIs(c: Codec, bs: seq<byte>)
    requires !Coincides(c, bs)
    ensures ParseOne(c, bs) == if TakenForTail(bs) then Tail else Bad
  {
  }

  lemma NumberedLater(ts: seq<Try>, s: nat, s': nat)
    requires ts != [] && Numbered(ts, s) && (s' == s || s' == ts[0].group.seqNo)
    ensures Numbered(ts[1..], s') && s < ts[0].group.seqNo
  {
  }

  lemma ClearLater(c: Codec, ts: seq<Try>)
    requires ts != [] && Clear(c, ts)
    ensures Clear(c, ts[1..])
    ensures Inside(c, ts[0]) ==> !Coincides(c, Part(c, ts[0]) + Trail(c, ts[1..]))
  {
    hide Inside, Coincides, Part;
    forall k | 0 <= k < |ts| - 1 && Inside(c, ts[1..][k])
      ensures !Coincides(c, Part(c, ts[1..][k]) + Trail(c, ts[1..][k + 1..]))
    {
      assert ts[1..][k] == ts[k + 1] && ts[1..][k + 1..] == ts[k + 1 + 1..];
      assert Inside(c, ts[k + 1]);
    }
  }

  /** Replay from a tear on finds nothing more: it gets to the end or is refused. */
  lemma {:induction false} ScanFromTear(c: Codec, ts: seq<Try>, offset: nat, open: Open, p: Progress)
    requires Lawful(c) && AllFit(c, ts) && Clear(c, ts) && Numbered(ts, open.seqNo)
    requires open.seqNo > 0 || (open == NO_GROUP && (ts == [] || Torn(c, ts[0])))
    ensures Scan(c, Trail(c, ts), offset, open, p) == if Readable(c, ts) then Ok(p) else Err(())
    decreases |ts|
  {
    hide Clear, Numbered, Lawful, ParseOne, EncodeGroup, Left, Part, Torn, Coincides, TakenForTail, Writable, Scan;
    if ts == [] {
      ScanEnd(c, offset, open, p);
    } else {
      var t, rest := ts[0], ts[1..];
      ClearLater(c, ts);
      NumberedLater(ts, open.seqNo, open.seqNo);
      if Torn(c, t) {
        NumberedLater(ts, open.seqNo, t.group.seqNo);
        TornStep(c, t, rest, offset, open, p);
        if !Inside(c, t) {
          TearParts(c, t);
          WholeIsNotTorn(c, t);
          ScanFromTear(c, rest, offset + |Left(c, t)|, Collected(open, Stray(c, t), t.group.seqNo), p);
        }
      } else if Whole(c, t) {
        assert open.seqNo > 0;
        WholeRefused(c, t, rest, offset, open, p);
      } else {
        NothingLeft(c, t);
        assert Trail(c, ts) == Trail(c, rest);
        ScanFromTear(c, rest, offset, open, p);
      }
    }
  }

  lemma ScanEnd(c: Codec, offset: nat, open: Open, p: Progress)
    ensures Scan(c, [], offset, open, p) == Ok(p)
  {
  }

  lemma WholeIsNotTorn(c: Codec, t: Try)
    requires Torn(c, t)
    ensures !Whole(c, t)
  {
  }

  lemma NothingLeft(c: Codec, t: Try)
    requires !Torn(c, t) && !Whole(c, t)
    ensures Left(c, t) == [] && !Inside(c, t)
  {
  }

  /** Replay over one torn try: past its whole records, and then over the part if there is one. */
  lemma TornStep(c: Codec, t: Try, rest: seq<Try>, offset: nat, open: Open, p: Progress)
    requires Lawful(c) && Writable(c, t.group) && Torn(c, t)
    requires Inside(c, t) ==> !Coincides(c, Part(c, t) + Trail(c, rest))
    ensures Inside(c, t) ==>
      Scan(c, Left(c, t) + Trail(c, rest), offset, open, p)
      == if TakenForTail(Part(c, t) + Trail(c, rest)) then Ok(p) else Err(())
    ensures !Inside(c, t) ==>
      Scan(c, Left(c, t) + Trail(c, rest), offset, open, p)
      == Scan(c, Trail(c, rest), offset + |Left(c, t)|, Collected(open, Stray(c, t), t.group.seqNo), p)
  {
    hide Lawful, EncodeGroup, Left, Part, Torn, Coincides, TakenForTail, ParseOne, Scan, Trail, EncodeEntries;
    TearParts(c, t);
    var entries, after := EncodeEntries(c, Stray(c, t), t.group.seqNo), Part(c, t) + Trail(c, rest);
    assert Left(c, t) + Trail(c, rest) == entries + after;
    ScanEntries(c, Stray(c, t), t.group.seqNo, after, offset, open, p);
    if Inside(c, t) {
      ParseIs(c, after);
      ScanOne(c, after, offset + |entries|, Collected(open, Stray(c, t), t.group.seqNo), p);
    } else {
      assert after == Trail(c, rest) && entries == Left(c, t);
    }
  }

  /** With stray entries open, the commit marker of a whole group is refused. */
  lemma WholeRefused(c: Codec, t: Try, rest: seq<Try>, offset: nat, open: Open, p: Progress)
    requires Lawful(c) && Writable(c, t.group) && Whole(c, t) && 0 < open.seqNo < t.group.seqNo
    ensures Scan(c, Left(c, t) + Trail(c, rest), offset, open, p) == Err(())
  {
    hide Lawful, ParseOne, EncodeRecord, EncodeEntries, Scan;
    var g := t.group;
    var entries, marker := EncodeEntries(c, g.changes, g.seqNo), EncodeRecord(c, Commit(g.seqNo));
    assert Left(c, t) == EncodeGroup(c, g);
    assert Left(c, t) + Trail(c, rest) == entries + (marker + Trail(c, rest));
    ScanEntries(c, g.changes, g.seqNo, marker + Trail(c, rest), offset, open, p);
    ParseWhole(c, Commit(g.seqNo), Trail(c, rest));
    ScanOne(c, marker + Trail(c, rest), offset + |entries|, Collected(open, g.changes, g.seqNo), p);
  }

  /**
    * What replay makes of a file after any sequence of accepted and refused writes, coincidental
    * checksums aside: it finds the groups that are whole before the first tear and nothing behind it,
    * or refuses the file, and which of the two.
    */
  lemma {:induction false} ReplayExactly(c: Codec, ts: seq<Try>)
    requires Lawful(c) && AllFit(c, ts) && Clear(c, ts) && Numbered(ts, 0)
    ensures Scan(c, Trail(c, ts), 0, NO_GROUP, START)
         == if Readable(c, ts[FirstTear(c, ts)..]) then Ok(Replayed(c, Reached(c, ts))) else Err(())
  {
    hide Clear, Numbered, Lawful, Torn, Writable, Scan, Replayed, Readable, WholeOf, EncodeLog, Trail;
    var f := FirstTear(c, ts);
    var before, after := ts[..f], ts[f..];
    assert ts == before + after;
    TrailConcat(c, before, after);
    UntornTrail(c, before);
    WholeAreTried(c, before);
    ScanLog(c, Reached(c, ts), Trail(c, after));
    ClearFrom(c, ts, f);
    NumberedFrom(ts, f);
    ScanFromTear(c, after, |EncodeLog(c, Reached(c, ts))|, NO_GROUP, Replayed(c, Reached(c, ts)));
  }

  lemma {:induction false} ClearFrom(c: Codec, ts: seq<Try>, f: nat)
    requires f <= |ts| && Clear(c, ts)
    ensures Clear(c, ts[f..])
  {
    hide Inside, Coincides, Part;
    forall k | 0 <= k < |ts| - f && Inside(c, ts[f..][k])
      ensures !Coincides(c, Part(c, ts[f..][k]) + Trail(c, ts[f..][k + 1..]))
    {
      assert ts[f..][k] == ts[f + k] && ts[f..][k + 1..] == ts[f + k + 1..];
    }
  }

  lemma NumberedFrom(ts: seq<Try>, f: nat)
    requires f <= |ts| && Numbered(ts, 0)
    ensures Numbered(ts[f..], 0)
  {
  }

  /** What an append does to the file, either way, is what a try leaves. */
  lemma AppendLeaves(c: Codec, changes: seq<Change>, disk: Disk, f0: Contents, f1: Contents)
    requires Appended(c, changes, disk, f0, f1)
    ensures f1.seqNo == f0.seqNo + 1
    ensures f1.bytes == f0.bytes + Left(c, Try(Group(f0.seqNo + 1, changes), disk))
  {
  }

  // ------------------------------------------------------- what a tear costs

  lemma {:induction false} WholeOfOne(c: Codec, ts: seq<Try>, p: nat)
    requires p < |ts| && Whole(c, ts[p])
    ensures ts[p].group in WholeOf(c, ts)
  {
    hide Left, EncodeGroup;
    if p < |ts| - 1 {
      WholeOfOne(c, ts[..|ts| - 1], p);
    }
  }

  lemma {:induction false} WholeOfAre(c: Codec, ts: seq<Try>, g: Group)
    requires g in WholeOf(c, ts)
    ensures exists k :: 0 <= k < |ts| && ts[k].group == g
  {
    hide Left, EncodeGroup;
    var init := ts[..|ts| - 1];
    if g in WholeOf(c, init) {
      WholeOfAre(c, init, g);
      var k :| 0 <= k < |init| && init[k].group == g;
      assert ts[k].group == g;
    } else {
      assert ts[|ts| - 1].group == g;
    }
  }

  /** A write reported as done is reached by replay exactly when no write before it was torn. */
  lemma SurvivesExactly(c: Codec, ts: seq<Try>, p: nat)
    requires p < |ts| && ts[p].disk.Accepts? && Numbered(ts, 0)
    ensures ts[p].group in Reached(c, ts) <==> forall k :: 0 <= k < p ==> !Torn(c, ts[k])
  {
    hide Left, EncodeGroup, WholeOf, Torn;
    var f := FirstTear(c, ts);
    AcceptedWhole(c, ts[p]);
    if p < f {
      assert ts[..f][p] == ts[p];
      WholeOfOne(c, ts[..f], p);
    } else {
      assert f < p;
      if ts[p].group in Reached(c, ts) {
        WholeOfAre(c, ts[..f], ts[p].group);
      }
    }
  }

  lemma AcceptedWhole(c: Codec, t: Try)
    requires t.disk.Accepts?
    ensures Whole(c, t) && !Torn(c, t)
  {
  }

  /** A tear with nothing behind it, such as a crash leaves, costs nothing but itself. */
  lemma LastTearReads(c: Codec, ts: seq<Try>)
    requires AllFit(c, ts) && forall k :: FirstTear(c, ts) < k < |ts| ==> Left(c, ts[k]) == []
    ensures Readable(c, ts[FirstTear(c, ts)..]) && Clear(c, ts)
  {
    hide Left, EncodeGroup, Part, Coincides, TakenForTail, Writable;
    var f := FirstTear(c, ts);
    if f < |ts| {
      assert ts[f..][0] == ts[f] && ts[f..][1..] == ts[f + 1..];
      var rest := ts[f + 1..];
      forall k | 0 <= k < |rest| ensures Left(c, rest[k]) == [] && Writable(c, rest[k].group) {
        assert rest[k] == ts[f + 1 + k];
      }
      NothingBehind(c, rest);
      assert Part(c, ts[f]) + Trail(c, ts[f + 1..]) == Part(c, ts[f]);
      if Inside(c, ts[f]) {
        TearParts(c, ts[f]);
        PartIsTail(c, ts[f]);
      }
    }
    forall k | 0 <= k < |ts| && Inside(c, ts[k]) ensures !Coincides(c, Part(c, ts[k]) + Trail(c, ts[k + 1..])) {
      assert k == f;
    }
  }

  lemma {:induction false} NothingBehind(c: Codec, ts: seq<Try>)
    requires AllFit(c, ts) && forall k :: 0 <= k < |ts| ==> Left(c, ts[k]) == []
    ensures Trail(c, ts) == [] && Readable(c, ts)
  {
    hide Left, EncodeGroup, Part, Writable, TakenForTail;
    if ts != [] {
      NothingBehind(c, ts[1..]);
      NonEmptyGroup(c, ts[0].group);
    }
  }

  lemma PartIsTail(c: Codec, t: Try)
    requires Inside(c, t) && Writable(c, t.group)
    ensures TakenForTail(Part(c, t)) && !Coincides(c, Part(c, t))
  {
    hide Left, Part, EncodeGroup, EncodeRecord, ParseOne, PutUint32, WholeRecords;
    TearParts(c, t);
    var r := RecordAt(t.group, WholePart(c, t));
    RecordFits(c, t.group, WholePart(c, t));
    ParseTorn(c, r, |Part(c, t)|);
    TailIs(c, Part(c, t));
  }

  lemma TailIs(c: Codec, bs: seq<byte>)
    requires ParseOne(c, bs) == Tail
    ensures TakenForTail(bs)
  {
  }

  lemma RecordFits(c: Codec, g: Group, m: nat)
    requires Writable(c, g) && m <= |g.changes|
    ensures Fits(c, RecordAt(g, m))
  {
  }
}
