/**
  * The literal part of redact/redact.go: a writer that replaces registered secrets, holding back
  * the last partial line so that a secret split across two writes is still caught. A character
  * stands for a byte.
  */
module Redaction {

  const PLACEHOLDER := "[REDACTED]"

  const MAX_HOLD := 4096

  // ------------------------------------------------------- replacing one literal

  predicate At(s: string, lit: string, k: nat) {
    k + |lit| <= |s| && s[k..k + |lit|] == lit
  }

  lemma CharAt(s: string, lit: string, k: nat, j: nat)
    requires At(s, lit, k) && k <= j < k + |lit|
    ensures s[j] in lit
  {
    assert s[j] == s[k..k + |lit|][j - k];
  }

  /** Occurrences within a part of a text are those of the text that lie in the part. */
  lemma AtPart(s: string, i: nat, j: nat, lit: string, k: nat)
    requires i <= j <= |s|
    ensures At(s[i..j], lit, k) <==> i + k + |lit| <= j && At(s, lit, i + k)
  {
    if i + k + |lit| <= j {
      var part, whole := s[i..j][k..k + |lit|], s[i + k..i + k + |lit|];
      assert forall m :: 0 <= m < |lit| ==> part[m] == s[i..j][k + m] == s[i + k + m] == whole[m];
      assert part == whole;
    }
  }

  ghost predicate Occurs(s: string, lit: string) {
    exists k: nat :: At(s, lit, k)
  }

  /** Where a literal first occurs, or the length of the text. */
  function First(s: string, lit: string): (k: nat)
    requires lit != ""
    ensures k <= |s| && (k < |s| <==> Occurs(s, lit))
    ensures k < |s| ==> At(s, lit, k) && k + |lit| <= |s|
    ensures forall j: nat :: j < k ==> !At(s, lit, j)
  {
    FirstExists(s, lit);
    FirstFrom(s, lit, 0)
  }

  lemma FirstExists(s: string, lit: string)
    requires lit != ""
    ensures forall k: nat :: At(s, lit, k) ==> k < |s|
  {
  }

  function FirstFrom(s: string, lit: string, from: nat): (k: nat)
    requires from <= |s|
    ensures from <= k <= |s| && (k < |s| ==> At(s, lit, k))
    ensures forall j: nat :: from <= j < k ==> !At(s, lit, j)
    decreases |s| - from
  {
    if from == |s| || At(s, lit, from) then from else FirstFrom(s, lit, from + 1)
  }

  /** Leftmost occurrences, not overlapping, replaced. */
  function ReplaceAll(s: string, lit: string): string
    requires lit != ""
  {
    var k := First(s, lit);
    if k == |s| then s else s[..k] + PLACEHOLDER + ReplaceAll(s[k + |lit|..], lit)
  }

  /** How many of them there are. */
  function Hits(s: string, lit: string): nat
    requires lit != ""
  {
    var k := First(s, lit);
    if k == |s| then 0 else 1 + Hits(s[k + |lit|..], lit)
  }

  /** The pieces of a text between the occurrences that are replaced. */
  function Between(s: string, lit: string): (ps: seq<string>)
    requires lit != ""
    ensures |ps| > 0
  {
    var k := First(s, lit);
    if k == |s| then [s] else [s[..k]] + Between(s[k + |lit|..], lit)
  }

  function Glued(ps: seq<string>, glue: string): string
    requires |ps| > 0
  {
    if |ps| == 1 then ps[0] else ps[0] + glue + Glued(ps[1..], glue)
  }

  /**
    * Replacing changes nothing else: the same pieces that the literal joins to the text, the
    * placeholder joins to the result; one fewer hits than pieces, and each piece holds no occurrence.
    */
  lemma {:induction false} OnlyReplaced(s: string, lit: string)
    requires lit != ""
    ensures Glued(Between(s, lit), lit) == s && Glued(Between(s, lit), PLACEHOLDER) == ReplaceAll(s, lit)
    ensures Hits(s, lit) == |Between(s, lit)| - 1
    ensures forall p :: p in Between(s, lit) ==> !Occurs(p, lit)
  {
    hide First, At, Occurs;
    var k := First(s, lit);
    if k < |s| {
      var rest := s[k + |lit|..];
      OnlyReplaced(rest, lit);
      assert Between(s, lit)[1..] == Between(rest, lit);
      assert s == s[..k] + lit + rest by {
        Occurring(s, lit, k);
      }
      FrontIsClean(s, lit, k);
    }
  }

  lemma Occurring(s: string, lit: string, k: nat)
    requires At(s, lit, k)
    ensures s == s[..k] + lit + s[k + |lit|..]
  {
  }

  lemma FrontIsClean(s: string, lit: string, k: nat)
    requires lit != "" && k == First(s, lit)
    ensures !Occurs(s[..k], lit)
  {
    forall j: nat ensures !At(s[..k], lit, j) {
      AtPart(s, 0, k, lit, j);
      assert s[0..k] == s[..k];
      assert j < k ==> !At(s, lit, j);
    }
  }

  predicate Registered(lits: seq<string>) {
    forall i :: 0 <= i < |lits| ==> lits[i] != ""
  }

  /** All literals replaced, one after the other. */
  function Scrub(s: string, lits: seq<string>): string
    requires Registered(lits)
  {
    if lits == [] then s else ReplaceAll(Scrub(s, lits[..|lits| - 1]), lits[|lits| - 1])
  }

  function ScrubHits(s: string, lits: seq<string>): nat
    requires Registered(lits)
  {
    if lits == [] then 0
    else ScrubHits(s, lits[..|lits| - 1]) + Hits(Scrub(s, lits[..|lits| - 1]), lits[|lits| - 1])
  }

  // ------------------------------------------------------- whole lines

  /** Nothing, or text ending with a newline. */
  predicate Lines(s: string) {
    s == "" || s[|s| - 1] == '\n'
  }

  /** No newline-free literal can lie across the joint of a and b. */
  predicate Breaks(a: string, b: string) {
    Lines(a) || b == "" || b[0] == '\n'
  }

  lemma AtAcross(a: string, b: string, lit: string, j: nat)
    requires lit != "" && '\n' !in lit && Breaks(a, b)
    ensures At(a + b, lit, j) <==> At(a, lit, j) || (j >= |a| && At(b, lit, j - |a|))
  {
    var s := a + b;
    assert s[..|a|] == a && s[0..|a|] == a && s[|a|..|s|] == b;
    AtPart(s, 0, |a|, lit, j);
    if j >= |a| {
      AtPart(s, |a|, |s|, lit, j - |a|);
    } else if At(s, lit, j) && j + |lit| > |a| {
      CharAt(s, lit, j, |a| - 1);
      CharAt(s, lit, j, |a|);
    }
  }

  lemma FirstAcross(a: string, b: string, lit: string)
    requires lit != "" && '\n' !in lit && Breaks(a, b)
    ensures First(a + b, lit) == if First(a, lit) < |a| then First(a, lit) else |a| + First(b, lit)
  {
    hide At;
    forall j: nat ensures At(a + b, lit, j) <==> At(a, lit, j) || (j >= |a| && At(b, lit, j - |a|)) {
      AtAcross(a, b, lit, j);
    }
    FirstExists(a, lit);
    FirstExists(b, lit);
    FirstExists(a + b, lit);
    var k, l := First(a, lit), First(b, lit);
    if k < |a| {
      assert At(a + b, lit, k);
    } else if l < |b| {
      assert At(a + b, lit, |a| + l);
    }
  }

  lemma AfterHit(a: string, lit: string, k: nat)
    requires lit != "" && '\n' !in lit && At(a, lit, k)
    ensures Lines(a) ==> Lines(a[k + |lit|..]) && k + |lit| < |a|
  {
    if Lines(a) && k + |lit| == |a| {
      CharAt(a, lit, k, |a| - 1);
    }
  }

  /** A newline-free literal is replaced on either side of such a joint by itself. */
  lemma {:induction false} ReplaceAcross(a: string, b: string, lit: string)
    requires lit != "" && '\n' !in lit && Breaks(a, b)
    ensures ReplaceAll(a + b, lit) == ReplaceAll(a, lit) + ReplaceAll(b, lit)
    ensures Hits(a + b, lit) == Hits(a, lit) + Hits(b, lit)
    decreases |a|
  {
    hide First, At, Occurs, ReplaceAll, Hits;
    FirstAcross(a, b, lit);
    Unfolded(a, lit);
    Unfolded(a + b, lit);
    Unfolded(b, lit);
    var k := First(a, lit);
    if k < |a| {
      AfterHit(a, lit, k);
      var rest := a[k + |lit|..];
      assert (a + b)[..k] == a[..k] && (a + b)[k + |lit|..] == rest + b;
      ReplaceAcross(rest, b, lit);
    } else {
      var j := First(b, lit);
      if j < |b| {
        assert (a + b)[..|a| + j] == a + b[..j] && (a + b)[|a| + j + |lit|..] == b[j + |lit|..];
      }
    }
  }

  /** Replacing leaves newlines at the ends where they are. */
  lemma {:induction false} ReplaceKeepsEnds(s: string, lit: string)
    requires lit != "" && '\n' !in lit
    ensures Lines(s) ==> Lines(ReplaceAll(s, lit))
    ensures s == "" <==> ReplaceAll(s, lit) == ""
    ensures s != "" && s[0] == '\n' ==> ReplaceAll(s, lit)[0] == '\n'
    decreases |s|
  {
    hide First, At, Occurs, ReplaceAll, Hits;
    Unfolded(s, lit);
    var k := First(s, lit);
    if k < |s| {
      AfterHit(s, lit, k);
      CharAt(s, lit, k, k);
      ReplaceKeepsEnds(s[k + |lit|..], lit);
    }
  }

  /** The recurrence, for a lemma that hides the functions. */
  lemma Unfolded(s: string, lit: string)
    requires lit != ""
    ensures var k := First(s, lit);
            if k == |s| then ReplaceAll(s, lit) == s && Hits(s, lit) == 0
            else
              && ReplaceAll(s, lit) == s[..k] + PLACEHOLDER + ReplaceAll(s[k + |lit|..], lit)
              && Hits(s, lit) == 1 + Hits(s[k + |lit|..], lit)
  {
  }

  predicate NewlineFree(lits: seq<string>) {
    forall i :: 0 <= i < |lits| ==> '\n' !in lits[i]
  }

  lemma {:induction false} ScrubAcross(a: string, b: string, lits: seq<string>)
    requires Registered(lits) && NewlineFree(lits) && Breaks(a, b)
    ensures Scrub(a + b, lits) == Scrub(a, lits) + Scrub(b, lits)
    ensures ScrubHits(a + b, lits) == ScrubHits(a, lits) + ScrubHits(b, lits)
    ensures Breaks(Scrub(a, lits), Scrub(b, lits))
  {
    hide ReplaceAll, Hits;
    if lits != [] {
      var init, last := lits[..|lits| - 1], lits[|lits| - 1];
      ScrubAcross(a, b, init);
      ReplaceAcross(Scrub(a, init), Scrub(b, init), last);
      ReplaceKeepsEnds(Scrub(a, init), last);
      ReplaceKeepsEnds(Scrub(b, init), last);
    }
  }

  // ------------------------------------------------------- no secret is left

  /** A literal that cannot be found in, or across the edge of, a placeholder. */
  ghost predicate Plain(lit: string) {
    '[' !in lit && ']' !in lit && !Occurs("REDACTED", lit)
  }

  /** A plain literal in text around a placeholder is in the text before it or in the text after it. */
  lemma AroundPlaceholder(x: string, y: string, lit: string)
    requires lit != "" && Plain(lit) && Occurs(x + PLACEHOLDER + y, lit)
    ensures Occurs(x, lit) || Occurs(y, lit)
  {
    hide At, Plain;
    var s, n := x + PLACEHOLDER + y, |x|;
    var k: nat :| At(s, lit, k);
    Pieces(x, y);
    PlainHas(lit);
    if k + |lit| <= n {
      AtPart(s, 0, n, lit, k);
    } else if k >= n + 10 {
      AtFits(s, lit, k);
      AtPart(s, n + 10, |s|, lit, k - n - 10);
    } else if k <= n {
      CharAt(s, lit, k, n);
    } else if k + |lit| > n + 9 {
      CharAt(s, lit, k, n + 9);
    } else {
      AtPart(s, n + 1, n + 9, lit, k - n - 1);
    }
  }

  lemma AtFits(s: string, lit: string, k: nat)
    requires At(s, lit, k)
    ensures k + |lit| <= |s|
  {
  }

  lemma PlainHas(lit: string)
    requires Plain(lit)
    ensures '[' !in lit && ']' !in lit && forall k: nat :: !At("REDACTED", lit, k)
  {
  }

  lemma Pieces(x: string, y: string)
    ensures var s, n := x + PLACEHOLDER + y, |x|;
            && |s| == n + 10 + |y| && s[n] == '[' && s[n + 9] == ']'
            && s[0..n] == x && s[n + 1..n + 9] == "REDACTED" && s[n + 10..|s|] == y
  {
  }

  lemma PartOf(s: string, i: nat, j: nat, lit: string)
    requires i <= j <= |s| && Occurs(s[i..j], lit)
    ensures exists k: nat :: i <= k && k + |lit| <= j && At(s, lit, k)
  {
    var k: nat :| At(s[i..j], lit, k);
    AtPart(s, i, j, lit, k);
  }

  lemma NotInPart(s: string, i: nat, j: nat, lit: string)
    requires i <= j <= |s| && !Occurs(s, lit)
    ensures !Occurs(s[i..j], lit)
  {
    if Occurs(s[i..j], lit) {
      PartOf(s, i, j, lit);
    }
  }

  /** Replacing a literal leaves none of it. */
  lemma {:induction false} ReplacedAway(s: string, lit: string)
    requires lit != "" && Plain(lit)
    ensures !Occurs(ReplaceAll(s, lit), lit)
    decreases |s|
  {
    var k := First(s, lit);
    if k < |s| {
      ReplacedAway(s[k + |lit|..], lit);
      assert !Occurs(s[..k], lit) by {
        assert s[..k] == s[0..k];
        if Occurs(s[0..k], lit) {
          PartOf(s, 0, k, lit);
        }
      }
      if Occurs(ReplaceAll(s, lit), lit) {
        AroundPlaceholder(s[..k], ReplaceAll(s[k + |lit|..], lit), lit);
      }
    }
  }

  /** Replacing one literal brings back no other. */
  lemma {:induction false} StaysAway(s: string, lit: string, other: string)
    requires lit != "" && other != "" && Plain(other) && !Occurs(s, other)
    ensures !Occurs(ReplaceAll(s, lit), other)
    decreases |s|
  {
    var k := First(s, lit);
    if k < |s| {
      var rest := s[k + |lit|..];
      NotInPart(s, k + |lit|, |s|, other);
      NotInPart(s, 0, k, other);
      assert rest == s[k + |lit|..|s|] && s[..k] == s[0..k];
      StaysAway(rest, lit, other);
      if Occurs(ReplaceAll(s, lit), other) {
        AroundPlaceholder(s[..k], ReplaceAll(rest, lit), other);
      }
    }
  }

  /** No registered plain literal occurs anywhere in scrubbed text. */
  lemma {:induction false} ScrubbedClean(s: string, lits: seq<string>, i: nat)
    requires Registered(lits) && i < |lits| && Plain(lits[i])
    ensures !Occurs(Scrub(s, lits), lits[i])
  {
    var init, last := lits[..|lits| - 1], lits[|lits| - 1];
    if i == |lits| - 1 {
      ReplacedAway(Scrub(s, init), last);
    } else {
      ScrubbedClean(s, init, i);
      StaysAway(Scrub(s, init), last, lits[i]);
    }
  }

  // ------------------------------------------------------- the stream

  /** Where the last partial line begins: after the last newline, or at the start. */
  function Cut(s: string): (n: nat)
    ensures n <= |s| && '\n' !in s[n..] && Lines(s[..n])
    ensures n > 0 <==> '\n' in s
  {
    if s == "" then 0
    else if s[|s| - 1] == '\n' then
      assert s[..|s|] == s;
      |s|
    else
      var n := Cut(s[..|s| - 1]);
      assert s[n..] == s[..|s| - 1][n..] + [s[|s| - 1]] && s[..|s| - 1][..n] == s[..n];
      n
  }

  /** How much of a buffer is let through; the rest is held. */
  function EmitLength(buf: string): (n: nat)
    ensures n <= |buf|
  {
    if |buf| > MAX_HOLD then
      var split := Cut(buf[|buf| - MAX_HOLD..]);
      if split > 0 then |buf| - MAX_HOLD + split else |buf|
    else if Cut(buf) == 0 && |buf| == MAX_HOLD then |buf|
    else Cut(buf)
  }

  datatype Stream = Stream(held: string, out: string, count: nat)

  /** What a write does. */
  function Feed(lits: seq<string>, st: Stream, p: string): Stream
    requires Registered(lits)
  {
    var buf := st.held + p;
    var n := EmitLength(buf);
    Stream(buf[n..], st.out + Scrub(buf[..n], lits), st.count + ScrubHits(buf[..n], lits))
  }

  function Drained(lits: seq<string>, st: Stream): Stream
    requires Registered(lits)
  {
    Stream("", st.out + Scrub(st.held, lits), st.count + ScrubHits(st.held, lits))
  }

  function FeedAll(lits: seq<string>, chunks: seq<string>): Stream
    requires Registered(lits)
  {
    if chunks == [] then Stream("", "", 0)
    else Feed(lits, FeedAll(lits, chunks[..|chunks| - 1]), chunks[|chunks| - 1])
  }

  function Joined(chunks: seq<string>): string {
    if chunks == [] then "" else Joined(chunks[..|chunks| - 1]) + chunks[|chunks| - 1]
  }

  /** No line is longer than 4096 bytes: every longer window holds a newline. */
  ghost predicate LinesFit(s: string) {
    forall i: nat :: i + MAX_HOLD < |s| ==> LineEnds(s, i)
  }

  predicate LineEnds(s: string, i: nat)
    requires i + MAX_HOLD < |s|
  {
    '\n' in s[i..i + MAX_HOLD + 1]
  }

  lemma {:induction false} CutLater(s: string, i: nat)
    requires i <= |s| && '\n' in s[i..]
    ensures Cut(s) == i + Cut(s[i..])
  {
    if s[|s| - 1] != '\n' {
      assert s[i..][..|s[i..]| - 1] == s[..|s| - 1][i..];
      assert s[i..] == s[..|s| - 1][i..] + [s[|s| - 1]];
      CutLater(s[..|s| - 1], i);
    }
  }

  /** A write lets through everything up to a newline, nothing, or everything. */
  lemma EmitsTo(buf: string)
    ensures var e := EmitLength(buf);
            && Breaks(buf[..e], buf[e..]) && '\n' !in buf[e..] && |buf| - e < MAX_HOLD
            && (0 < e && buf[e - 1] != '\n' ==> e == |buf| >= MAX_HOLD && '\n' !in buf[|buf| - MAX_HOLD..])
  {
    var e := EmitLength(buf);
    if |buf| > MAX_HOLD {
      var i := |buf| - MAX_HOLD;
      if '\n' in buf[i..] {
        CutLater(buf, i);
      }
    }
    assert buf[..e] + buf[e..] == buf;
  }

  /** What has come in so far is the first m bytes of the whole; the first n of them are out, the rest held. */
  ghost predicate Fed(whole: string, m: nat, n: nat, lits: seq<string>, st: Stream)
    requires Registered(lits)
  {
    && n <= m <= |whole| && Breaks(whole[..n], whole[n..])
    && st == Stream(whole[n..m], Scrub(whole[..n], lits), ScrubHits(whole[..n], lits))
  }

  /** Where lines fit, whatever a write lets through ends where a line does. */
  lemma EmitsLines(whole: string, n: nat, buf: string)
    requires LinesFit(whole) && n <= |whole| && buf <= whole[n..] && Breaks(whole[..n], whole[n..])
    ensures var k := n + EmitLength(buf); Breaks(whole[..k], whole[k..])
  {
    hide EmitLength;
    var e := EmitLength(buf);
    var k := n + e;
    EmitsTo(buf);
    if e > 0 {
      assert whole[k - 1] == whole[n..][e - 1] == buf[e - 1];
      if buf[e - 1] != '\n' && k < |whole| {
        var i := k - MAX_HOLD;
        assert LineEnds(whole, i);
        assert whole[i..i + MAX_HOLD + 1] == buf[|buf| - MAX_HOLD..] + [whole[k]];
      }
    }
  }

  lemma FeedStep(lits: seq<string>, whole: string, m: nat, n: nat, p: string, st: Stream) returns (n': nat)
    requires Registered(lits) && NewlineFree(lits) && LinesFit(whole)
    requires Fed(whole, m, n, lits, st) && m + |p| <= |whole| && whole[m..m + |p|] == p
    ensures Fed(whole, m + |p|, n', lits, Feed(lits, st, p))
  {
    hide Scrub, ScrubHits, EmitLength, LinesFit, Registered, NewlineFree;
    var buf := st.held + p;
    assert buf == whole[n..m + |p|] && buf <= whole[n..];
    n' := n + EmitLength(buf);
    EmitsLines(whole, n, buf);
    BreaksEarlier(whole, n, n');
    assert whole[..n'] == whole[..n] + buf[..EmitLength(buf)];
    ScrubAcross(whole[..n], buf[..EmitLength(buf)], lits);
  }

  lemma BreaksEarlier(whole: string, n: nat, k: nat)
    requires n <= k <= |whole| && Breaks(whole[..n], whole[n..])
    ensures Breaks(whole[..n], whole[n..k])
  {
  }

  lemma {:induction false} FeedAllFed(lits: seq<string>, chunks: seq<string>, whole: string) returns (n: nat)
    requires Registered(lits) && NewlineFree(lits) && LinesFit(whole) && Joined(chunks) <= whole
    ensures Fed(whole, |Joined(chunks)|, n, lits, FeedAll(lits, chunks))
  {
    hide Scrub, ScrubHits, EmitLength, LinesFit, Feed;
    if chunks == [] {
      n := 0;
      ScrubNothing(lits);
      assert whole[..0] == "" && whole[0..0] == "";
    } else {
      var init, p := chunks[..|chunks| - 1], chunks[|chunks| - 1];
      var m := |Joined(init)|;
      assert Joined(init) <= Joined(chunks) && Joined(chunks)[m..] == p;
      n := FeedAllFed(lits, init, whole);
      assert whole[m..m + |p|] == p;
      n := FeedStep(lits, whole, m, n, p, FeedAll(lits, init));
    }
  }

  lemma {:induction false} ScrubNothing(lits: seq<string>)
    requires Registered(lits)
    ensures Scrub("", lits) == "" && ScrubHits("", lits) == 0
  {
    if lits != [] {
      ScrubNothing(lits[..|lits| - 1]);
    }
  }

  /** Output and count after the flush are those of the text scrubbed in one piece. */
  predicate AsOnePiece(lits: seq<string>, chunks: seq<string>)
    requires Registered(lits)
  {
    var s := Joined(chunks);
    Drained(lits, FeedAll(lits, chunks)) == Stream("", Scrub(s, lits), ScrubHits(s, lits))
  }

  /**
    * Chunking does not matter: with newline-free literals and lines of at most 4096 bytes, however
    * a text is split into writes, the output and the count are those of one piece.
    */
  lemma ChunkingIrrelevant(lits: seq<string>, chunks: seq<string>)
    requires Registered(lits) && NewlineFree(lits) && LinesFit(Joined(chunks))
    ensures AsOnePiece(lits, chunks)
  {
    hide Scrub, ScrubHits, FeedAll, LinesFit, Joined;
    var s := Joined(chunks);
    var n := FeedAllFed(lits, chunks, s);
    assert s == s[..n] + s[n..] && s[n..|s|] == s[n..];
    ScrubAcross(s[..n], s[n..], lits);
  }

  /** And then no registered plain literal is anywhere in the output. */
  lemma {:induction false} NoSecretGetsOut(lits: seq<string>, chunks: seq<string>, i: nat)
    requires Registered(lits) && NewlineFree(lits) && LinesFit(Joined(chunks))
    requires i < |lits| && Plain(lits[i])
    ensures !Occurs(Drained(lits, FeedAll(lits, chunks)).out, lits[i])
  {
    hide Scrub, ScrubHits, Occurs, Plain, Drained, FeedAll;
    ChunkingIrrelevant(lits, chunks);
    ScrubbedClean(Joined(chunks), lits, i);
  }

  // ------------------------------------------------------- past that length

  /** What New registers, newlines apart: at least six bytes. */
  predicate Registrable(lits: seq<string>) {
    NewlineFree(lits) && forall i :: 0 <= i < |lits| ==> |lits[i]| >= 6
  }

  lemma OneChunk(lits: seq<string>, st: Stream, p: string)
    requires Registered(lits) && NewlineFree(lits) && st.held == ""
    ensures Drained(lits, Feed(lits, st, p)) == Stream("", st.out + Scrub(p, lits), st.count + ScrubHits(p, lits))
  {
    hide Scrub, ScrubHits, EmitLength, Feed, Registered, NewlineFree;
    var e := EmitLength(p);
    EmitsTo(p);
    FeedIs(lits, st, p, p, e);
    assert p[..e] + p[e..] == p;
    ScrubAcross(p[..e], p[e..], lits);
    assert st.out + Scrub(p[..e], lits) + Scrub(p[e..], lits) == st.out + Scrub(p, lits);
  }

  /** A chunk that is let through as it comes. */
  lemma WholeChunk(lits: seq<string>, st: Stream, p: string)
    requires Registered(lits) && st.held == "" && (Lines(p) || (|p| == MAX_HOLD && '\n' !in p))
    ensures Feed(lits, st, p) == Stream("", st.out + Scrub(p, lits), st.count + ScrubHits(p, lits))
  {
    hide Scrub, ScrubHits;
    assert "" + p == p && p[..|p|] == p;
    assert EmitLength(p) == |p| by {
      if |p| > MAX_HOLD {
        assert p[|p| - MAX_HOLD..][MAX_HOLD - 1] == p[|p| - 1];
      }
    }
  }

  lemma Unscrubbed(s: string, lit: string)
    requires lit != "" && |s| < |lit|
    ensures Scrub(s, [lit]) == s && ScrubHits(s, [lit]) == 0
  {
    assert [lit][..0] == [];
  }

  lemma ScrubItself(lit: string)
    requires lit != ""
    ensures Scrub(lit, [lit]) == PLACEHOLDER && ScrubHits(lit, [lit]) == 1
  {
    assert [lit][..0] == [] && lit[0..|lit|] == lit;
    assert At(lit, lit, 0);
    assert First(lit, lit) == 0 && lit[..0] == "" && lit[|lit|..] == "";
    assert ReplaceAll("", lit) == "" && Hits("", lit) == 0;
  }

  lemma AtEnd(x: string, lit: string, y: string)
    ensures Occurs(x + lit + y, lit)
  {
    assert At(x + lit + y, lit, |x|);
  }

  /** A line that is too long, and what is before and after it. */
  lemma LongLine(s: string) returns (before: string, line: string, after: string)
    requires !LinesFit(s)
    ensures s == before + line + after && Lines(before) && '\n' !in line && |line| > MAX_HOLD
    ensures after == "" || after[0] == '\n'
  {
    hide Cut, LineLength, Lines, LinesFit;
    var i := LongAt(s);
    var a, z := Cut(s[..i]), i + MAX_HOLD + 1;
    var e := z + LineLength(s[z..]);
    before, line, after := s[..a], s[a..e], s[e..];
    assert s[..i][..a] == before && s[..i][a..] == s[a..i];
    assert s[z..][..LineLength(s[z..])] == s[z..e];
    Stretch(s, a, i, z, e);
  }

  lemma LongAt(s: string) returns (i: nat)
    requires !LinesFit(s)
    ensures i + MAX_HOLD < |s| && '\n' !in s[i..i + MAX_HOLD + 1]
  {
    i :| i + MAX_HOLD < |s| && !LineEnds(s, i);
  }

  lemma Stretch(s: string, a: nat, i: nat, z: nat, e: nat)
    requires a <= i <= z <= e <= |s| && '\n' !in s[a..i] && '\n' !in s[i..z] && '\n' !in s[z..e]
    ensures '\n' !in s[a..e]
  {
    assert s[a..e] == s[a..i] + s[i..z] + s[z..e];
  }

  /** The length of a text's first line, its newline not counted. */
  function LineLength(s: string): (n: nat)
    ensures n <= |s| && '\n' !in s[..n] && (n < |s| ==> s[n] == '\n')
  {
    if s == "" || s[0] == '\n' then 0
    else
      var n := LineLength(s[1..]);
      assert s[..n + 1] == [s[0]] + s[1..][..n];
      n + 1
  }

  /**
    * Past that length the promise fails, wherever in the text the long line is: registered as the
    * secret and cut after 4096 bytes, it gets out, and is not counted.
    */
  lemma LongLineLeaks(s: string) returns (lits: seq<string>, chunks: seq<string>)
    requires !LinesFit(s)
    ensures Registrable(lits) && Registered(lits) && Joined(chunks) == s && !AsOnePiece(lits, chunks)
    ensures |lits| == 1 && Occurs(Drained(lits, FeedAll(lits, chunks)).out, lits[0])
  {
    hide Scrub, ScrubHits, Feed, Drained, Occurs, LinesFit;
    var before, line, after := LongLine(s);
    var head, tail := line[..MAX_HOLD], line[MAX_HOLD..];
    lits, chunks := [line], [before, head, tail + after];
    JoinsThree(before, head, tail + after);
    FeedsThree(lits, before, head, tail + after);
    assert before + (head + (tail + after)) == s;
    var st0 := Stream("", "", 0);
    WholeChunk(lits, st0, before);
    var st1 := Feed(lits, st0, before);
    WholeChunk(lits, st1, head);
    Unscrubbed(head, line);
    OneChunk(lits, Feed(lits, st1, head), tail + after);
    ScrubAcross(tail, after, lits);
    Unscrubbed(tail, line);
    ScrubAcross(before, line + after, lits);
    ScrubAcross(line, after, lits);
    ScrubItself(line);
    assert s == before + (line + after);
    var x, y := Scrub(before, lits), Scrub(after, lits);
    assert "" + x + head + (tail + y) == x + line + y;
    assert Drained(lits, FeedAll(lits, chunks)).out == x + line + y;
    AtEnd(x, line, y);
  }

  lemma JoinsThree(a: string, b: string, c: string)
    ensures Joined([a, b, c]) == a + (b + c)
  {
    assert [a, b, c][..2] == [a, b] && [a, b][..1] == [a] && [a][..0] == [];
    assert Joined([a]) == a;
    assert a + b + c == a + (b + c);
  }

  lemma FeedsThree(lits: seq<string>, a: string, b: string, c: string)
    requires Registered(lits)
    ensures FeedAll(lits, [a, b, c]) == Feed(lits, Feed(lits, Feed(lits, Stream("", "", 0), a), b), c)
  {
    hide Feed;
    assert [a, b, c][..2] == [a, b] && [a, b][..1] == [a] && [a][..0] == [];
    assert FeedAll(lits, [a]) == Feed(lits, Stream("", "", 0), a);
    assert FeedAll(lits, [a, b]) == Feed(lits, FeedAll(lits, [a]), b);
  }

  // ------------------------------------------------------- one secret, long lines

  /** No occurrence of the literal lies across position e. */
  ghost predicate Spared(s: string, lit: string, e: nat) {
    forall j: nat :: At(s, lit, j) ==> j + |lit| <= e || e <= j
  }

  /** Cutting where no occurrence lies across, the parts may be replaced one by one. */
  lemma {:induction false} ReplaceSplit(s: string, lit: string, e: nat)
    requires lit != "" && e <= |s| && Spared(s, lit, e)
    ensures ReplaceAll(s, lit) == ReplaceAll(s[..e], lit) + ReplaceAll(s[e..], lit)
    decreases |s|
  {
    hide At, First, Spared, Occurs, ReplaceAll;
    var k := First(s, lit);
    ReplaceStep(s, lit);
    ReplaceStep(s[..e], lit);
    if k < |s| && k + |lit| <= e {
      var rest, e' := s[k + |lit|..], e - k - |lit|;
      FirstOfPart(s, lit, e, k);
      SparedRest(s, lit, e, k + |lit|);
      ReplaceSplit(rest, lit, e');
      PartsOf(s, k, k + |lit|, e);
      Regroup(s[..k], ReplaceAll(rest[..e'], lit), ReplaceAll(s[e..], lit));
    } else {
      NoneBefore(s, lit, e, k);
      SplitBehind(s, lit, e, k);
    }
  }

  lemma ReplaceStep(s: string, lit: string)
    requires lit != ""
    ensures var k := First(s, lit);
            ReplaceAll(s, lit) == if k == |s| then s else Replaced(s[..k], ReplaceAll(s[k + |lit|..], lit))
  {
    hide At;
  }

  function Replaced(before: string, after: string): string {
    before + PLACEHOLDER + after
  }

  lemma Regroup(a: string, b: string, c: string)
    ensures Replaced(a, b + c) == Replaced(a, b) + c
  {
  }

  lemma RegroupFront(a: string, b: string, c: string)
    ensures Replaced(a + b, c) == a + Replaced(b, c)
  {
  }

  lemma PartsOf(s: string, k: nat, m: nat, e: nat)
    requires k <= m <= e <= |s|
    ensures s[..e][m..] == s[m..][..e - m] && s[m..][e - m..] == s[e..] && s[..e][..k] == s[..k]
  {
  }

  lemma SplitBehind(s: string, lit: string, e: nat, k: nat)
    requires lit != "" && e <= k <= |s| && k == First(s, lit) && First(s[..e], lit) == e && First(s[e..], lit) == k - e
    ensures ReplaceAll(s, lit) == ReplaceAll(s[..e], lit) + ReplaceAll(s[e..], lit)
  {
    hide At, First, Occurs, ReplaceAll, Replaced;
    ReplaceStep(s, lit);
    ReplaceStep(s[..e], lit);
    ReplaceStep(s[e..], lit);
    if k < |s| {
      PartsBehind(s, e, k, k + |lit|);
      RegroupFront(s[..e], s[e..][..k - e], ReplaceAll(s[k + |lit|..], lit));
    }
  }

  lemma PartsBehind(s: string, e: nat, k: nat, m: nat)
    requires e <= k <= m <= |s|
    ensures s[e..][m - e..] == s[m..] && s[..e] + s[e..][..k - e] == s[..k]
  {
  }

  lemma FirstOfPart(s: string, lit: string, e: nat, k: nat)
    requires lit != "" && k == First(s, lit) && k + |lit| <= e <= |s| && k < |s|
    ensures First(s[..e], lit) == k
  {
    assert s[..e] == s[0..e];
    forall j: nat ensures At(s[..e], lit, j) <==> j + |lit| <= e && At(s, lit, j) {
      AtPart(s, 0, e, lit, j);
    }
    var m := First(s[..e], lit);
    assert At(s[..e], lit, k);
  }

  lemma SparedRest(s: string, lit: string, e: nat, from: nat)
    requires from <= e <= |s| && Spared(s, lit, e)
    ensures Spared(s[from..], lit, e - from)
  {
    assert s[from..] == s[from..|s|];
    forall j: nat | At(s[from..], lit, j) ensures j + |lit| <= e - from || e - from <= j {
      AtPart(s, from, |s|, lit, j);
    }
  }

  /** The first occurrence comes behind e, or there is none. */
  lemma NoneBefore(s: string, lit: string, e: nat, k: nat)
    requires lit != "" && e <= |s| && Spared(s, lit, e) && k == First(s, lit) && (k == |s| || k + |lit| > e)
    ensures First(s[..e], lit) == e && k >= e && First(s[e..], lit) == k - e
  {
    assert s[..e] == s[0..e] && s[e..] == s[e..|s|];
    var a, b := First(s[..e], lit), First(s[e..], lit);
    AtPart(s, 0, e, lit, a);
    AtPart(s, e, |s|, lit, b);
    if e <= k {
      AtPart(s, e, |s|, lit, k - e);
    }
  }

  /** The literal has no proper beginning that is also its end, so occurrences never overlap. */
  ghost predicate Unbordered(lit: string) {
    forall t :: 0 < t < |lit| ==> lit[|lit| - t..] != lit[..t]
  }

  /** Some occurrence ends more than 4096 bytes into a line. */
  ghost predicate Exposed(s: string, lit: string) {
    exists p: nat :: At(s, lit, p) && LongBefore(s, lit, p)
  }

  predicate LongBefore(s: string, lit: string, p: nat)
    requires p + |lit| <= |s|
  {
    p + |lit| > MAX_HOLD && forall i :: p + |lit| - MAX_HOLD - 1 <= i < p ==> s[i] != '\n'
  }

  /** What is out of a text is the scrubbed beginning up to n, and no occurrence lies across n. */
  ghost predicate Flowed(whole: string, m: nat, n: nat, lit: string, st: Stream)
    requires lit != ""
  {
    n <= m <= |whole| && Spared(whole, lit, n) && st.held == whole[n..m] && st.out == ReplaceAll(whole[..n], lit)
  }

  /** Unless some occurrence is exposed, what a write lets through never ends inside one. */
  lemma NeverInside(whole: string, lit: string, n: nat, m: nat)
    requires lit != "" && '\n' !in lit && n <= m <= |whole| && Spared(whole, lit, n) && !Exposed(whole, lit)
    ensures Spared(whole, lit, n + EmitLength(whole[n..m]))
  {
    hide EmitLength;
    var buf := whole[n..m];
    var e := EmitLength(buf);
    var k := n + e;
    EmitsTo(buf);
    assert e > 0 ==> whole[k - 1] == buf[e - 1];
    forall j: nat | At(whole, lit, j) ensures j + |lit| <= k || k <= j {
      NoNewlineAt(whole, lit, j);
      if j < k < j + |lit| && e > 0 && buf[e - 1] != '\n' {
        HardCut(whole, lit, n, m, j);
      }
    }
  }

  lemma NoNewlineAt(s: string, lit: string, j: nat)
    requires '\n' !in lit && At(s, lit, j)
    ensures forall i :: j <= i < j + |lit| ==> s[i] != '\n'
  {
    forall i | j <= i < j + |lit| ensures s[i] != '\n' {
      CharAt(s, lit, j, i);
    }
  }

  lemma HardCut(whole: string, lit: string, n: nat, m: nat, j: nat)
    requires n <= m <= |whole| && At(whole, lit, j) && j < m < j + |lit|
    requires m - n >= MAX_HOLD && '\n' !in whole[n..m][m - n - MAX_HOLD..]
    ensures Exposed(whole, lit)
  {
    forall i | j + |lit| - MAX_HOLD - 1 <= i < j ensures whole[i] != '\n' {
      assert whole[i] == whole[n..m][m - n - MAX_HOLD..][i - (m - MAX_HOLD)];
    }
    assert LongBefore(whole, lit, j);
  }

  lemma FlowStep(lit: string, whole: string, m: nat, n: nat, p: string, st: Stream) returns (n': nat)
    requires lit != "" && '\n' !in lit && !Exposed(whole, lit)
    requires Flowed(whole, m, n, lit, st) && m + |p| <= |whole| && whole[m..m + |p|] == p
    ensures Flowed(whole, m + |p|, n', lit, Feed([lit], st, p))
  {
    hide EmitLength, ReplaceAll, Exposed, At;
    var buf := st.held + p;
    assert buf == whole[n..m + |p|];
    n' := n + EmitLength(buf);
    NeverInside(whole, lit, n, m + |p|);
    OneLiteral(buf[..EmitLength(buf)], lit);
    assert whole[..n'][..n] == whole[..n] && whole[..n'][n..] == buf[..EmitLength(buf)];
    SparedFront(whole, lit, n, n');
    ReplaceSplit(whole[..n'], lit, n);
    assert buf[EmitLength(buf)..] == whole[n'..m + |p|];
  }

  lemma SparedFront(s: string, lit: string, e: nat, to: nat)
    requires e <= to <= |s| && Spared(s, lit, e)
    ensures Spared(s[..to], lit, e)
  {
    assert s[..to] == s[0..to];
    forall j: nat | At(s[..to], lit, j) ensures j + |lit| <= e || e <= j {
      AtPart(s, 0, to, lit, j);
    }
  }

  lemma OneLiteral(s: string, lit: string)
    requires lit != ""
    ensures Scrub(s, [lit]) == ReplaceAll(s, lit)
  {
    assert [lit][..0] == [];
  }

  lemma {:induction false} FlowAll(lit: string, chunks: seq<string>, whole: string) returns (n: nat)
    requires lit != "" && '\n' !in lit && !Exposed(whole, lit) && Joined(chunks) <= whole
    ensures Flowed(whole, |Joined(chunks)|, n, lit, FeedAll([lit], chunks))
  {
    hide Scrub, ScrubHits, EmitLength, Exposed, Feed, ReplaceAll, At;
    if chunks == [] {
      n := 0;
      ReplacedNothing(lit);
      assert whole[..0] == "" && whole[0..0] == "";
    } else {
      var init, p := chunks[..|chunks| - 1], chunks[|chunks| - 1];
      var m := |Joined(init)|;
      assert Joined(init) <= Joined(chunks) && Joined(chunks)[m..] == p;
      n := FlowAll(lit, init, whole);
      assert whole[m..m + |p|] == p;
      n := FlowStep(lit, whole, m, n, p, FeedAll([lit], init));
    }
  }

  lemma ReplacedNothing(lit: string)
    requires lit != ""
    ensures ReplaceAll("", lit) == ""
  {
    assert First("", lit) == 0;
  }

  /** An occurrence so far into a line can be cut in two by the writer, and then both halves get out. */
  lemma CutInTwo(s: string, lit: string, p: nat) returns (chunks: seq<string>)
    requires |lit| >= 6 && '\n' !in lit && Unbordered(lit) && At(s, lit, p) && LongBefore(s, lit, p)
    ensures Joined(chunks) == s && Occurs(Drained([lit], FeedAll([lit], chunks)).out, lit)
  {
    hide Scrub, ScrubHits, Feed, Drained, EmitLength, ReplaceAll, Occurs, Unbordered;
    var e := p + |lit| - 1;
    var a, b := s[..e], s[e..];
    chunks := [a, b];
    TwoChunks([lit], a, b);
    assert a + b == s;
    AllLetThrough(s, lit, p);
    FeedIs([lit], Stream("", "", 0), a, a, e);
    OneChunk([lit], Feed([lit], Stream("", "", 0), a), b);
    OneLiteral(a[..e], lit);
    OneLiteral(b, lit);
    assert a[..e] == a;
    var x, y, z, w := s[..p], lit[..|lit| - 1], lit[|lit| - 1..], s[p + |lit|..];
    assert a == x + y && b == z + w && y + z == lit by {
      assert s[p..p + |lit|] == lit;
    }
    EndUntouched(x, y, lit);
    StartUntouched(z, w, lit);
    AtEnd(ReplaceAll(x, lit), lit, ReplaceAll(w, lit));
    assert Drained([lit], FeedAll([lit], chunks)).out == "" + ReplaceAll(a, lit) + ReplaceAll(b, lit);
    assert "" + ReplaceAll(a, lit) == ReplaceAll(a, lit);
    assert (ReplaceAll(x, lit) + y) + (z + ReplaceAll(w, lit)) == ReplaceAll(x, lit) + lit + ReplaceAll(w, lit);
  }

  lemma TwoChunks(lits: seq<string>, a: string, b: string)
    requires Registered(lits)
    ensures Joined([a, b]) == a + b
    ensures FeedAll(lits, [a, b]) == Feed(lits, Feed(lits, Stream("", "", 0), a), b)
  {
    hide Feed;
    assert [a, b][..1] == [a] && [a][..0] == [];
    assert Joined([a]) == "" + a == a;
    assert FeedAll(lits, [a]) == Feed(lits, Stream("", "", 0), a);
  }

  lemma AllLetThrough(s: string, lit: string, p: nat)
    requires lit != "" && '\n' !in lit && At(s, lit, p) && LongBefore(s, lit, p)
    ensures EmitLength(s[..p + |lit| - 1]) == p + |lit| - 1
  {
    hide Lines;
    var e := p + |lit| - 1;
    var last := s[..e][e - MAX_HOLD..];
    if i :| 0 <= i < |last| && last[i] == '\n' {
      assert last[i] == s[e - MAX_HOLD + i];
      if e - MAX_HOLD + i >= p {
        CharAt(s, lit, p, e - MAX_HOLD + i);
      }
    }
    if e == MAX_HOLD {
      assert last == s[..e];
    }
  }

  /** An occurrence that ends inside a beginning of the literal makes that a border. */
  lemma OverlapIsBorder(x: string, y: string, lit: string, j: nat)
    requires lit != "" && y == lit[..|lit| - 1] && At(x + y, lit, j)
    ensures j < |x| < j + |lit| ==>
              var t := j + |lit| - |x|; t < |lit| && lit[|lit| - t..] == lit[..t]
  {
    if j < |x| < j + |lit| {
      var s, t := x + y, j + |lit| - |x|;
      assert lit[|lit| - t..] == s[j..j + |lit|][|lit| - t..] == s[|x|..|x| + t] == y[..t] == lit[..t];
    }
  }

  lemma StartIsBorder(z: string, w: string, lit: string, j: nat)
    requires |lit| >= 2 && z == lit[|lit| - 1..] && At(z + w, lit, j)
    ensures j == 0 ==> lit[|lit| - 1..] == lit[..1]
  {
    var s := z + w;
    if j == 0 {
      assert lit[..1] == s[0..|lit|][..1] == s[..1] == z;
    }
  }

  lemma EndUntouched(x: string, y: string, lit: string)
    requires lit != "" && Unbordered(lit) && y == lit[..|lit| - 1]
    ensures ReplaceAll(x + y, lit) == ReplaceAll(x, lit) + y
  {
    var s := x + y;
    forall j: nat | At(s, lit, j) ensures j + |lit| <= |x| || |x| <= j {
      OverlapIsBorder(x, y, lit, j);
    }
    ReplaceSplit(s, lit, |x|);
    assert s[..|x|] == x && s[|x|..] == y;
    assert First(y, lit) == |y|;
  }

  lemma StartUntouched(z: string, w: string, lit: string)
    requires |lit| >= 2 && Unbordered(lit) && z == lit[|lit| - 1..]
    ensures ReplaceAll(z + w, lit) == z + ReplaceAll(w, lit)
  {
    var s := z + w;
    forall j: nat | At(s, lit, j) ensures j + |lit| <= 1 || 1 <= j {
      StartIsBorder(z, w, lit, j);
    }
    ReplaceSplit(s, lit, 1);
    assert s[..1] == z && s[1..] == w;
    assert First(z, lit) == |z|;
  }

  /**
    * Exactly which secrets a caller need fear for: one can get out whole, by some way of splitting the
    * text, if and only if it occurs where it ends more than 4096 bytes into a line.
    */
  lemma SecretLeaksExactly(s: string, lit: string)
    requires |lit| >= 6 && '\n' !in lit && Plain(lit) && Unbordered(lit)
    ensures (exists chunks: seq<string> ::
               Joined(chunks) == s && Occurs(Drained([lit], FeedAll([lit], chunks)).out, lit)) <==> Exposed(s, lit)
  {
    hide Occurs, Plain, Unbordered, Exposed, Joined, FeedAll, Drained;
    if Exposed(s, lit) {
      var p := ExposedAt(s, lit);
      var chunks := CutInTwo(s, lit, p);
    } else {
      forall chunks: seq<string> | Joined(chunks) == s
        ensures !Occurs(Drained([lit], FeedAll([lit], chunks)).out, lit)
      {
        NothingLeaks(s, lit, chunks);
      }
    }
  }

  lemma ExposedAt(s: string, lit: string) returns (p: nat)
    requires Exposed(s, lit)
    ensures At(s, lit, p) && LongBefore(s, lit, p)
  {
    p :| At(s, lit, p) && LongBefore(s, lit, p);
  }

  lemma NothingLeaks(s: string, lit: string, chunks: seq<string>)
    requires lit != "" && '\n' !in lit && Plain(lit) && !Exposed(s, lit) && Joined(chunks) == s
    ensures !Occurs(Drained([lit], FeedAll([lit], chunks)).out, lit)
  {
    hide Occurs, Plain, Exposed, Joined, FeedAll, ReplaceAll, At, Scrub, ScrubHits;
    var n := FlowAll(lit, chunks, s);
    ReplaceSplit(s, lit, n);
    OneLiteral(s[n..], lit);
    assert s[n..|s|] == s[n..];
    ReplacedAway(s, lit);
  }

  /**
    * Exactly which texts may be split at will: those whose lines have at most 4096 bytes, for all
    * newline-free secrets and all ways to split.
    */
  lemma ChunkingExactly(s: string)
    ensures LinesFit(s) <==>
      forall lits: seq<string>, chunks: seq<string> ::
        Registrable(lits) && Registered(lits) && Joined(chunks) == s ==> AsOnePiece(lits, chunks)
  {
    hide AsOnePiece, LinesFit, Joined;
    if LinesFit(s) {
      forall lits: seq<string>, chunks: seq<string> | Registrable(lits) && Registered(lits) && Joined(chunks) == s
        ensures AsOnePiece(lits, chunks)
      {
        ChunkingIrrelevant(lits, chunks);
      }
    } else {
      var lits, chunks := LongLineLeaks(s);
    }
  }

  class Redactor {
    const literals: seq<string>
    var held: string
    var out: string
    var count: nat

    /** The stream so far. */
    function Now(): Stream
      reads this
    {
      Stream(held, out, count)
    }

    /** Registers the literals of at least six bytes. */
    constructor (secrets: seq<string>)
      ensures Registered(literals)
      ensures forall l :: l in literals <==> l in secrets && |l| >= 6
      ensures Now() == FeedAll(literals, [])
    {
      var kept := [];
      for i := 0 to |secrets|
        invariant forall l :: l in kept <==> l in secrets[..i] && |l| >= 6
      {
        if |secrets[i]| >= 6 {
          kept := kept + [secrets[i]];
        }
      }
      assert secrets[..|secrets|] == secrets;
      literals, held, out, count := kept, "", "", 0;
    }

    /** Replaces every literal in turn, counting. */
    method DoScrub(p: string) returns (s: string)
      requires Registered(literals)
      modifies this`count
      ensures s == Scrub(p, literals) && count == old(count) + ScrubHits(p, literals)
    {
      s := p;
      for i := 0 to |literals|
        invariant s == Scrub(p, literals[..i]) && count == old(count) + ScrubHits(p, literals[..i])
      {
        assert literals[..i + 1][..i] == literals[..i];
        count := count + Hits(s, literals[i]);
        s := ReplaceAll(s, literals[i]);
      }
      assert literals[..|literals|] == literals;
    }

    /** Lets whole lines through and holds the rest back; reports the length it was given. */
    method Write(p: string) returns (n: nat)
      requires Registered(literals)
      modifies this
      ensures n == |p| && Now() == Feed(literals, old(Now()), p)
    {
      hide Scrub, ScrubHits, Registered, Feed, Lines, EmitLength;
      ghost var before := Now();
      var buf := held + p;
      EmitIs(buf);
      var cut := |buf|;
      if |buf| > MAX_HOLD {
        var split := Cut(buf[|buf| - MAX_HOLD..]);
        if split > 0 {
          cut := |buf| - MAX_HOLD + split;
        }
      } else {
        var line := Cut(buf);
        if line > 0 {
          cut := line;
        } else if |buf| < MAX_HOLD {
          FeedIs(literals, before, p, buf, 0);
          Untouched(literals, buf);
          held := buf;
          return |p|;
        }
      }
      FeedIs(literals, before, p, buf, cut);
      held := buf[cut..];
      var s := DoScrub(buf[..cut]);
      out := out + s;
      return |p|;
    }

    /** Lets the held tail through. */
    method Flush()
      requires Registered(literals)
      modifies this
      ensures Now() == Drained(literals, old(Now()))
    {
      hide Scrub, ScrubHits;
      if held == "" {
        ScrubNothing(literals);
        assert out + "" == out;
        return;
      }
      var s := DoScrub(held);
      held := "";
      out := out + s;
    }
  }

  lemma EmitIs(buf: string)
    ensures EmitLength(buf) ==
            if |buf| > MAX_HOLD then
              (var split := Cut(buf[|buf| - MAX_HOLD..]); if split > 0 then |buf| - MAX_HOLD + split else |buf|)
            else if Cut(buf) == 0 && |buf| == MAX_HOLD then |buf|
            else Cut(buf)
  {
  }

  lemma FeedIs(lits: seq<string>, st: Stream, p: string, buf: string, n: nat)
    requires Registered(lits) && buf == st.held + p && n == EmitLength(buf)
    ensures Feed(lits, st, p) == Stream(buf[n..], st.out + Scrub(buf[..n], lits), st.count + ScrubHits(buf[..n], lits))
  {
  }

  lemma Untouched(lits: seq<string>, buf: string)
    requires Registered(lits)
    ensures Scrub(buf[..0], lits) == "" && ScrubHits(buf[..0], lits) == 0
  {
    ScrubNothing(lits);
  }
}
