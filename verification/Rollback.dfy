/** Planning a rollback, and the version order its floor check rests on: engine/rollback.go. */
module Rollbacks {
  import opened Prelude
  import opened Lifecycle
  import opened Records
  import opened Strings

  // ------------------------------------------------------- version parts

  datatype Part = Part(text: string, num: Option<int>)

  predicate Separates(c: char) {
    c == '.' || c == '-' || c == '+' || c == '_'
  }

  /** The runs of characters between separators, none empty. */
  function Fields(s: string): (fs: seq<string>)
    ensures forall i :: 0 <= i < |fs| ==> fs[i] != "" && forall j :: 0 <= j < |fs[i]| ==> !Separates(fs[i][j])
    decreases |s|
  {
    if s == "" then []
    else if Separates(s[0]) then Fields(s[1..])
    else
      var n := FieldLength(s);
      [s[..n]] + Fields(s[n..])
  }

  function FieldLength(s: string): (n: nat)
    ensures n <= |s| && (forall j :: 0 <= j < n ==> !Separates(s[j])) && (n < |s| ==> Separates(s[n]))
    ensures s != "" && !Separates(s[0]) ==> n > 0
  {
    if s == "" || Separates(s[0]) then 0 else 1 + FieldLength(s[1..])
  }

  predicate IsDigit(c: char) {
    '0' <= c <= '9'
  }

  predicate AllDigits(s: string) {
    forall i :: 0 <= i < |s| ==> IsDigit(s[i])
  }

  /** What a run of digits means. */
  function Decimal(s: string): nat
    requires AllDigits(s)
  {
    if s == "" then 0 else Decimal(s[..|s| - 1]) * 10 + (s[|s| - 1] as int - '0' as int)
  }

  const WORD := 0x1_0000_0000_0000_0000

  const HALF := 0x8000_0000_0000_0000

  /** Sixty-four bits of a number, the top one a sign. */
  function Wrapped(n: int): int {
    (n + HALF) % WORD - HALF
  }

  function Number(s: string): Option<int> {
    if s == "" || !AllDigits(s) then None else Some(Wrapped(Decimal(s)))
  }

  lemma WrapStep(n: nat, d: nat)
    requires d < 10
    ensures Wrapped(Wrapped(n) * 10 + d) == Wrapped(n * 10 + d)
  {
    var q := (n + HALF) / WORD;
    assert n * 10 + d + HALF == (Wrapped(n) * 10 + d + HALF) + 10 * q * WORD;
    WholeWords(Wrapped(n) * 10 + d + HALF, 10 * q);
  }

  lemma WholeWords(x: int, k: int)
    ensures (x + k * WORD) % WORD == x % WORD
  {
  }

  /** A number is what its digits say exactly when it fits 63 bits. */
  lemma NumberFits(s: string)
    requires s != "" && AllDigits(s)
    ensures Number(s) == Some(Decimal(s)) <==> Decimal(s) < HALF
  {
  }

  method ParseInt(s: string) returns (n: Option<int>)
    ensures n == Number(s)
  {
    if s == "" {
      return None;
    }
    var v := 0;
    for i := 0 to |s|
      invariant AllDigits(s[..i]) && v == Wrapped(Decimal(s[..i]))
    {
      if !IsDigit(s[i]) {
        return None;
      }
      assert s[..i + 1][..i] == s[..i];
      WrapStep(Decimal(s[..i]), s[i] as int - '0' as int);
      v := Wrapped(v * 10 + (s[i] as int - '0' as int));
    }
    assert s[..|s|] == s;
    return Some(v);
  }

  function Trimmed(v: string): string {
    if v != "" && v[0] == 'v' then v[1..] else v
  }

  function Parts(v: string): (ps: seq<Part>)
  {
    var fs := Fields(Trimmed(v));
    seq(|fs|, i requires 0 <= i < |fs| => Part(fs[i], Number(fs[i])))
  }

  method SplitVersion(v: string) returns (ps: seq<Part>)
    ensures ps == Parts(v)
  {
    var fs := Fields(Trimmed(v));
    ps := [];
    for i := 0 to |fs|
      invariant |ps| == i && forall j :: 0 <= j < i ==> ps[j] == Part(fs[j], Number(fs[j]))
    {
      var n := ParseInt(fs[i]);
      ps := ps + [Part(fs[i], n)];
    }
  }

  // ------------------------------------------------------- version order

  /** Numbers by value, anything else by text. */
  predicate PartLess(p: Part, q: Part) {
    if p.num.Some? && q.num.Some? then p.num.value < q.num.value else Less(p.text, q.text)
  }

  /** Neither comes first. */
  predicate PartSame(p: Part, q: Part) {
    if p.num.Some? && q.num.Some? then p.num == q.num else p.text == q.text
  }

  /** By the first position that differs, else the shorter first. */
  predicate PartsLess(ps: seq<Part>, qs: seq<Part>) {
    if ps == [] || qs == [] then |ps| < |qs|
    else if PartSame(ps[0], qs[0]) then PartsLess(ps[1..], qs[1..])
    else PartLess(ps[0], qs[0])
  }

  predicate Older(a: string, b: string) {
    PartsLess(Parts(a), Parts(b))
  }

  method VersionLess(a: string, b: string) returns (less: bool)
    ensures less <==> Older(a, b)
  {
    hide Parts, PartsLess, Less;
    if a == b {
      NotOlder(Parts(a));
      return false;
    }
    var ps := SplitVersion(a);
    var qs := SplitVersion(b);
    assert ps[0..] == ps && qs[0..] == qs;
    var i := 0;
    while i < |ps| && i < |qs|
      invariant i <= |ps| && i <= |qs| && (Older(a, b) <==> PartsLess(ps[i..], qs[i..]))
    {
      FromHere(ps, qs, i);
      var p, q := ps[i], qs[i];
      if p.num.Some? && q.num.Some? {
        if p.num.value != q.num.value {
          return p.num.value < q.num.value;
        }
      } else if p.text != q.text {
        return Less(p.text, q.text);
      }
      i := i + 1;
    }
    FromHere(ps, qs, i);
    return |ps| < |qs|;
  }

  lemma FromHere(ps: seq<Part>, qs: seq<Part>, i: nat)
    requires i <= |ps| && i <= |qs|
    ensures PartsLess(ps[i..], qs[i..]) <==>
      if i == |ps| || i == |qs| then |ps| < |qs|
      else if PartSame(ps[i], qs[i]) then PartsLess(ps[i + 1..], qs[i + 1..])
      else PartLess(ps[i], qs[i])
  {
    if i < |ps| && i < |qs| {
      assert ps[i..][1..] == ps[i + 1..] && qs[i..][1..] == qs[i + 1..];
    }
  }

  lemma {:induction false} NotOlder(ps: seq<Part>)
    ensures !PartsLess(ps, ps)
  {
    if ps != [] {
      NotOlder(ps[1..]);
    }
  }

  lemma {:induction false} NotBoth(ps: seq<Part>, qs: seq<Part>)
    ensures !(PartsLess(ps, qs) && PartsLess(qs, ps))
  {
    if ps != [] && qs != [] {
      LessAsymmetric(ps[0].text, qs[0].text);
      NotBoth(ps[1..], qs[1..]);
    }
  }

  /** Irreflexive and asymmetric on all versions whatever. */
  lemma NeverBothOlder(a: string, b: string)
    ensures !Older(a, a) && !(Older(a, b) && Older(b, a))
  {
    NotOlder(Parts(a));
    NotBoth(Parts(a), Parts(b));
  }

  /** Position by position both are numbers or neither is. */
  predicate Aligned(ps: seq<Part>, qs: seq<Part>) {
    forall i :: 0 <= i < |ps| && i < |qs| ==> (ps[i].num.Some? <==> qs[i].num.Some?)
  }

  lemma AlignedTails(ps: seq<Part>, qs: seq<Part>)
    requires Aligned(ps, qs) && ps != [] && qs != []
    ensures Aligned(ps[1..], qs[1..]) && (ps[0].num.Some? <==> qs[0].num.Some?)
  {
  }

  lemma {:induction false} PartsTransitive(ps: seq<Part>, qs: seq<Part>, rs: seq<Part>)
    requires Aligned(ps, qs) && Aligned(qs, rs) && Aligned(ps, rs)
    ensures PartsLess(ps, qs) && PartsLess(qs, rs) ==> PartsLess(ps, rs)
    ensures !PartsLess(ps, qs) && !PartsLess(qs, ps) && !PartsLess(qs, rs) && !PartsLess(rs, qs) ==>
              !PartsLess(ps, rs) && !PartsLess(rs, ps)
  {
    hide Less, Aligned;
    if ps != [] && qs != [] && rs != [] {
      AlignedTails(ps, qs);
      AlignedTails(qs, rs);
      AlignedTails(ps, rs);
      PartsTransitive(ps[1..], qs[1..], rs[1..]);
      PartOrder(ps[0], qs[0], rs[0]);
    }
  }

  lemma PartOrder(p: Part, q: Part, r: Part)
    requires (p.num.Some? <==> q.num.Some?) && (q.num.Some? <==> r.num.Some?)
    ensures PartLess(p, q) && PartLess(q, r) ==> PartLess(p, r) && !PartSame(p, r)
    ensures !PartSame(p, q) ==> PartLess(p, q) || PartLess(q, p)
  {
    LessTotal(p.text, q.text);
    if Less(p.text, q.text) && Less(q.text, r.text) {
      LessTransitive(p.text, q.text, r.text);
      LessAsymmetric(p.text, r.text);
    }
  }

  /** A strict weak order on versions that agree position by position on what is a number. */
  lemma OlderIsOrder(a: string, b: string, c: string)
    requires Aligned(Parts(a), Parts(b)) && Aligned(Parts(b), Parts(c)) && Aligned(Parts(a), Parts(c))
    ensures Older(a, b) && Older(b, c) ==> Older(a, c)
    ensures !Older(a, b) && !Older(b, a) && !Older(b, c) && !Older(c, b) ==> !Older(a, c) && !Older(c, a)
  {
    PartsTransitive(Parts(a), Parts(b), Parts(c));
  }

  // ------------------------------------------------------- exactly when it is an order

  /** Each part's number is the one its text spells. */
  predicate Proper(ps: seq<Part>) {
    forall i :: 0 <= i < |ps| ==> ps[i].num == Number(ps[i].text)
  }

  /** Transitivity, of coming first and of coming neither first nor second, in one arrangement of three. */
  predicate Transits(ps: seq<Part>, qs: seq<Part>, rs: seq<Part>) {
    && (PartsLess(ps, qs) && PartsLess(qs, rs) ==> PartsLess(ps, rs))
    && (!PartsLess(ps, qs) && !PartsLess(qs, ps) && !PartsLess(qs, rs) && !PartsLess(rs, qs) ==>
          !PartsLess(ps, rs) && !PartsLess(rs, ps))
  }

  /** The order is a strict weak order on three. */
  predicate WeakOrder(ps: seq<Part>, qs: seq<Part>, rs: seq<Part>) {
    && Transits(ps, qs, rs) && Transits(ps, rs, qs) && Transits(qs, ps, rs)
    && Transits(qs, rs, ps) && Transits(rs, ps, qs) && Transits(rs, qs, ps)
  }

  /**
    * At the first position ps and qs have numbers and rs text; the text lies after qs's and before
    * ps's, while by number ps comes first, or by equal numbers and what follows qs does not.
    */
  predicate Caught(ps: seq<Part>, qs: seq<Part>, rs: seq<Part>)
    requires ps != [] && qs != [] && rs != []
  {
    && ps[0].num.Some? && qs[0].num.Some? && rs[0].num.None?
    && Less(qs[0].text, rs[0].text) && Less(rs[0].text, ps[0].text)
    && (ps[0].num.value < qs[0].num.value
        || (ps[0].num == qs[0].num && !PartsLess(qs[1..], ps[1..])))
  }

  /** At the first position where the three differ, text is caught between two numbers. */
  predicate Tangled(ps: seq<Part>, qs: seq<Part>, rs: seq<Part>) {
    if ps == [] || qs == [] || rs == [] then false
    else if PartSame(ps[0], qs[0]) && PartSame(qs[0], rs[0]) then Tangled(ps[1..], qs[1..], rs[1..])
    else
      || Caught(ps, qs, rs) || Caught(qs, ps, rs) || Caught(ps, rs, qs)
      || Caught(rs, ps, qs) || Caught(qs, rs, ps) || Caught(rs, qs, ps)
  }

  /** Two heads: the same kind if the same, one before the other if not. */
  lemma Heads(p: Part, q: Part)
    requires p.num == Number(p.text) && q.num == Number(q.text)
    ensures PartSame(p, q) <==> PartSame(q, p)
    ensures PartSame(p, q) ==> (p.num.Some? <==> q.num.Some?)
    ensures !PartSame(p, q) ==> (PartLess(p, q) <==> !PartLess(q, p))
    ensures p.text == q.text ==> PartSame(p, q)
  {
    LessTotal(p.text, q.text);
    LessAsymmetric(p.text, q.text);
  }

  /** Text order on three. */
  lemma TextOrder(a: string, b: string, c: string)
    ensures Less(a, b) && Less(b, c) ==> Less(a, c)
    ensures !(Less(a, b) && Less(b, a)) && !Less(a, a)
    ensures a == b || Less(a, b) || Less(b, a)
  {
    LessAsymmetric(a, b);
    LessAsymmetric(a, a);
    LessTotal(a, b);
    if Less(a, b) && Less(b, c) {
      LessTransitive(a, b, c);
    }
  }

  lemma AllTextOrders(a: string, b: string, c: string)
    ensures Less(a, b) && Less(b, c) ==> Less(a, c)
    ensures Less(a, c) && Less(c, b) ==> Less(a, b)
    ensures Less(b, a) && Less(a, c) ==> Less(b, c)
    ensures Less(b, c) && Less(c, a) ==> Less(b, a)
    ensures Less(c, a) && Less(a, b) ==> Less(c, b)
    ensures Less(c, b) && Less(b, a) ==> Less(c, a)
    ensures !(Less(a, b) && Less(b, a)) && !(Less(a, c) && Less(c, a)) && !(Less(b, c) && Less(c, b))
    ensures (a == b || Less(a, b) || Less(b, a)) && (a == c || Less(a, c) || Less(c, a))
    ensures b == c || Less(b, c) || Less(c, b)
  {
    hide Less;
    TextOrder(a, b, c);
    TextOrder(a, c, b);
    TextOrder(b, a, c);
    TextOrder(b, c, a);
    TextOrder(c, a, b);
    TextOrder(c, b, a);
  }

  lemma ProperTail(ps: seq<Part>)
    requires Proper(ps) && ps != []
    ensures Proper(ps[1..]) && ps[0].num == Number(ps[0].text)
  {
  }

  /**
    * Exactly when the order is one: three versions are strictly weakly ordered if and only if at the
    * first position where they differ no text is caught between two numbers.
    */
  lemma {:induction false} WeakOrderExactly(ps: seq<Part>, qs: seq<Part>, rs: seq<Part>)
    requires Proper(ps) && Proper(qs) && Proper(rs)
    ensures WeakOrder(ps, qs, rs) <==> !Tangled(ps, qs, rs)
  {
    hide Less, Number, Proper;
    if ps != [] && qs != [] && rs != [] {
      ProperTail(ps);
      ProperTail(qs);
      ProperTail(rs);
      Heads(ps[0], qs[0]);
      Heads(ps[0], rs[0]);
      Heads(qs[0], rs[0]);
      if PartSame(ps[0], qs[0]) && PartSame(qs[0], rs[0]) {
        WeakOrderExactly(ps[1..], qs[1..], rs[1..]);
      } else {
        AllTextOrders(ps[0].text, qs[0].text, rs[0].text);
        NotBoth(ps[1..], qs[1..]);
        NotBoth(ps[1..], rs[1..]);
        NotBoth(qs[1..], rs[1..]);
      }
    }
  }

  lemma PartsProper(v: string)
    ensures Proper(Parts(v))
  {
  }

  /** The same for versions. */
  lemma OlderExactly(a: string, b: string, c: string)
    ensures WeakOrder(Parts(a), Parts(b), Parts(c)) <==> !Tangled(Parts(a), Parts(b), Parts(c))
  {
    PartsProper(a);
    PartsProper(b);
    PartsProper(c);
    WeakOrderExactly(Parts(a), Parts(b), Parts(c));
  }

  /** Mixing numbers and text at one position, the order can run in a circle. */
  lemma {:induction false} OlderCanCycle()
    ensures Older("9", "10") && Older("10", "1a") && Older("1a", "9")
  {
    OneField("9");
    OneField("10");
    OneField("1a");
    Small();
    assert Parts("9") == [Part("9", Some(9))] && Parts("10") == [Part("10", Some(10))]
      && Parts("1a") == [Part("1a", None)];
    assert Less("10"[1..], "1a"[1..]);
  }

  lemma OneField(s: string)
    requires s != "" && s[0] != 'v' && forall i :: 0 <= i < |s| ==> !Separates(s[i])
    ensures Fields(Trimmed(s)) == [s]
  {
    assert FieldLength(s) == |s| && s[..|s|] == s;
  }

  lemma Small()
    ensures Number("9") == Some(9) && Number("10") == Some(10) && Number("1a") == None
  {
    assert "9"[..0] == "" && "10"[..1] == "1" && "1"[..0] == "";
    assert Decimal("9") == 9 && Decimal("1") == 1 && Decimal("10") == 10;
    assert !IsDigit("1a"[1]);
  }

  /** Leading zeros are enough: two equal numbers with text between them. */
  lemma ZerosBreakTheOrder()
    ensures !Older("1", "01") && !Older("01", "1") && Older("01", "0a") && Older("0a", "1")
    ensures Tangled(Parts("1"), Parts("01"), Parts("0a"))
  {
    OneField("1");
    OneField("01");
    OneField("0a");
    SmallZeros();
    assert Parts("1") == [Part("1", Some(1))] && Parts("01") == [Part("01", Some(1))];
    assert Parts("0a") == [Part("0a", None)];
    assert Less("01"[1..], "0a"[1..]);
  }

  lemma SmallZeros()
    ensures Number("1") == Some(1) && Number("01") == Some(1) && Number("0a") == None
  {
    assert "1"[..0] == "" && "01"[..1] == "0" && "0"[..0] == "";
    assert Decimal("1") == 1 && Decimal("0") == 0 && Decimal("01") == 1;
    assert !IsDigit("0a"[1]);
  }

  /** A run of digits as a part. */
  function Digits(s: string): Part {
    Part(s, Number(s))
  }

  /**
    * Two numbers of different value have some text that closes a circle with them if and only if
    * their order as numbers is against their order as text.
    */
  lemma CycleExactly(p: string, q: string)
    requires p != "" && q != "" && AllDigits(p) && AllDigits(q) && Decimal(p) < Decimal(q) < HALF
    ensures (exists t: string :: Number(t).None? && PartLess(Digits(q), Digits(t)) && PartLess(Digits(t), Digits(p)))
            <==> Less(q, p)
  {
    if Less(q, p) {
      var t := q + "a";
      assert !IsDigit(t[|q|]);
      LessThanLonger(q, "a");
      if q <= p {
        LongerIsMore(q, p);
      }
      LessDespite(q, p, "a");
      assert Number(t).None? && PartLess(Digits(q), Digits(t)) && PartLess(Digits(t), Digits(p));
    } else {
      forall t: string | Number(t).None? && PartLess(Digits(q), Digits(t)) && PartLess(Digits(t), Digits(p))
        ensures false
      {
        LessTransitive(q, t, p);
      }
    }
  }

  lemma {:induction false} LessThanLonger(s: string, t: string)
    requires t != ""
    ensures Less(s, s + t)
  {
    if s != "" {
      assert (s + t)[1..] == s[1..] + t;
      LessThanLonger(s[1..], t);
    }
  }

  lemma {:induction false} LessDespite(s: string, t: string, more: string)
    requires Less(s, t) && !(s <= t)
    ensures Less(s + more, t)
  {
    if s != "" && s[0] == t[0] {
      assert (s + more)[1..] == s[1..] + more;
      PrefixHead(s, t);
      LessDespite(s[1..], t[1..], more);
    }
  }

  lemma PrefixHead(s: string, t: string)
    requires s != "" && t != "" && s[0] == t[0]
    ensures s[1..] <= t[1..] ==> s <= t
  {
    assert s == [s[0]] + s[1..] && t == [t[0]] + t[1..];
  }

  lemma {:induction false} LongerIsMore(s: string, t: string)
    requires AllDigits(t) && s <= t
    ensures AllDigits(s) && Decimal(s) <= Decimal(t)
  {
    if |s| < |t| {
      assert t[..|s|] == s && t[..|t| - 1][..|s|] == s;
      LongerIsMore(s, t[..|t| - 1]);
    } else {
      assert t == s;
    }
  }

  // ------------------------------------------------------- what the parts are

  predicate AllSeparators(s: string) {
    forall i :: 0 <= i < |s| ==> Separates(s[i])
  }

  /** Text that is one part: not empty, no separator in it. */
  predicate OnePart(s: string) {
    s != "" && forall i :: 0 <= i < |s| ==> !Separates(s[i])
  }

  /** Texts between, before and after the fields, and the fields. */
  function Woven(between: seq<string>, fs: seq<string>): string
    requires |between| == |fs| + 1
  {
    if fs == [] then between[0] else between[0] + fs[0] + Woven(between[1..], fs[1..])
  }

  /** Only separators between, and some of them between any two fields. */
  predicate Keeps(between: seq<string>, fs: seq<string>) {
    && |between| == |fs| + 1 && (forall i :: 0 <= i < |fs| ==> OnePart(fs[i]))
    && (forall i :: 0 <= i <= |fs| ==> AllSeparators(between[i]))
    && (forall i :: 0 < i < |fs| ==> between[i] != "")
  }

  lemma KeepsOn(between: seq<string>, fs: seq<string>, before: string, f: string)
    requires Keeps(between, fs) && AllSeparators(before) && OnePart(f) && (fs != [] ==> between[0] != "")
    ensures Keeps([before] + between, [f] + fs)
    ensures Woven([before] + between, [f] + fs) == before + f + Woven(between, fs)
  {
    assert ([before] + between)[1..] == between && ([f] + fs)[1..] == fs;
  }

  /** The separators around the fields of a text. */
  function Between(s: string): (between: seq<string>)
    ensures |between| == |Fields(s)| + 1
    decreases |s|
  {
    if s == "" then [""]
    else if Separates(s[0]) then
      var rest := Between(s[1..]);
      [[s[0]] + rest[0]] + rest[1..]
    else [""] + Between(s[FieldLength(s)..])
  }

  /** Nothing of a text is lost: its fields, with the separators around them, give it back. */
  lemma {:induction false} FieldsWoven(s: string)
    ensures Keeps(Between(s), Fields(s)) && Woven(Between(s), Fields(s)) == s
    ensures s != "" && Separates(s[0]) ==> Between(s)[0] != ""
    decreases |s|
  {
    hide Woven, Keeps, Separates;
    if s == "" {
      NothingWoven();
    } else if Separates(s[0]) {
      FieldsWoven(s[1..]);
      WovenOn(s[0], Between(s[1..]), Fields(s[1..]));
      assert s == [s[0]] + s[1..];
    } else {
      var n := FieldLength(s);
      FieldsWoven(s[n..]);
      KeepsOn(Between(s[n..]), Fields(s[n..]), "", s[..n]);
      assert s == "" + s[..n] + s[n..];
    }
  }

  lemma NothingWoven()
    ensures Keeps([""], []) && Woven([""], []) == ""
  {
  }

  lemma WovenOn(c: char, between: seq<string>, fs: seq<string>)
    requires Keeps(between, fs) && Separates(c)
    ensures var between' := [[c] + between[0]] + between[1..];
            Keeps(between', fs) && Woven(between', fs) == [c] + Woven(between, fs)
  {
    var between' := [[c] + between[0]] + between[1..];
    assert between'[1..] == between[1..];
    assert forall i :: 0 < i <= |fs| ==> between'[i] == between[i];
    if fs != [] {
      assert [c] + between[0] + fs[0] + Woven(between[1..], fs[1..])
          == [c] + (between[0] + fs[0] + Woven(between[1..], fs[1..]));
    }
  }

  lemma {:induction false} SkipsSeparators(before: string, rest: string)
    requires AllSeparators(before)
    ensures Fields(before + rest) == Fields(rest)
  {
    if before == "" {
      assert before + rest == rest;
    } else {
      assert (before + rest)[1..] == before[1..] + rest;
      SkipsSeparators(before[1..], rest);
    }
  }

  lemma {:induction false} TakesPart(f: string, rest: string)
    requires (forall i :: 0 <= i < |f| ==> !Separates(f[i])) && (rest != "" ==> Separates(rest[0]))
    ensures FieldLength(f + rest) == |f|
    ensures f != "" ==> Fields(f + rest) == [f] + Fields(rest)
  {
    if f == "" {
      assert f + rest == rest;
    } else {
      assert (f + rest)[1..] == f[1..] + rest;
      TakesPart(f[1..], rest);
      assert (f + rest)[..|f|] == f && (f + rest)[|f|..] == rest;
    }
  }

  /** And nothing else does: whatever is woven of parts and separators has just those parts for its fields. */
  lemma {:induction false} WovenFields(between: seq<string>, fs: seq<string>)
    requires Keeps(between, fs)
    ensures Fields(Woven(between, fs)) == fs
  {
    if fs == [] {
      SkipsSeparators(between[0], "");
      assert between[0] + "" == between[0];
    } else {
      var rest := Woven(between[1..], fs[1..]);
      WovenFields(between[1..], fs[1..]);
      WovenStarts(between[1..], fs[1..]);
      assert between[0] + fs[0] + rest == between[0] + (fs[0] + rest);
      SkipsSeparators(between[0], fs[0] + rest);
      TakesPart(fs[0], rest);
    }
  }

  lemma WovenStarts(between: seq<string>, fs: seq<string>)
    requires Keeps(between, fs) && (fs != [] ==> between[0] != "")
    ensures Woven(between, fs) != "" ==> Separates(Woven(between, fs)[0])
  {
  }

  lemma FieldsStep(s: string)
    requires s != "" && !Separates(s[0])
    ensures var n := FieldLength(s);
            && 0 < n <= |s| && Fields(s) == [s[..n]] + Fields(s[n..]) && OnePart(s[..n])
            && (n < |s| ==> Separates(s[n]))
  {
  }

  /** The fields of a text, one more part and whatever follows. */
  lemma {:induction false} FieldsJoin(s: string, x: string, rest: string)
    requires OnePart(x) && (rest != "" ==> Separates(rest[0]))
    ensures Fields(s + "." + x + rest) == Fields(s) + [x] + Fields(rest)
    decreases |s|, 1
  {
    hide OnePart, Fields, Separates;
    var end := "." + x + rest;
    assert s + "." + x + rest == s + end;
    if s == "" {
      assert s + end == end && end == "." + (x + rest);
      SkipsDot(x + rest);
      PartThenRest(x, rest);
    } else if Separates(s[0]) {
      FieldsJoin(s[1..], x, rest);
      assert (s + end)[1..] == s[1..] + "." + x + rest;
      SkipsOne(s);
      SkipsOne(s + end);
    } else {
      JoinBehindField(s, x, rest);
    }
  }

  lemma SkipsDot(rest: string)
    ensures Fields("." + rest) == Fields(rest) && Fields("") == []
  {
    SkipsSeparators(".", rest);
  }

  lemma SkipsOne(s: string)
    requires s != "" && Separates(s[0])
    ensures Fields(s) == Fields(s[1..])
  {
  }

  lemma PartThenRest(x: string, rest: string)
    requires OnePart(x) && (rest != "" ==> Separates(rest[0]))
    ensures Fields(x + rest) == [x] + Fields(rest)
  {
    TakesPart(x, rest);
  }

  lemma {:induction false} JoinBehindField(s: string, x: string, rest: string)
    requires s != "" && !Separates(s[0]) && OnePart(x) && (rest != "" ==> Separates(rest[0]))
    ensures Fields(s + "." + x + rest) == Fields(s) + [x] + Fields(rest)
    decreases |s|, 0
  {
    hide OnePart, Separates, Fields;
    var n, end := FieldLength(s), "." + x + rest;
    FieldsStep(s);
    FieldsJoin(s[n..], x, rest);
    assert s[n..] + end == s[n..] + "." + x + rest;
    assert s + "." + x + rest == s[..n] + (s[n..] + end);
    StartsWithSeparator(s[n..], x, rest);
    PartThenRest(s[..n], s[n..] + end);
  }

  lemma StartsWithSeparator(s: string, x: string, rest: string)
    requires s != "" ==> Separates(s[0])
    ensures var t := s + ("." + x + rest); t != "" && Separates(t[0])
  {
  }

  lemma PartsJoin(p: string, x: string, rest: string)
    requires OnePart(x) && (rest != "" ==> Separates(rest[0]))
    ensures Parts(p + "." + x + rest) == Parts(p) + [Part(x, Number(x))] + Parts(rest)
  {
    hide Number, Fields;
    var t := Trimmed(p);
    assert Trimmed(p + "." + x + rest) == t + "." + x + rest;
    FieldsJoin(t, x, rest);
    assert Trimmed(rest) == rest;
  }

  lemma {:induction false} SharedStart(ps: seq<Part>, qs: seq<Part>, rs: seq<Part>)
    ensures PartsLess(ps + qs, ps + rs) <==> PartsLess(qs, rs)
  {
    if ps == [] {
      assert ps + qs == qs && ps + rs == rs;
    } else {
      assert (ps + qs)[1..] == ps[1..] + qs && (ps + rs)[1..] == ps[1..] + rs;
      SharedStart(ps[1..], qs, rs);
    }
  }

  /** The first part that differs decides, whatever follows it: by value between numbers, else by text. */
  lemma FirstDifferenceDecides(p: string, x: string, more: string, y: string, more': string)
    requires OnePart(x) && OnePart(y)
    requires (more != "" ==> Separates(more[0])) && (more' != "" ==> Separates(more'[0]))
    ensures var a, b := p + "." + x + more, p + "." + y + more';
            if AllDigits(x) && AllDigits(y) then
              Decimal(x) < HALF && Decimal(y) < HALF && Decimal(x) != Decimal(y) ==>
                (Older(a, b) <==> Decimal(x) < Decimal(y))
            else x != y ==> (Older(a, b) <==> Less(x, y))
  {
    hide Parts, Less, Separates, Decimal;
    PartsJoin(p, x, more);
    PartsJoin(p, y, more');
    var u, v := [Part(x, Number(x))] + Parts(more), [Part(y, Number(y))] + Parts(more');
    assert Parts(p) + [Part(x, Number(x))] + Parts(more) == Parts(p) + u;
    assert Parts(p) + [Part(y, Number(y))] + Parts(more') == Parts(p) + v;
    SharedStart(Parts(p), u, v);
    assert u[0] == Part(x, Number(x)) && v[0] == Part(y, Number(y));
  }

  /** Versions that differ in their last number only are in the order of those numbers. */
  lemma NumberedVersions(p: string, x: string, y: string)
    requires x != "" && y != "" && AllDigits(x) && AllDigits(y) && Decimal(x) < HALF && Decimal(y) < HALF
    ensures Older(p + "." + x, p + "." + y) <==> Decimal(x) < Decimal(y)
  {
    hide Parts, Less, Decimal;
    PartsJoin(p, x, "");
    PartsJoin(p, y, "");
    NoParts();
    assert p + "." + x + "" == p + "." + x && p + "." + y + "" == p + "." + y;
    var u, v := [Part(x, Number(x))], [Part(y, Number(y))];
    assert Parts(p) + u + [] == Parts(p) + u && Parts(p) + v + [] == Parts(p) + v;
    SharedStart(Parts(p), u, v);
  }

  lemma NoParts()
    ensures Parts("") == []
  {
  }

  /** A version is older than the same with more to it. */
  lemma MoreIsNewer(p: string, x: string)
    requires OnePart(x)
    ensures Older(p, p + "." + x) && !Older(p + "." + x, p)
  {
    hide Parts, Number;
    PartsJoin(p, x, "");
    NoParts();
    assert p + "." + x + "" == p + "." + x && Parts(p) + [Part(x, Number(x))] + [] == Parts(p) + [Part(x, Number(x))];
    SharedStart(Parts(p), [], [Part(x, Number(x))]);
    SharedStart(Parts(p), [Part(x, Number(x))], []);
    assert Parts(p) + [] == Parts(p);
  }

  /** A leading v makes no difference, but only one. */
  lemma LeadingV(v: string, w: string)
    requires v == "" || v[0] != 'v'
    ensures Parts("v" + v) == Parts(v)
    ensures Older("v" + v, w) <==> Older(v, w)
    ensures Older(w, "v" + v) <==> Older(w, v)
  {
    hide Fields, Number;
    assert ("v" + v)[1..] == v;
  }

  lemma {:induction false} MinorOrder()
    ensures Older("1.2", "1.3") && !Older("1.3", "1.2") && Older("1.9", "1.10") && Older("v1.2", "1.2.1")
  {
    hide Parts;
    assert "9"[..0] == "" && "10"[..1] == "1" && "1"[..0] == "" && "2"[..0] == "" && "3"[..0] == "";
    assert Decimal("2") == 2 && Decimal("3") == 3 && Decimal("9") == 9 && Decimal("1") == 1 && Decimal("10") == 10;
    assert "1" + "." + "2" == "1.2" && "1" + "." + "3" == "1.3" && "1" + "." + "9" == "1.9";
    assert "1" + "." + "10" == "1.10" && "1.2" + "." + "1" == "1.2.1" && "v" + "1.2" == "v1.2";
    NumberedVersions("1", "2", "3");
    NumberedVersions("1", "3", "2");
    NumberedVersions("1", "9", "10");
    LeadingV("1.2", "1.2.1");
    MoreIsNewer("1.2", "1");
  }

  // ------------------------------------------------------- the target

  /** A successful deployment of the same target with a smaller id. */
  predicate Candidate(d: Deployment, app: string, env: string, before: string) {
    Less(d.id, before) && d.app == app && d.environment == env && d.state == Succeeded
  }

  /** The last candidate of an insertion order. */
  function LastBefore(rows: map<string, Deployment>, order: seq<string>, app: string, env: string, before: string)
    : (r: Option<Deployment>)
    ensures r.Some? ==> r.value in rows.Values
  {
    if order == [] then None
    else
      var id := order[|order| - 1];
      if id in rows && Less(id, before) && rows[id].app == app && rows[id].environment == env
        && rows[id].state == Succeeded
      then Some(rows[id])
      else LastBefore(rows, order[..|order| - 1], app, env, before)
  }

  method LastSuccessfulBefore(rows: map<string, Deployment>, order: seq<string>, app: string, env: string,
                              before: string)
    returns (r: Option<Deployment>)
    requires forall i :: 0 <= i < |order| ==> order[i] in rows
    ensures r == LastBefore(rows, order, app, env, before)
  {
    var i := |order|;
    assert order[..|order|] == order;
    while i > 0
      invariant 0 <= i <= |order|
      invariant LastBefore(rows, order, app, env, before) == LastBefore(rows, order[..i], app, env, before)
    {
      i := i - 1;
      assert order[..i + 1][..i] == order[..i];
      var id := order[i];
      if Less(id, before) {
        var d := rows[id];
        if d.app == app && d.environment == env && d.state == Succeeded {
          return Some(d);
        }
      }
    }
    return None;
  }

  /** Rows are under their own ids, which ascend in insertion order. */
  ghost predicate Ascending(rows: map<string, Deployment>, order: seq<string>) {
    && (forall i :: 0 <= i < |order| ==> order[i] in rows && rows[order[i]].id == order[i])
    && (forall i, j :: 0 <= i < j < |order| ==> Less(order[i], order[j]))
  }

  /**
    * With ids that ascend as deployments are created, the target is the greatest earlier success;
    * there is none exactly when there is no earlier success.
    */
  lemma {:induction false} GreatestBefore(rows: map<string, Deployment>, order: seq<string>,
                                          app: string, env: string, before: string)
    requires Ascending(rows, order)
    ensures var r := LastBefore(rows, order, app, env, before);
            && (r.Some? ==>
                  && r.value.id in order && rows[r.value.id] == r.value && Less(r.value.id, before)
                  && r.value.app == app && r.value.environment == env && r.value.state == Succeeded)
            && (forall i :: 0 <= i < |order| && Candidate(rows[order[i]], app, env, before) ==>
                  r.Some? && (order[i] == r.value.id || Less(order[i], r.value.id)))
  {
    if order != [] {
      var init, id := order[..|order| - 1], order[|order| - 1];
      GreatestBefore(rows, init, app, env, before);
      assert id == rows[id].id;
      forall i | 0 <= i < |order| && Candidate(rows[order[i]], app, env, before)
        ensures var r := LastBefore(rows, order, app, env, before);
                r.Some? && (order[i] == r.value.id || Less(order[i], r.value.id))
      {
        if i < |init| {
          assert init[i] == order[i] && Candidate(rows[init[i]], app, env, before);
        }
      }
    }
  }

  // ------------------------------------------------------- the plan

  datatype Migration = Migration(id: string, reversible: bool)

  datatype Manifest = Manifest(schema: int, floor: string, migrations: seq<Migration>)

  /** Where manifests come from, by application and version; none if not configured. */
  type Source = Option<(string, string) -> Option<Manifest>>

  datatype Unsafe = NoTarget | ManifestUnreadable | BelowFloor(floor: string) | Irreversible(ids: seq<string>)

  function Unreversed(ms: seq<Migration>): (ids: seq<string>)
    ensures ids == [] <==> forall i :: 0 <= i < |ms| ==> ms[i].reversible
    ensures forall x :: x in ids <==> exists i :: 0 <= i < |ms| && !ms[i].reversible && ms[i].id == x
  {
    if ms == [] then []
    else if ms[0].reversible then Unreversed(ms[1..])
    else [ms[0].id] + Unreversed(ms[1..])
  }

  /** The refusals of the floor check, in order. */
  function FloorRefusal(dep: Deployment, target: Deployment, source: Source): Option<Unsafe> {
    if source.None? then None
    else
      var cur := source.value(dep.app, dep.version);
      if cur.None? then Some(ManifestUnreadable)
      else if cur.value.floor != "" && Older(target.version, cur.value.floor) then Some(BelowFloor(cur.value.floor))
      else
        var prior := source.value(target.app, target.version);
        if prior.Some? && prior.value.schema != cur.value.schema && Unreversed(cur.value.migrations) != []
        then Some(Irreversible(Unreversed(cur.value.migrations)))
        else None
  }

  function PlanRollback(ix: Index, dep: Deployment, checkFloor: bool, source: Source): Result<Deployment, Unsafe> {
    match LastBefore(ix.deployments, ix.order, dep.app, dep.environment, dep.id)
    case None => Err(NoTarget)
    case Some(target) =>
      var refusal := if checkFloor then FloorRefusal(dep, target, source) else None;
      if refusal.Some? then Err(refusal.value) else Ok(target)
  }

  /** Nothing known speaks against going back: the floor holds and no one-way migration lies between. */
  predicate Safe(dep: Deployment, target: Deployment, manifests: (string, string) -> Option<Manifest>) {
    var cur, prior := manifests(dep.app, dep.version), manifests(target.app, target.version);
    && cur.Some?
    && (cur.value.floor != "" ==> !Older(target.version, cur.value.floor))
    && (prior.Some? && prior.value.schema != cur.value.schema ==>
          forall i :: 0 <= i < |cur.value.migrations| ==> cur.value.migrations[i].reversible)
  }

  /** The greatest earlier success of a deployment's target. */
  ghost predicate Target(ix: Index, dep: Deployment, target: Deployment) {
    && target.id in ix.order && target.id in ix.deployments && ix.deployments[target.id] == target
    && Less(target.id, dep.id) && target.app == dep.app && target.environment == dep.environment
    && target.state == Succeeded
    && forall i :: 0 <= i < |ix.order| && ix.order[i] in ix.deployments
                   && Candidate(ix.deployments[ix.order[i]], dep.app, dep.environment, dep.id) ==>
         ix.order[i] == target.id || Less(ix.order[i], target.id)
  }

  /**
    * What a plan rests on: it is refused for want of a target exactly when there is no earlier
    * success; otherwise its target is the greatest one, and it is made exactly when going back to
    * that one is safe or the floor is not checked.
    */
  lemma PlansAreSafe(ix: Index, dep: Deployment, checkFloor: bool, source: Source)
    requires Ascending(ix.deployments, ix.order)
    ensures var plan := PlanRollback(ix, dep, checkFloor, source);
            if plan == Err(NoTarget) then
              forall i :: 0 <= i < |ix.order| ==>
                !Candidate(ix.deployments[ix.order[i]], dep.app, dep.environment, dep.id)
            else
              exists target :: Target(ix, dep, target)
                               && (plan == Ok(target) <==>
                                     (checkFloor && source.Some? ==> Safe(dep, target, source.value)))
                               && (plan.Ok? ==> plan.value == target)
  {
    hide Older, Candidate, Target;
    GreatestBefore(ix.deployments, ix.order, dep.app, dep.environment, dep.id);
    var r := LastBefore(ix.deployments, ix.order, dep.app, dep.environment, dep.id);
    if r.Some? {
      TheTarget(ix, dep, r.value);
      assert Target(ix, dep, r.value);
    }
  }

  /** Why a plan is refused, when there is a target: what is read off the manifests, in order. */
  lemma RefusalReasons(ix: Index, dep: Deployment, source: Source)
    requires Ascending(ix.deployments, ix.order) && source.Some?
    ensures var plan, cur := PlanRollback(ix, dep, true, source), source.value(dep.app, dep.version);
            match plan
            case Err(ManifestUnreadable) => cur.None?
            case Err(BelowFloor(floor)) =>
              && cur.Some? && floor == cur.value.floor != ""
              && exists target :: Target(ix, dep, target) && Older(target.version, floor)
            case Err(Irreversible(ids)) =>
              && cur.Some? && ids != []
              && forall x :: x in ids <==> exists m :: m in cur.value.migrations && !m.reversible && m.id == x
            case _ => true
  {
    hide Older, Target;
    var r := LastBefore(ix.deployments, ix.order, dep.app, dep.environment, dep.id);
    if r.Some? {
      TheTarget(ix, dep, r.value);
    }
  }

  lemma TheTarget(ix: Index, dep: Deployment, target: Deployment)
    requires Ascending(ix.deployments, ix.order)
    requires LastBefore(ix.deployments, ix.order, dep.app, dep.environment, dep.id) == Some(target)
    ensures Target(ix, dep, target)
  {
    hide Candidate;
    GreatestBefore(ix.deployments, ix.order, dep.app, dep.environment, dep.id);
  }
}
