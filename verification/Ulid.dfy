/** Identifiers that sort by creation time: ulid/ulid.go. */
module Ulids {
  import opened Prelude
  import opened Strings
  import opened Numerals

  const ENCODING := "0123456789ABCDEFGHJKMNPQRSTVWXYZ"

  const LENGTH := 26

  /** Sixteen bytes, most significant first. */
  type Id = id: seq<nat> | |id| == 16 && Digits(id, 256) witness Numeral(0, 256, 16)

  function Number(id: Id): nat {
    Value(id, 256)
  }

  lemma EncodingAscends()
    ensures |ENCODING| == 32 && forall i, j :: 0 <= i < j < 32 ==> ENCODING[i] < ENCODING[j]
  {
  }

  // ------------------------------------------------------- text

  /** The text of an id: four times its number, in 26 digits to the base of 32. */
  function Text(id: Id): (s: string)
    ensures |s| == LENGTH
  {
    Spelled(Numeral(4 * Number(id), 32, LENGTH), ENCODING)
  }

  /** The value of one character as typed: either case, and the look-alikes of one and zero. */
  function DigitOf(c: char): (d: Option<nat>)
    ensures d.Some? ==> d.value < 32
  {
    if c in {'i', 'I', 'l', 'L'} then Some(1)
    else if c in {'o', 'O'} then Some(0)
    else
      var u := if 'a' <= c <= 'z' then (c as int - 32) as char else c;
      var k := Position(u, 0);
      if k < 32 then Some(k) else None
  }

  function Position(c: char, from: nat): (k: nat)
    requires from <= 32
    ensures from <= k <= 32 && (k < 32 ==> ENCODING[k] == c)
    ensures forall j :: from <= j < k ==> ENCODING[j] != c
    decreases 32 - from
  {
    if from == 32 || ENCODING[from] == c then from else Position(c, from + 1)
  }

  /** The digits of a text, if every character is one. */
  function DigitsOf(s: string): (ds: Option<seq<nat>>)
    ensures ds.Some? ==> |ds.value| == |s| && Digits(ds.value, 32)
  {
    if s == "" then Some([])
    else
      var init, d := DigitsOf(s[..|s| - 1]), DigitOf(s[|s| - 1]);
      if init.None? || d.None? then None else Some(init.value + [d.value])
  }

  /** What parsing answers: 26 digits, the last two bits dropped. */
  function Parsed(s: string): Option<Id> {
    var ds := DigitsOf(s);
    if |s| != LENGTH || ds.None? then None
    else Some(Numeral(Value(ds.value, 32) / 4, 256, 16))
  }

  // ------------------------------------------------------- rendering

  /** The byte after the last is read as zero. */
  function ByteAt(id: Id, i: nat): nat
    requires i <= 16
  {
    if i < 16 then id[i] else 0
  }

  const POWERS: seq<nat> := [1, 2, 4, 8, 16, 32, 64, 128, 256, 512, 1024, 2048]

  /** Five bits out of two bytes, after the first s of them. */
  lemma FiveBits(x: nat, y: nat, s: nat)
    requires x < 256 && y < 256 && s < 8
    ensures var d := (x * 256 + y) / POWERS[11 - s] % 32;
            if s < 3 then 32 * (x / POWERS[8 - s]) + d == x / POWERS[3 - s]
            else 32 * (x / POWERS[8 - s]) + d == x * POWERS[s - 3] + y / POWERS[11 - s]
  {
    if s < 3 {
      FiveBitsEarly(x, y, s);
    } else {
      FiveBitsLate(x, y, s);
    }
  }

  lemma FiveBitsEarly(x: nat, y: nat, s: nat)
    requires x < 256 && y < 256 && s < 3
    ensures 32 * (x / POWERS[8 - s]) + (x * 256 + y) / POWERS[11 - s] % 32 == x / POWERS[3 - s]
  {
    if s == 0 {
      FiveBitsAfter0(x, y);
    } else if s == 1 {
      FiveBitsAfter1(x, y);
    } else {
      FiveBitsAfter2(x, y);
    }
  }

  lemma FiveBitsAfter0(x: nat, y: nat)
    requires x < 256 && y < 256
    ensures 32 * (x / 256) + (x * 256 + y) / 2048 % 32 == x / 8
  {
    assert (x * 256 + y) / 2048 == x / 8;
  }

  lemma FiveBitsAfter1(x: nat, y: nat)
    requires x < 256 && y < 256
    ensures 32 * (x / 128) + (x * 256 + y) / 1024 % 32 == x / 4
  {
    assert (x * 256 + y) / 1024 == x / 4;
  }

  lemma FiveBitsAfter2(x: nat, y: nat)
    requires x < 256 && y < 256
    ensures 32 * (x / 64) + (x * 256 + y) / 512 % 32 == x / 2
  {
    assert (x * 256 + y) / 512 == x / 2;
  }

  lemma FiveBitsLate(x: nat, y: nat, s: nat)
    requires x < 256 && y < 256 && 3 <= s < 8
    ensures 32 * (x / POWERS[8 - s]) + (x * 256 + y) / POWERS[11 - s] % 32 == x * POWERS[s - 3] + y / POWERS[11 - s]
  {
    if s == 3 {
      FiveBitsAfter3(x, y);
    } else if s == 4 {
      FiveBitsAfter4(x, y);
    } else if s == 5 {
      FiveBitsAfter5(x, y);
    } else if s == 6 {
      FiveBitsAfter6(x, y);
    } else {
      FiveBitsAfter7(x, y);
    }
  }

  lemma LowDigit(a: nat, b: nat)
    requires b < 32
    ensures (32 * a + b) % 32 == b
  {
  }

  lemma FiveBitsAfter3(x: nat, y: nat)
    requires x < 256 && y < 256
    ensures 32 * (x / 32) + (x * 256 + y) / 256 % 32 == x + y / 256
  {
  }

  lemma FiveBitsAfter4(x: nat, y: nat)
    requires x < 256 && y < 256
    ensures 32 * (x / 16) + (x * 256 + y) / 128 % 32 == x * 2 + y / 128
  {
    assert (x * 256 + y) / 128 == x * 2 + y / 128;
    LowDigit(x / 16, x % 16 * 2 + y / 128);
  }

  lemma FiveBitsAfter5(x: nat, y: nat)
    requires x < 256 && y < 256
    ensures 32 * (x / 8) + (x * 256 + y) / 64 % 32 == x * 4 + y / 64
  {
    assert (x * 256 + y) / 64 == x * 4 + y / 64;
    LowDigit(x / 8, x % 8 * 4 + y / 64);
  }

  lemma FiveBitsAfter6(x: nat, y: nat)
    requires x < 256 && y < 256
    ensures 32 * (x / 4) + (x * 256 + y) / 32 % 32 == x * 8 + y / 32
  {
    assert (x * 256 + y) / 32 == x * 8 + y / 32;
    LowDigit(x / 4, x % 4 * 8 + y / 32);
  }

  lemma FiveBitsAfter7(x: nat, y: nat)
    requires x < 256 && y < 256
    ensures 32 * (x / 2) + (x * 256 + y) / 16 % 32 == x * 16 + y / 16
  {
    assert (x * 256 + y) / 16 == x * 16 + y / 16;
    LowDigit(x / 2, x % 2 * 16 + y / 16);
  }

  /** The number spelled by the first i digits: all whole bytes before bit 5i, and the bits of the next before it. */
  ghost predicate Spelt(id: Id, i: nat, w: nat)
    requires i <= 26
  {
    var b, s := 5 * i / 8, 5 * i % 8;
    w == Value(id[..b], 256) * POWERS[s] + ByteAt(id, b) / POWERS[8 - s]
  }

  lemma NextDigit(t: nat, x: nat, y: nat, s: nat)
    requires x < 256 && y < 256 && s < 8
    ensures var d := (x * 256 + y) / POWERS[11 - s] % 32;
            var w := t * POWERS[s] + x / POWERS[8 - s];
            if s < 3 then w * 32 + d == t * POWERS[s + 5] + x / POWERS[3 - s]
            else w * 32 + d == (t * 256 + x) * POWERS[s - 3] + y / POWERS[11 - s]
  {
    FiveBits(x, y, s);
    assert t * POWERS[s] * 32 == if s < 3 then t * POWERS[s + 5] else t * 256 * POWERS[s - 3] by {
      Shifts(t, s);
    }
    if s >= 3 {
      assert (t * 256 + x) * POWERS[s - 3] == t * 256 * POWERS[s - 3] + x * POWERS[s - 3];
    }
  }

  lemma Shifts(t: nat, s: nat)
    requires s < 8
    ensures t * POWERS[s] * 32 == if s < 3 then t * POWERS[s + 5] else t * 256 * POWERS[s - 3]
  {
  }

  lemma NextPlace(i: nat)
    requires i < 26
    ensures var b, s := 5 * i / 8, 5 * i % 8;
            && b < 16 && s < 8
            && 5 * (i + 1) / 8 == (if s < 3 then b else b + 1)
            && 5 * (i + 1) % 8 == (if s < 3 then s + 5 else s - 3)
  {
  }

  lemma SpeltMore(id: Id, i: nat, w: nat)
    requires i < 26 && Spelt(id, i, w)
    ensures var b, s := 5 * i / 8, 5 * i % 8;
            && b < 16 && s < 8
            && Spelt(id, i + 1, w * 32 + (ByteAt(id, b) * 256 + ByteAt(id, b + 1)) / POWERS[11 - s] % 32)
  {
    NextPlace(i);
    var b, s := 5 * i / 8, 5 * i % 8;
    ByteBound(id, b);
    ByteBound(id, b + 1);
    NextDigit(Value(id[..b], 256), ByteAt(id, b), ByteAt(id, b + 1), s);
    if s >= 3 {
      assert id[..b + 1] == id[..b] + [id[b]];
      ValueAppend(id[..b], id[b], 256);
    }
  }

  lemma ByteBound(id: Id, i: nat)
    requires i <= 16
    ensures ByteAt(id, i) < 256
  {
  }

  /** Renders 128 bits as 26 digits of five bits, most significant first. */
  method Render(id: Id) returns (text: string)
    ensures text == Text(id)
  {
    hide Spelt;
    ghost var ds: seq<nat> := [];
    text := "";
    assert Spelt(id, 0, 0) by { SpeltNothing(id); }
    for i := 0 to LENGTH
      invariant |ds| == i && Digits(ds, 32) && text == Spelled(ds, ENCODING)
      invariant Spelt(id, i, Value(ds, 32))
    {
      SpeltMore(id, i, Value(ds, 32));
      var byteIdx, shift := 5 * i / 8, 5 * i % 8;
      var v := id[byteIdx] * 256 + if byteIdx + 1 < 16 then id[byteIdx + 1] else 0;
      var digit := v / POWERS[11 - shift] % 32;
      ValueAppend(ds, digit, 32);
      ds := ds + [digit];
      text := text + [ENCODING[digit]];
    }
    SpeltAll(id, ds);
  }

  lemma SpeltNothing(id: Id)
    ensures Spelt(id, 0, 0)
  {
    assert id[..0] == [];
  }

  lemma SpeltEnd(id: Id, w: nat)
    requires Spelt(id, 26, w)
    ensures w == 4 * Number(id)
  {
    assert id[..16] == id;
  }

  lemma SpeltAll(id: Id, ds: seq<nat>)
    requires |ds| == 26 && Digits(ds, 32) && Spelt(id, 26, Value(ds, 32))
    ensures ds == Numeral(4 * Number(id), 32, LENGTH)
  {
    hide Value, Power, Spelt, Number;
    SpeltEnd(id, Value(ds, 32));
    FitsText(id);
    NumeralValue(4 * Number(id), 32, LENGTH);
    SameDigits(ds, Numeral(4 * Number(id), 32, LENGTH), 32);
  }

  // ------------------------------------------------------- sizes

  lemma Eight(k: nat)
    ensures Power(32, k + 8) == 1099511627776 * Power(32, k)
  {
    assert Power(32, k + 2) == 1024 * Power(32, k) by { assert Power(32, k + 1) == 32 * Power(32, k); }
    assert Power(32, k + 4) == 1048576 * Power(32, k) by { assert Power(32, k + 3) == 32768 * Power(32, k); }
    assert Power(32, k + 6) == 1073741824 * Power(32, k) by { assert Power(32, k + 5) == 33554432 * Power(32, k); }
    assert Power(32, k + 7) == 34359738368 * Power(32, k);
  }

  lemma Five(k: nat)
    ensures Power(256, k + 5) == 1099511627776 * Power(256, k)
  {
    assert Power(256, k + 1) == 256 * Power(256, k);
    assert Power(256, k + 2) == 65536 * Power(256, k);
    assert Power(256, k + 3) == 16777216 * Power(256, k);
    assert Power(256, k + 4) == 4294967296 * Power(256, k);
  }

  /** Twenty-six digits hold the sixteen bytes and two bits more. */
  lemma Sizes()
    ensures Power(32, LENGTH) == 4 * Power(256, 16)
  {
    Eight(16);
    Eight(8);
    Eight(0);
    Five(10);
    Five(5);
    Five(0);
    assert Power(32, 24) == Power(256, 15);
    assert Power(32, 25) == 32 * Power(32, 24);
  }

  lemma FitsText(id: Id)
    ensures 4 * Number(id) < Power(32, LENGTH)
  {
    hide Power;
    ValueBound(id, 256);
    Sizes();
  }

  // ------------------------------------------------------- parsing

  lemma {:induction false} BadPrefix(s: string, n: nat)
    requires n <= |s| && DigitsOf(s[..n]).None?
    ensures DigitsOf(s).None?
  {
    if n < |s| {
      assert s[..|s| - 1][..n] == s[..n];
      BadPrefix(s[..|s| - 1], n);
    } else {
      assert s[..n] == s;
    }
  }

  const WORD := 0x1_0000_0000

  /** Shifting in five bits, and letting out a byte when eight are there. */
  lemma ShiftIn(v: nat, d: nat, n: nat, bits: nat)
    requires d < 32 && n < 8 && bits == v % WORD
    ensures var v' := v * 32 + d;
            && (bits * 32 + d) % WORD == v' % WORD
            && (n < 3 ==> v' / POWERS[n + 5] == v / POWERS[n])
            && (n >= 3 ==> v' / POWERS[n - 3] == v / POWERS[n] * 256 + (bits * 32 + d) % WORD / POWERS[n - 3] % 256)
  {
    ShiftWord(v, d, bits);
    if n < 3 {
      ShiftKeeps(v, d, n);
    } else {
      ShiftOut(v * 32 + d, n - 3);
      ShiftKeeps(v, d, n);
    }
  }

  lemma ShiftWord(v: nat, d: nat, bits: nat)
    requires bits == v % WORD
    ensures (bits * 32 + d) % WORD == (v * 32 + d) % WORD
  {
  }

  lemma ShiftKeeps(v: nat, d: nat, n: nat)
    requires d < 32 && n < 8
    ensures (v * 32 + d) / (POWERS[n] * 32) == v / POWERS[n]
  {
  }

  lemma ShiftOut(v: nat, n: nat)
    requires n < 5
    ensures v / POWERS[n] == v / (POWERS[n] * 256) * 256 + v % WORD / POWERS[n] % 256
  {
    if n == 0 {
      ShiftOut0(v);
    } else if n == 1 {
      ShiftOut1(v);
    } else if n == 2 {
      ShiftOut2(v);
    } else if n == 3 {
      ShiftOut3(v);
    } else {
      ShiftOut4(v);
    }
  }

  lemma ShiftOut0(v: nat)
    ensures v / 1 == v / 256 * 256 + v % WORD / 1 % 256
  {
    assert v % WORD / 1 == v / 1 - v / WORD * 4294967296;
  }

  lemma ShiftOut1(v: nat)
    ensures v / 2 == v / 512 * 256 + v % WORD / 2 % 256
  {
    assert v % WORD / 2 == v / 2 - v / WORD * 2147483648;
  }

  lemma ShiftOut2(v: nat)
    ensures v / 4 == v / 1024 * 256 + v % WORD / 4 % 256
  {
    assert v % WORD / 4 == v / 4 - v / WORD * 1073741824;
  }

  lemma ShiftOut3(v: nat)
    ensures v / 8 == v / 2048 * 256 + v % WORD / 8 % 256
  {
    assert v % WORD / 8 == v / 8 - v / WORD * 536870912;
  }

  lemma ShiftOut4(v: nat)
    ensures v / 16 == v / 4096 * 256 + v % WORD / 16 % 256
  {
    assert v % WORD / 16 == v / 16 - v / WORD * 268435456;
  }

  /** Decodes 26 characters into sixteen bytes, through a window of 32 bits. */
  method Parse(s: string) returns (r: Option<Id>)
    ensures r == Parsed(s)
  {
    hide DigitsOf, DigitOf, Value, Power;
    if |s| != LENGTH {
      return None;
    }
    var bits, nbits := 0, 0;
    var out: seq<nat> := [];
    ghost var ds: seq<nat> := [];
    ParseStarts(s);
    for i := 0 to LENGTH
      invariant DigitsOf(s[..i]) == Some(ds) && |ds| == i && Digits(ds, 32)
      invariant bits == Value(ds, 32) % WORD && 0 <= nbits < 8 && 5 * i == 8 * |out| + nbits
      invariant Digits(out, 256) && Value(out, 256) == Value(ds, 32) / POWERS[nbits]
    {
      var d := DigitOf(s[i]);
      OneDigit(s, i, ds);
      if d.None? {
        return None;
      }
      ShiftIn(Value(ds, 32), d.value, nbits, bits);
      ValueAppend(ds, d.value, 32);
      ds := ds + [d.value];
      bits := (bits * 32 + d.value) % WORD;
      nbits := nbits + 5;
      if nbits >= 8 {
        nbits := nbits - 8;
        ValueAppend(out, bits / POWERS[nbits] % 256, 256);
        out := out + [bits / POWERS[nbits] % 256];
      }
    }
    assert s[..LENGTH] == s;
    ParseEnds(ds, out);
    return Some(out);
  }

  lemma ParseStarts(s: string)
    ensures DigitsOf(s[..0]) == Some([]) && Value([], 32) == 0 && Value([], 256) == 0
  {
  }

  lemma OneDigit(s: string, i: nat, ds: seq<nat>)
    requires i < |s| && DigitsOf(s[..i]) == Some(ds)
    ensures DigitOf(s[i]).None? ==> DigitsOf(s).None?
    ensures DigitOf(s[i]).Some? ==> DigitsOf(s[..i + 1]) == Some(ds + [DigitOf(s[i]).value]) && DigitOf(s[i]).value < 32
  {
    hide DigitOf;
    assert s[..i + 1][..i] == s[..i];
    if DigitOf(s[i]).None? {
      BadPrefix(s, i + 1);
    }
  }

  lemma ParseEnds(ds: seq<nat>, out: seq<nat>)
    requires |out| == 16 && Digits(out, 256) && Value(out, 256) == Value(ds, 32) / 4
    ensures out == Numeral(Value(ds, 32) / 4, 256, 16)
  {
    hide Value, Power;
    ValueBound(out, 256);
    NumeralValue(Value(ds, 32) / 4, 256, 16);
    SameDigits(out, Numeral(Value(ds, 32) / 4, 256, 16), 256);
  }

  // ------------------------------------------------------- text as typed

  function Upper(c: char): char {
    if 'a' <= c <= 'z' then (c as int - 32) as char else c
  }

  /** Two characters that stand for one digit: the same letter in either case, or taken for one or for zero. */
  predicate Alike(c: char, d: char) {
    || Upper(c) == Upper(d)
    || (c in {'1', 'i', 'I', 'l', 'L'} && d in {'1', 'i', 'I', 'l', 'L'})
    || (c in {'0', 'o', 'O'} && d in {'0', 'o', 'O'})
  }

  lemma AlikeDigits(c: char, d: char)
    requires Alike(c, d)
    ensures DigitOf(c) == DigitOf(d)
  {
    OneAndZero();
  }

  lemma OneAndZero()
    ensures DigitOf('1') == Some(1) && DigitOf('0') == Some(0)
  {
    assert ENCODING[0] == '0' && ENCODING[1] == '1';
    assert Position('1', 0) == Position('1', 1) == 1 && Position('0', 0) == 0;
  }

  /** However it is typed, in whichever case and with look-alikes for one and zero, a text is read as the same id. */
  lemma {:induction false} TypedAlike(s: string, t: string)
    requires |s| == |t| && forall i :: 0 <= i < |s| ==> Alike(s[i], t[i])
    ensures DigitsOf(s) == DigitsOf(t) && Parsed(s) == Parsed(t)
  {
    hide DigitOf, Alike, Numeral, Value;
    if s != "" {
      TypedAlike(s[..|s| - 1], t[..|t| - 1]);
      AlikeDigits(s[|s| - 1], t[|t| - 1]);
    }
  }

  /** Where a digit's character stands: figures, then letters, without I, L, O and U. */
  function Place(u: char): (k: nat)
    requires '0' <= u <= '9' || ('A' <= u <= 'Z' && u !in {'I', 'L', 'O', 'U'})
    ensures k < 32
  {
    var n := u as int;
    if n <= 57 then n - 48
    else if n < 73 then n - 55
    else if n < 76 then n - 56
    else if n < 79 then n - 57
    else if n < 85 then n - 58
    else n - 59
  }

  lemma Figures(k: nat)
    requires k < 16
    ensures var u := ENCODING[k]; '0' <= u <= '9' || 'A' <= u <= 'F'
    ensures Place(ENCODING[k]) == k
  {
  }

  lemma Letters(k: nat)
    requires 16 <= k < 32
    ensures var u := ENCODING[k]; 'G' <= u <= 'Z' && u !in {'I', 'L', 'O', 'U'}
    ensures Place(ENCODING[k]) == k
  {
  }

  lemma InPlace(u: char)
    requires '0' <= u <= '9' || ('A' <= u <= 'Z' && u !in {'I', 'L', 'O', 'U'})
    ensures ENCODING[Place(u)] == u
  {
    var k := Place(u);
    if k < 16 {
      Figures(k);
    } else {
      Letters(k);
    }
  }

  /** What is not a digit: anything but letters and figures, and the letter U. */
  lemma NoDigit(c: char)
    ensures DigitOf(c).None? <==> !('0' <= c <= '9' || 'A' <= Upper(c) <= 'Z') || Upper(c) == 'U'
  {
    hide Place;
    var u := Upper(c);
    var k := Position(u, 0);
    if k < 32 {
      Figures(if k < 16 then k else 0);
      Letters(if k < 16 then 16 else k);
    }
    if '0' <= u <= '9' || ('A' <= u <= 'Z' && u !in {'I', 'L', 'O', 'U'}) {
      InPlace(u);
    }
  }

  // ------------------------------------------------------- round trip and order

  lemma SymbolDigit(d: nat)
    requires d < 32
    ensures DigitOf(ENCODING[d]) == Some(d)
  {
    EncodingAscends();
    NoLookAlikes(d);
    var k := Position(ENCODING[d], 0);
  }

  lemma NoLookAlikes(d: nat)
    requires d < |ENCODING|
    ensures var c := ENCODING[d];
            c != 'i' && c != 'I' && c != 'l' && c != 'L' && c != 'o' && c != 'O' && c < 'a'
  {
  }

  lemma {:induction false} SpelledDigits(ds: seq<nat>)
    requires Digits(ds, 32)
    ensures DigitsOf(Spelled(ds, ENCODING)) == Some(ds)
  {
    hide DigitOf;
    if ds != [] {
      var init, s := ds[..|ds| - 1], Spelled(ds, ENCODING);
      assert s[..|s| - 1] == Spelled(init, ENCODING);
      SpelledDigits(init);
      SymbolDigit(ds[|ds| - 1]);
      assert ds == init + [ds[|ds| - 1]];
    }
  }

  /** Parsing undoes rendering. */
  lemma {:induction false} RoundTrip(id: Id)
    ensures Parsed(Text(id)) == Some(id)
  {
    hide Value, Power, DigitsOf, Numeral;
    var n := Number(id);
    SpelledDigits(Numeral(4 * n, 32, LENGTH));
    FitsText(id);
    NumeralValue(4 * n, 32, LENGTH);
    ValueBound(id, 256);
    NumeralValue(n, 256, 16);
    SameDigits(id, Numeral(n, 256, 16), 256);
  }

  /** Text order is number order. */
  lemma TextAscends(a: Id, b: Id)
    ensures Number(a) < Number(b) <==> Less(Text(a), Text(b))
  {
    hide Value, Power, Numeral;
    EncodingAscends();
    FitsText(a);
    FitsText(b);
    NumeralValue(4 * Number(a), 32, LENGTH);
    NumeralValue(4 * Number(b), 32, LENGTH);
    OrderedAsSpelled(Numeral(4 * Number(a), 32, LENGTH), Numeral(4 * Number(b), 32, LENGTH), 32, ENCODING);
  }

  // ------------------------------------------------------- new ids

  /** Ten bytes of entropy, and the millisecond they were last used in. */
  datatype Clock = Clock(ms: nat, rand: seq<nat>) {
    predicate Valid() {
      |rand| == 10 && Digits(rand, 256)
    }
  }

  /** Counting up by one, the carry running from the last byte to the first. */
  function Successor(ds: seq<nat>): (r: seq<nat>)
    requires Digits(ds, 256)
    ensures |r| == |ds| && Digits(r, 256)
  {
    if ds == [] then []
    else if ds[|ds| - 1] < 255 then ds[..|ds| - 1] + [ds[|ds| - 1] + 1]
    else Successor(ds[..|ds| - 1]) + [0]
  }

  predicate Exhausted(ds: seq<nat>) {
    forall i :: 0 <= i < |ds| ==> ds[i] == 255
  }

  lemma {:induction false} SuccessorValue(ds: seq<nat>)
    requires Digits(ds, 256)
    ensures !Exhausted(ds) ==> Value(Successor(ds), 256) == Value(ds, 256) + 1
    ensures Exhausted(ds) ==> Value(ds, 256) + 1 == Power(256, |ds|)
  {
    if ds != [] {
      var init, last := ds[..|ds| - 1], ds[|ds| - 1];
      SuccessorValue(init);
      assert ds == init + [last];
      if last < 255 {
        ValueAppend(init, last + 1, 256);
      } else {
        ValueAppend(Successor(init), 0, 256);
      }
    }
  }

  /** What counting up does, byte by byte: one more at position k, zeros after it where there were 255s. */
  lemma {:induction false} SuccessorIs(ds: seq<nat>, r: seq<nat>, k: int)
    requires Digits(ds, 256) && |r| == |ds| && -1 <= k < |ds|
    requires forall j :: 0 <= j < k ==> r[j] == ds[j]
    requires k >= 0 ==> ds[k] < 255 && r[k] == ds[k] + 1
    requires forall j :: k < j < |ds| ==> ds[j] == 255 && r[j] == 0
    ensures r == Successor(ds) && (Exhausted(ds) <==> k < 0)
  {
    if ds != [] {
      var init := ds[..|ds| - 1];
      if k < |ds| - 1 {
        SuccessorIs(init, r[..|r| - 1], k);
      }
      assert r == r[..|r| - 1] + [r[|r| - 1]];
    }
  }

  /** Increments the bytes in place; true when the carry ran out of the first. */
  method Increment(a: array<nat>) returns (wrapped: bool)
    requires Digits(a[..], 256) && a.Length > 0
    modifies a
    ensures a[..] == Successor(old(a[..])) && (wrapped <==> Exhausted(old(a[..])))
  {
    hide Successor, Exhausted;
    ghost var was := a[..];
    var i := a.Length - 1;
    while true
      invariant 0 <= i < a.Length
      invariant forall j :: 0 <= j <= i ==> a[j] == was[j]
      invariant forall j :: i < j < a.Length ==> was[j] == 255 && a[j] == 0
      decreases i
    {
      a[i] := (a[i] + 1) % 256;
      if a[i] != 0 {
        SuccessorIs(was, a[..], i);
        return false;
      }
      if i == 0 {
        SuccessorIs(was, a[..], -1);
        return true;
      }
      i := i - 1;
    }
  }

  const MILLISECONDS := 0x1_0000_0000_0000

  /** The id of a clock: the low 48 bits of the millisecond, then the entropy. */
  function IdOf(c: Clock): Id
    requires c.Valid()
  {
    Numeral(c.ms, 256, 6) + c.rand
  }

  /** The clock after an id is drawn at ms; drawn is what the random source offers. */
  function Stamp(c: Clock, ms: nat, drawn: seq<nat>): (c': Clock)
    requires c.Valid() && |drawn| == 10 && Digits(drawn, 256)
    ensures c'.Valid()
  {
    Clock(ms, if ms != c.ms || Exhausted(c.rand) then drawn else Successor(c.rand))
  }

  lemma {:induction false} ValueConcat(x: seq<nat>, y: seq<nat>, b: nat)
    ensures Value(x + y, b) == Value(x, b) * Power(b, |y|) + Value(y, b)
  {
    if y == [] {
      assert x + y == x && Power(b, 0) == 1;
    } else {
      var init := y[..|y| - 1];
      assert (x + y)[..|x + y| - 1] == x + init;
      ValueConcat(x, init, b);
      Distribute(Value(x, b), Power(b, |init|), Value(init, b), b);
    }
  }

  lemma SixBytes()
    ensures Power(256, 6) == MILLISECONDS
  {
    Five(1);
    assert Power(256, 1) == 256;
  }

  lemma IdNumber(c: Clock)
    requires c.Valid() && c.ms < MILLISECONDS
    ensures Number(IdOf(c)) == c.ms * Power(256, 10) + Value(c.rand, 256)
  {
    hide Power, Value, Numeral;
    SixBytes();
    NumeralValue(c.ms, 256, 6);
    ValueConcat(Numeral(c.ms, 256, 6), c.rand, 256);
  }

  /** The next id is larger exactly when its millisecond is not exhausted. */
  lemma StampAscends(c: Clock, ms: nat, drawn: seq<nat>)
    requires c.Valid() && |drawn| == 10 && Digits(drawn, 256) && c.ms <= ms < MILLISECONDS
    ensures Number(IdOf(c)) < Number(IdOf(Stamp(c, ms, drawn))) <==> !(ms == c.ms && Exhausted(c.rand))
  {
    hide Power, Value, Numeral, Number, IdOf;
    var c' := Stamp(c, ms, drawn);
    IdNumber(c);
    IdNumber(c');
    SuccessorValue(c.rand);
    ValueBound(c.rand, 256);
    ValueBound(c'.rand, 256);
    if ms > c.ms {
      HeadDecides(c.ms, ms, Power(256, 10), Value(c.rand, 256), Value(c'.rand, 256));
    }
  }

  /** Within a millisecond ids are counted up by one; a new millisecond, or a used up one, draws afresh. */
  lemma NextStamp(c: Clock, ms: nat, drawn: seq<nat>)
    requires c.Valid() && |drawn| == 10 && Digits(drawn, 256) && c.ms <= ms < MILLISECONDS
    ensures var id, id' := IdOf(c), IdOf(Stamp(c, ms, drawn));
            if ms == c.ms && !Exhausted(c.rand) then Number(id') == Number(id) + 1
            else id'[6..] == drawn && Number(id') == ms * Power(256, 10) + Value(drawn, 256)
  {
    hide Power, Value, Numeral, Number, Successor;
    IdNumber(c);
    IdNumber(Stamp(c, ms, drawn));
    SuccessorValue(c.rand);
  }

  /** One call: the millisecond it reads and the bytes the random source offers. */
  datatype Draw = Draw(ms: nat, drawn: seq<nat>)

  predicate Usable(ds: seq<Draw>) {
    && (forall i :: 0 <= i < |ds| ==> |ds[i].drawn| == 10 && Digits(ds[i].drawn, 256) && ds[i].ms < MILLISECONDS)
    && (forall i, j :: 0 <= i < j < |ds| ==> ds[i].ms <= ds[j].ms)
  }

  function ClockAfter(c: Clock, ds: seq<Draw>): (c': Clock)
    requires c.Valid() && Usable(ds)
    ensures c'.Valid()
  {
    if ds == [] then c
    else
      assert Usable(ds[..|ds| - 1]);
      Stamp(ClockAfter(c, ds[..|ds| - 1]), ds[|ds| - 1].ms, ds[|ds| - 1].drawn)
  }

  /** No millisecond runs out of entropy. */
  predicate NeverExhausted(c: Clock, ds: seq<Draw>)
    requires c.Valid() && Usable(ds)
  {
    ds == []
    || (assert Usable(ds[..|ds| - 1]);
        && NeverExhausted(c, ds[..|ds| - 1])
        && !(ds[|ds| - 1].ms == ClockAfter(c, ds[..|ds| - 1]).ms && Exhausted(ClockAfter(c, ds[..|ds| - 1]).rand)))
  }

  lemma ClockTime(c: Clock, ds: seq<Draw>)
    requires c.Valid() && Usable(ds) && ds != []
    ensures ClockAfter(c, ds).ms == ds[|ds| - 1].ms
  {
  }

  /** Over a whole run with time not going back, later ids are larger and sort after earlier ones. */
  lemma {:induction false} IdsAscend(c: Clock, ds: seq<Draw>, k: nat)
    requires c.Valid() && Usable(ds) && NeverExhausted(c, ds) && 0 < k < |ds|
    ensures Usable(ds[..k])
    ensures var a, b := IdOf(ClockAfter(c, ds[..k])), IdOf(ClockAfter(c, ds));
            Number(a) < Number(b) && Less(Text(a), Text(b))
  {
    hide Number, IdOf, Stamp, Text;
    var init := ds[..|ds| - 1];
    assert Usable(init) && Usable(ds[..k]);
    ClockTime(c, init);
    ClockTime(c, ds);
    StampAscends(ClockAfter(c, init), ds[|ds| - 1].ms, ds[|ds| - 1].drawn);
    if k < |init| {
      IdsAscend(c, init, k);
      assert init[..k] == ds[..k];
    } else {
      assert init == ds[..k];
    }
    TextAscends(IdOf(ClockAfter(c, ds[..k])), IdOf(ClockAfter(c, ds)));
  }

  class Generator {
    var lastMS: nat
    var lastRand: seq<nat>

    predicate Valid()
      reads this
    {
      Now().Valid()
    }

    function Now(): Clock
      reads this
    {
      Clock(lastMS, lastRand)
    }

    constructor ()
      ensures Valid() && Now() == Clock(0, Numeral(0, 256, 10))
    {
      lastMS, lastRand := 0, Numeral(0, 256, 10);
    }

    /** Draws an id at a time in milliseconds; a time before the epoch wraps around 64 bits. */
    method NewAt(time: int, drawn: seq<nat>) returns (id: Id)
      requires Valid() && |drawn| == 10 && Digits(drawn, 256)
      modifies this
      ensures Valid() && Now() == Stamp(old(Now()), time % 0x1_0000_0000_0000_0000, drawn) && id == IdOf(Now())
    {
      var ms := time % 0x1_0000_0000_0000_0000;
      var entropy := new nat[10](i => 0);
      if ms == lastMS {
        forall i | 0 <= i < 10 {
          entropy[i] := lastRand[i];
        }
        assert entropy[..] == lastRand;
        var wrapped := Increment(entropy);
        lastRand := if wrapped then drawn else entropy[..];
      } else {
        lastMS, lastRand := ms, drawn;
      }
      TimeBytes(ms);
      id := [ms / 0x100_0000_0000 % 256, ms / 0x1_0000_0000 % 256, ms / 0x100_0000 % 256,
             ms / 0x1_0000 % 256, ms / 0x100 % 256, ms % 256] + lastRand;
    }
  }

  lemma TimeBytes(ms: nat)
    ensures Numeral(ms, 256, 6)
         == [ms / 0x100_0000_0000 % 256, ms / 0x1_0000_0000 % 256, ms / 0x100_0000 % 256,
             ms / 0x1_0000 % 256, ms / 0x100 % 256, ms % 256]
  {
    var a, b, c, d, e := ms / 256, ms / 0x1_0000, ms / 0x100_0000, ms / 0x1_0000_0000, ms / 0x100_0000_0000;
    assert a / 256 == b && b / 256 == c && c / 256 == d && d / 256 == e;
    assert Numeral(e, 256, 1) == [e % 256] && Numeral(d, 256, 2) == [e % 256, d % 256];
    assert Numeral(c, 256, 3) == [e % 256, d % 256, c % 256];
    assert Numeral(b, 256, 4) == [e % 256, d % 256, c % 256, b % 256];
    assert Numeral(a, 256, 5) == [e % 256, d % 256, c % 256, b % 256, a % 256];
  }
}
