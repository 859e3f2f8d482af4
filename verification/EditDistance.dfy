/** The nearest-key suggestion of config/strict.go. */
module EditDistance {
  import opened Prelude

  function Min3(a: int, b: int, c: int): int {
    var m := if b < a then b else a;
    if c < m then c else m
  }

  function Cost(c: char, d: char): nat {
    if c == d then 0 else 1
  }

  /** The distance between the first i characters of a and the first j of b. */
  function Between(a: string, b: string, i: nat, j: nat): (d: nat)
    requires i <= |a| && j <= |b|
  {
    if i == 0 then j
    else if j == 0 then i
    else Min3(Between(a, b, i, j - 1) + 1, Between(a, b, i - 1, j) + 1,
              Between(a, b, i - 1, j - 1) + Cost(a[i - 1], b[j - 1]))
  }

  function Distance(a: string, b: string): nat {
    Between(a, b, |a|, |b|)
  }

  /** The recurrence, for lemmas that hide the function. */
  lemma Recurrence(a: string, b: string, i: nat, j: nat)
    requires i <= |a| && j <= |b|
    ensures i == 0 ==> Between(a, b, i, j) == j
    ensures j == 0 ==> Between(a, b, i, j) == i
    ensures i > 0 && j > 0 ==>
      Between(a, b, i, j) == Min3(Between(a, b, i, j - 1) + 1, Between(a, b, i - 1, j) + 1,
                                  Between(a, b, i - 1, j - 1) + Cost(a[i - 1], b[j - 1]))
  {
  }

  // ------------------------------------------------------- a metric

  lemma {:induction false} Symmetric(a: string, b: string, i: nat, j: nat)
    requires i <= |a| && j <= |b|
    ensures Between(a, b, i, j) == Between(b, a, j, i)
  {
    hide Between;
    Recurrence(a, b, i, j);
    Recurrence(b, a, j, i);
    if i > 0 && j > 0 {
      Symmetric(a, b, i, j - 1);
      Symmetric(a, b, i - 1, j);
      Symmetric(a, b, i - 1, j - 1);
    }
  }

  /** One more character on either side changes the distance by at most one, and lengths bound it below. */
  lemma {:induction false} Steps(a: string, b: string, i: nat, j: nat)
    requires i <= |a| && j <= |b|
    ensures i > 0 ==> Between(a, b, i, j) <= Between(a, b, i - 1, j) + 1
    ensures j > 0 ==> Between(a, b, i, j) <= Between(a, b, i, j - 1) + 1
    ensures Between(a, b, i, j) >= i - j && Between(a, b, i, j) >= j - i && Between(a, b, i, j) <= i + j
  {
    hide Between;
    Recurrence(a, b, i, j);
    if i > 0 && j > 0 {
      Steps(a, b, i, j - 1);
      Steps(a, b, i - 1, j);
      Steps(a, b, i - 1, j - 1);
    } else if i > 0 {
      Recurrence(a, b, i - 1, j);
    } else if j > 0 {
      Recurrence(a, b, i, j - 1);
    }
  }

  lemma {:induction false} Triangle(a: string, b: string, c: string, i: nat, j: nat, k: nat)
    requires i <= |a| && j <= |b| && k <= |c|
    ensures Between(a, c, i, k) <= Between(a, b, i, j) + Between(b, c, j, k)
    decreases i + j + k
  {
    hide Between;
    Recurrence(a, b, i, j);
    Recurrence(b, c, j, k);
    Recurrence(a, c, i, k);
    Steps(a, b, i, j);
    Steps(b, c, j, k);
    Steps(a, c, i, k);
    if i > 0 && j > 0 && k > 0 {
      Triangle(a, b, c, i - 1, j, k);
      Triangle(a, b, c, i, j, k - 1);
      Triangle(a, b, c, i, j - 1, k);
      Triangle(a, b, c, i, j - 1, k - 1);
      Triangle(a, b, c, i - 1, j - 1, k);
      Triangle(a, b, c, i - 1, j - 1, k - 1);
    }
  }

  lemma {:induction false} Zero(a: string, i: nat)
    requires i <= |a|
    ensures Between(a, a, i, i) == 0
  {
    if i > 0 {
      Zero(a, i - 1);
    }
  }

  // ------------------------------------------------------- the fewest edits

  /** One insertion, deletion or substitution. */
  datatype Edit = Insert(at: nat, c: char) | Delete(at: nat) | Substitute(at: nat, c: char)

  predicate Applies(e: Edit, s: string) {
    match e
    case Insert(at, _) => at <= |s|
    case Delete(at) => at < |s|
    case Substitute(at, _) => at < |s|
  }

  function Apply(e: Edit, s: string): string
    requires Applies(e, s)
  {
    match e
    case Insert(at, c) => s[..at] + [c] + s[at..]
    case Delete(at) => s[..at] + s[at + 1..]
    case Substitute(at, c) => s[at := c]
  }

  /** The edits, one after the other, lead from a to b. */
  predicate Leads(es: seq<Edit>, a: string, b: string) {
    if es == [] then a == b
    else Applies(es[0], a) && Leads(es[1..], Apply(es[0], a), b)
  }

  lemma {:induction false} CommonTail(a: string, b: string, v: string)
    ensures Distance(a + v, b + v) <= Distance(a, b)
  {
    if v == "" {
      assert a + v == a && b + v == b;
    } else {
      var w := v[..|v| - 1];
      CommonTail(a, b, w);
      SamePrefix(a + v, b + v, a + w, b + w, |a + w|, |b + w|);
    }
  }

  lemma {:induction false} SamePrefix(a: string, b: string, a': string, b': string, i: nat, j: nat)
    requires i <= |a| && i <= |a'| && a[..i] == a'[..i]
    requires j <= |b| && j <= |b'| && b[..j] == b'[..j]
    ensures Between(a, b, i, j) == Between(a', b', i, j)
  {
    hide Between;
    Recurrence(a, b, i, j);
    Recurrence(a', b', i, j);
    if i > 0 && j > 0 {
      assert a[i - 1] == a[..i][i - 1] == a'[i - 1] && b[j - 1] == b[..j][j - 1] == b'[j - 1];
      assert a[..i - 1] == a[..i][..i - 1] == a'[..i - 1] && b[..j - 1] == b[..j][..j - 1] == b'[..j - 1];
      SamePrefix(a, b, a', b', i, j - 1);
      SamePrefix(a, b, a', b', i - 1, j);
      SamePrefix(a, b, a', b', i - 1, j - 1);
    }
  }

  lemma LastCharacter(u: string, c: char, d: char)
    ensures Distance(u, u + [c]) <= 1 && Distance(u + [c], u) <= 1 && Distance(u + [c], u + [d]) <= 1
  {
    hide Between;
    var n := |u|;
    Zero(u, n);
    SamePrefix(u, u + [c], u, u, n, n);
    SamePrefix(u + [c], u, u, u, n, n);
    SamePrefix(u + [c], u + [d], u, u, n, n);
    Steps(u, u + [c], n, n + 1);
    Steps(u + [c], u, n + 1, n);
    Recurrence(u + [c], u + [d], n + 1, n + 1);
  }

  lemma OneEdit(e: Edit, s: string)
    requires Applies(e, s)
    ensures Distance(s, Apply(e, s)) <= 1
  {
    hide Distance;
    var u := s[..e.at];
    match e
    case Insert(at, c) =>
      LastCharacter(u, c, c);
      CommonTail(u, u + [c], s[at..]);
      assert s == u + s[at..];
    case Delete(at) =>
      LastCharacter(u, s[at], s[at]);
      CommonTail(u + [s[at]], u, s[at + 1..]);
      assert s == (u + [s[at]]) + s[at + 1..];
    case Substitute(at, c) =>
      LastCharacter(u, s[at], c);
      CommonTail(u + [s[at]], u + [c], s[at + 1..]);
      assert s == (u + [s[at]]) + s[at + 1..] && Apply(e, s) == (u + [c]) + s[at + 1..];
  }

  /** No series of edits leads from a to b in fewer steps than the distance. */
  lemma {:induction false} NoFewer(es: seq<Edit>, a: string, b: string)
    requires Leads(es, a, b)
    ensures Distance(a, b) <= |es|
  {
    if es == [] {
      Zero(a, |a|);
    } else {
      var m := Apply(es[0], a);
      NoFewer(es[1..], m, b);
      OneEdit(es[0], a);
      Triangle(a, m, b, |a|, |m|, |b|);
    }
  }

  lemma {:induction false} LeadsOn(xs: seq<Edit>, ys: seq<Edit>, a: string, m: string, b: string)
    requires Leads(xs, a, m) && Leads(ys, m, b)
    ensures Leads(xs + ys, a, b)
  {
    if xs == [] {
      assert xs + ys == ys;
    } else {
      LeadsOn(xs[1..], ys, Apply(xs[0], a), m, b);
      assert (xs + ys)[1..] == xs[1..] + ys;
    }
  }

  /** Edits work the same with a character after the text. */
  lemma {:induction false} LeadsBefore(es: seq<Edit>, a: string, b: string, c: char)
    requires Leads(es, a, b)
    ensures Leads(es, a + [c], b + [c])
  {
    if es != [] {
      assert Apply(es[0], a + [c]) == Apply(es[0], a) + [c];
      LeadsBefore(es[1..], Apply(es[0], a), b, c);
    }
  }

  lemma LeadsOnce(e: Edit, a: string)
    requires Applies(e, a)
    ensures Leads([e], a, Apply(e, a))
  {
    assert [e][1..] == [];
  }

  /** As many edits as the distance are enough. */
  lemma {:induction false} Enough(a: string, b: string, i: nat, j: nat) returns (es: seq<Edit>)
    requires i <= |a| && j <= |b|
    ensures Leads(es, a[..i], b[..j]) && |es| == Between(a, b, i, j)
  {
    hide Between, Leads, Apply;
    Recurrence(a, b, i, j);
    if i == 0 && j == 0 {
      es := [];
      assert Leads([], a[..0], b[..0]) by { LeadsNowhere(a, b); }
    } else if j > 0 && (i == 0 || Between(a, b, i, j) == Between(a, b, i, j - 1) + 1) {
      Recurrence(a, b, i, j - 1);
      var init := Enough(a, b, i, j - 1);
      Inserted(b, j);
      LeadsOn(init, [Insert(j - 1, b[j - 1])], a[..i], b[..j - 1], b[..j]);
      es := init + [Insert(j - 1, b[j - 1])];
    } else if i > 0 && (j == 0 || Between(a, b, i, j) == Between(a, b, i - 1, j) + 1) {
      Recurrence(a, b, i - 1, j);
      var rest := Enough(a, b, i - 1, j);
      Deleted(a, i);
      LeadsOn([Delete(i - 1)], rest, a[..i], a[..i - 1], b[..j]);
      es := [Delete(i - 1)] + rest;
    } else {
      var init := Enough(a, b, i - 1, j - 1);
      LeadsBefore(init, a[..i - 1], b[..j - 1], a[i - 1]);
      assert a[..i] == a[..i - 1] + [a[i - 1]] && b[..j] == b[..j - 1] + [b[j - 1]];
      es := init;
      if a[i - 1] != b[j - 1] {
        Substituted(b, j, a[i - 1]);
        LeadsOn(init, [Substitute(j - 1, b[j - 1])], a[..i], b[..j - 1] + [a[i - 1]], b[..j]);
        es := init + [Substitute(j - 1, b[j - 1])];
      }
    }
  }

  lemma LeadsNowhere(a: string, b: string)
    ensures Leads([], a[..0], b[..0])
  {
  }

  lemma Inserted(b: string, j: nat)
    requires 0 < j <= |b|
    ensures Leads([Insert(j - 1, b[j - 1])], b[..j - 1], b[..j])
  {
    LeadsOnce(Insert(j - 1, b[j - 1]), b[..j - 1]);
    assert Apply(Insert(j - 1, b[j - 1]), b[..j - 1]) == b[..j];
  }

  lemma Deleted(a: string, i: nat)
    requires 0 < i <= |a|
    ensures Leads([Delete(i - 1)], a[..i], a[..i - 1])
  {
    LeadsOnce(Delete(i - 1), a[..i]);
    assert Apply(Delete(i - 1), a[..i]) == a[..i - 1];
  }

  lemma Substituted(b: string, j: nat, c: char)
    requires 0 < j <= |b|
    ensures Leads([Substitute(j - 1, b[j - 1])], b[..j - 1] + [c], b[..j])
  {
    LeadsOnce(Substitute(j - 1, b[j - 1]), b[..j - 1] + [c]);
    assert Apply(Substitute(j - 1, b[j - 1]), b[..j - 1] + [c]) == b[..j];
  }

  /** The distance is the least number of edits that lead from one text to the other. */
  lemma {:induction false} FewestEdits(a: string, b: string) returns (es: seq<Edit>)
    ensures Leads(es, a, b) && |es| == Distance(a, b)
    ensures forall fs :: Leads(fs, a, b) ==> |es| <= |fs|
  {
    assert a[..|a|] == a && b[..|b|] == b;
    es := Enough(a, b, |a|, |b|);
    forall fs | Leads(fs, a, b) ensures |es| <= |fs| {
      NoFewer(fs, a, b);
    }
  }

  /** A metric: zero only between equals, symmetric, and no detour is shorter. */
  lemma IsMetric(a: string, b: string, c: string)
    ensures Distance(a, b) == 0 <==> a == b
    ensures Distance(a, b) == Distance(b, a)
    ensures Distance(a, c) <= Distance(a, b) + Distance(b, c)
  {
    hide Between, Leads;
    Symmetric(a, b, |a|, |b|);
    Triangle(a, b, c, |a|, |b|, |c|);
    Zero(a, |a|);
    var es := FewestEdits(a, b);
    if es == [] {
      NoEditsNoChange(a, b);
    }
  }

  lemma NoEditsNoChange(a: string, b: string)
    ensures Leads([], a, b) ==> a == b
  {
  }

  // ------------------------------------------------------- the two-row loop

  method Levenshtein(a: string, b: string) returns (d: nat)
    ensures d == Distance(a, b)
  {
    hide Between;
    if a == b {
      Zero(a, |a|);
      return 0;
    }
    var prev, cur := new nat[|b| + 1](j => j), new nat[|b| + 1](j => 0);
    forall j | 0 <= j <= |b| ensures Between(a, b, 0, j) == j {
      Recurrence(a, b, 0, j);
    }
    for i := 1 to |a| + 1
      invariant prev != cur && fresh(prev) && fresh(cur) && prev.Length == cur.Length == |b| + 1
      invariant forall j :: 0 <= j <= |b| ==> prev[j] == Between(a, b, i - 1, j)
    {
      cur[0] := i;
      Recurrence(a, b, i, 0);
      for j := 1 to |b| + 1
        invariant forall k :: 0 <= k <= |b| ==> prev[k] == Between(a, b, i - 1, k)
        invariant forall k :: 0 <= k < j ==> cur[k] == Between(a, b, i, k)
      {
        Recurrence(a, b, i, j);
        cur[j] := Min3(cur[j - 1] + 1, prev[j] + 1, prev[j - 1] + Cost(a[i - 1], b[j - 1]));
      }
      prev, cur := cur, prev;
    }
    return prev[|b|];
  }

  function Limit(got: string): nat {
    if |got| / 3 + 1 < 2 then 2 else |got| / 3 + 1
  }

  const FAR := 0x4000_0000

  /** Among the first n known keys, the k-th is the first at the least distance. */
  predicate Nearest(got: string, known: seq<string>, n: nat, k: nat) {
    && k < n <= |known|
    && (forall i :: 0 <= i < n ==> Distance(got, known[k]) <= Distance(got, known[i]))
    && (forall i :: 0 <= i < k ==> Distance(got, known[k]) < Distance(got, known[i]))
  }

  /** The k-th key is worth suggesting: nearest, not blank, two edits away or no more than one beyond a third. */
  predicate Suggests(got: string, known: seq<string>, k: nat) {
    && Nearest(got, known, |known|, k) && known[k] != ""
    && (Distance(got, known[k]) <= 2 || 3 * (Distance(got, known[k]) - 1) <= |got|)
    && Distance(got, known[k]) < FAR
  }

  /** The nearest known key, if there is one to suggest. */
  method Closest(got: string, known: seq<string>) returns (best: string, found: bool)
    ensures found ==> exists k: nat :: Suggests(got, known, k) && known[k] == best
    ensures !found ==> best == "" && forall k: nat :: !Suggests(got, known, k)
  {
    hide Distance;
    var bestDist := FAR;
    best := "";
    ghost var at: Option<nat> := None;
    for i := 0 to |known|
      invariant at.None? ==> best == "" && bestDist == FAR && forall k :: 0 <= k < i ==> Distance(got, known[k]) >= FAR
      invariant at.Some? ==> Nearest(got, known, i, at.value)
                             && best == known[at.value] && bestDist == Distance(got, best) < FAR
    {
      var d := Levenshtein(got, known[i]);
      if d < bestDist {
        best, bestDist := known[i], d;
        at := Some(i);
      }
    }
    if best != "" && bestDist <= Limit(got) {
      assert Suggests(got, known, at.value);
      return best, true;
    }
    return "", false;
  }
}
