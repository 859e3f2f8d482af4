/** The deployment state machine of store/model.go. */
module Lifecycle {

  datatype State =
    | Pending | Preflight | AwaitApproval | Deploying | Verifying | Promoting
    | Succeeded | RollingBack | RolledBack | RollbackFailed | Failed | Aborted | Unknown

  function StateName(s: State): string {
    match s
    case Pending => "PENDING"
    case Preflight => "PREFLIGHT"
    case AwaitApproval => "AWAIT_APPROVAL"
    case Deploying => "DEPLOYING"
    case Verifying => "VERIFYING"
    case Promoting => "PROMOTING"
    case Succeeded => "SUCCEEDED"
    case RollingBack => "ROLLING_BACK"
    case RolledBack => "ROLLED_BACK"
    case RollbackFailed => "ROLLBACK_FAILED"
    case Failed => "FAILED"
    case Aborted => "ABORTED"
    case Unknown => "UNKNOWN"
  }

  lemma NamesDiffer(a: State, b: State)
    requires StateName(a) == StateName(b)
    ensures a == b
  {
    var s, t := StateName(a), StateName(b);
    assert |s| == |t| && s[0] == t[0] && s[2] == t[2];
  }

  predicate IsTerminal(s: State) {
    match s
    case Succeeded | RolledBack | RollbackFailed | Aborted | Failed | Unknown => true
    case _ => false
  }

  predicate RequiresLease(s: State) {
    match s
    case Preflight | AwaitApproval | Deploying | Verifying | Promoting | RollingBack => true
    case _ => false
  }

  /** The transition table, written out as data. */
  function Allowed(s: State): set<State> {
    match s
    case Pending => {Preflight, Aborted, Failed}
    case Preflight => {AwaitApproval, Deploying, Failed, Aborted, RollbackFailed}
    case AwaitApproval => {Deploying, Failed, Aborted}
    case Deploying => {Verifying, RollingBack, Failed, Aborted, Unknown, RollbackFailed}
    case Verifying => {Promoting, RollingBack, Failed, Aborted, Unknown, RollbackFailed}
    case Promoting => {Succeeded, RollingBack, Failed, Aborted, Unknown, RollbackFailed}
    case RollingBack => {RolledBack, RollbackFailed, Unknown}
    case _ => {}
  }

  predicate CanTransition(from: State, to: State) {
    from != to && to in Allowed(from)
  }

  /** The number of moves still possible from a state: the longest path to a terminal one. */
  function Rank(s: State): (r: nat)
    ensures r <= 7 && (r == 0 <==> IsTerminal(s))
  {
    match s
    case Pending => 7
    case Preflight => 6
    case AwaitApproval => 5
    case Deploying => 4
    case Verifying => 3
    case Promoting => 2
    case RollingBack => 1
    case _ => 0
  }

  /** One legal row-to-row step: a table move, or an update that keeps the state. */
  predicate Step(from: State, to: State) {
    from == to || CanTransition(from, to)
  }

  predicate Walk(ss: seq<State>) {
    forall i :: 0 < i < |ss| ==> Step(ss[i - 1], ss[i])
  }

  /** How many elements of a walk differ from the one before. */
  function Moves(ss: seq<State>): nat {
    if |ss| < 2 then 0
    else Moves(ss[..|ss| - 1]) + (if ss[|ss| - 2] == ss[|ss| - 1] then 0 else 1)
  }

  /** How many times a walk enters state s. */
  function Entries(ss: seq<State>, s: State): nat {
    if |ss| < 2 then 0
    else Entries(ss[..|ss| - 1], s) + (if ss[|ss| - 2] != s && ss[|ss| - 1] == s then 1 else 0)
  }

  lemma RankDrops(from: State, to: State)
    requires CanTransition(from, to)
    ensures Rank(to) < Rank(from)
  {
  }

  /** Every move of a walk spends rank, so a walk has at most seven moves. */
  lemma {:induction false} MovesSpendRank(ss: seq<State>)
    requires Walk(ss) && |ss| > 0
    ensures Moves(ss) + Rank(ss[|ss| - 1]) <= Rank(ss[0])
  {
    if |ss| > 1 {
      var prefix := ss[..|ss| - 1];
      MovesSpendRank(prefix);
      assert Step(ss[|ss| - 2], ss[|ss| - 1]);
      if ss[|ss| - 2] != ss[|ss| - 1] {
        RankDrops(ss[|ss| - 2], ss[|ss| - 1]);
      }
    }
  }

  /** A walk never comes back to a state it has left: it enters each state at most once. */
  lemma {:induction false} EntersOnce(ss: seq<State>, s: State)
    requires Walk(ss) && |ss| > 0
    ensures Entries(ss, s) <= 1
    ensures Rank(ss[|ss| - 1]) <= Rank(ss[0])
    ensures Entries(ss, s) == 1 || ss[0] == s ==> Rank(ss[|ss| - 1]) <= Rank(s)
    ensures ss[0] == s ==> Entries(ss, s) == 0
  {
    if |ss| > 1 {
      var prefix := ss[..|ss| - 1];
      EntersOnce(prefix, s);
      assert prefix[0] == ss[0];
      assert Step(ss[|ss| - 2], ss[|ss| - 1]);
      if ss[|ss| - 2] != ss[|ss| - 1] {
        RankDrops(ss[|ss| - 2], ss[|ss| - 1]);
      }
    }
  }

  /** Where each state is entered from. */
  lemma EnteredFrom(s: State)
    ensures !CanTransition(s, Pending)
    ensures CanTransition(s, Preflight) <==> s == Pending
    ensures CanTransition(s, AwaitApproval) <==> s == Preflight
    ensures CanTransition(s, Deploying) <==> s in {Preflight, AwaitApproval}
    ensures CanTransition(s, Verifying) <==> s == Deploying
    ensures CanTransition(s, Promoting) <==> s == Verifying
    ensures CanTransition(s, Succeeded) <==> s == Promoting
    ensures CanTransition(s, RollingBack) <==> s in {Deploying, Verifying, Promoting}
    ensures CanTransition(s, RolledBack) <==> s == RollingBack
    ensures CanTransition(s, RollbackFailed) <==> s in {Preflight, Deploying, Verifying, Promoting, RollingBack}
    ensures CanTransition(s, Unknown) <==> s in {Deploying, Verifying, Promoting, RollingBack}
    ensures CanTransition(s, Failed) <==> s in {Pending, Preflight, AwaitApproval, Deploying, Verifying, Promoting}
    ensures CanTransition(s, Aborted) <==> s in {Pending, Preflight, AwaitApproval, Deploying, Verifying, Promoting}
  {
  }

  /** The states that every walk to a state has been in. */
  function Behind(s: State): set<State> {
    match s
    case Pending => {}
    case Preflight => {Pending}
    case AwaitApproval | Deploying => {Pending, Preflight}
    case Verifying => {Pending, Preflight, Deploying}
    case Promoting => {Pending, Preflight, Deploying, Verifying}
    case Succeeded => {Pending, Preflight, Deploying, Verifying, Promoting}
    case RollingBack | Unknown => {Pending, Preflight, Deploying}
    case RolledBack => {Pending, Preflight, Deploying, RollingBack}
    case RollbackFailed => {Pending, Preflight}
    case Failed | Aborted => {Pending}
  }

  lemma BehindTheEnds(s: State)
    ensures s in {Succeeded, Promoting} ==> Verifying in Behind(s) && Deploying in Behind(s)
    ensures s == Succeeded ==> Promoting in Behind(s)
    ensures s == RolledBack ==> RollingBack in Behind(s)
    ensures s in {Succeeded, Promoting, Verifying, RollingBack, RolledBack, Unknown} ==>
              Deploying in Behind(s) && Preflight in Behind(s)
  {
  }

  lemma StepBehind(from: State, to: State)
    requires Step(from, to)
    ensures Behind(to) <= Behind(from) + {from}
  {
  }

  /**
    * No short cut: a deployment that starts PENDING succeeds only by way of PREFLIGHT, DEPLOYING,
    * VERIFYING and PROMOTING, and is rolled back, rolling back or unknown only once it was DEPLOYING.
    */
  lemma {:induction false} NoShortCut(ss: seq<State>)
    requires Walk(ss) && ss != [] && ss[0] == Pending
    ensures forall s :: s in Behind(ss[|ss| - 1]) ==> s in ss
  {
    if |ss| > 1 {
      var init := ss[..|ss| - 1];
      NoShortCut(init);
      assert Step(ss[|ss| - 2], ss[|ss| - 1]);
      assert init[|init| - 1] == ss[|ss| - 2] && init[|init| - 1] in ss;
      assert forall s :: s in init ==> s in ss;
      StepBehind(ss[|ss| - 2], ss[|ss| - 1]);
    }
  }
}
