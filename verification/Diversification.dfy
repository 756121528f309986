/** The reorder that breaks up near-tied, same-side runs of one crypto group (apps/worker/src/index.ts). */
module Diversification {
  import opened Common
  import opened Ordering
  import opened Admission

  datatype Group = Majors | LargeAlts | HighBeta | OtherGroup

  function GroupOf(symbol: string): Group {
    if symbol in {"BTCUSDT", "ETHUSDT"} then Majors
    else if symbol in {"SOLUSDT", "BNBUSDT", "XRPUSDT", "ADAUSDT"} then LargeAlts
    else if symbol in {"DOGEUSDT", "AVAXUSDT", "LINKUSDT", "MATICUSDT"} then HighBeta
    else OtherGroup
  }

  predicate SameGroup(a: Candidate, b: Candidate) {
    GroupOf(a.symbol) == GroupOf(b.symbol)
  }

  predicate NearTie(a: Candidate, b: Candidate) {
    Abs(a.score - b.score) <= 2.0
  }

  /** Two neighbours that should not stand next to each other. */
  predicate Clash(current: Candidate, next: Candidate) {
    NearTie(current, next) && current.market.Crypto? && next.market.Crypto? && current.side == next.side && SameGroup(current, next)
  }

  /** What may be moved up behind `current` instead. */
  predicate Alternative(current: Candidate, entry: Candidate) {
    NearTie(current, entry) && entry.market.Crypto? && entry.side == current.side && !SameGroup(current, entry)
  }

  /** The first alternative at `k` or later, or the length if there is none. */
  function FindAlternative(r: seq<Candidate>, current: Candidate, k: nat): (n: nat)
    requires k <= |r|
    ensures k <= n <= |r|
    ensures n < |r| ==> Alternative(current, r[n])
    ensures forall i | k <= i < n :: !Alternative(current, r[i])
    decreases |r| - k
  {
    if k == |r| || Alternative(current, r[k]) then k else FindAlternative(r, current, k + 1)
  }

  /** Take the element at `from` out and put it back in at `to`. */
  function MoveUp<T>(r: seq<T>, from: nat, to: nat): (m: seq<T>)
    requires to <= from < |r|
    ensures |m| == |r|
    ensures multiset(m) == multiset(r)
  {
    assert r == r[..to] + r[to..from] + [r[from]] + r[from + 1..];
    r[..to] + [r[from]] + r[to..from] + r[from + 1..]
  }

  predicate Moves(r: seq<Candidate>, i: nat)
    requires i + 1 < |r|
  {
    Clash(r[i], r[i + 1]) && FindAlternative(r, r[i], i + 2) < |r|
  }

  function Step(r: seq<Candidate>, i: nat): (m: seq<Candidate>)
    requires i + 1 < |r|
    ensures |m| == |r|
  {
    if Moves(r, i) then MoveUp(r, FindAlternative(r, r[i], i + 2), i + 1) else r
  }

  function From(r: seq<Candidate>, i: nat): (m: seq<Candidate>)
    ensures |m| == |r|
    decreases |r| - i
  {
    if i + 1 >= |r| then r else From(Step(r, i), i + 1)
  }

  function Diversified(ranked: seq<Candidate>, enabled: bool): seq<Candidate> {
    if enabled then From(ranked, 0) else ranked
  }

  lemma SplicesMoveUp<T>(r: seq<T>, from: nat, to: nat)
    requires to <= from < |r|
    ensures var out := r[..from] + r[from + 1..]; out[..to] + [r[from]] + out[to..] == MoveUp(r, from, to)
  {
  }

  /** `enabled` is both the switch and the only mode the reorder has. */
  method ApplySimpleCryptoDiversification(ranked: seq<Candidate>, enabled: bool) returns (reordered: seq<Candidate>)
    ensures reordered == Diversified(ranked, enabled)
  {
    if !enabled || |ranked| <= 1 {
      return ranked;
    }
    reordered := ranked;
    for i := 0 to |ranked| - 1
      invariant |reordered| == |ranked|
      invariant From(reordered, i) == From(ranked, 0)
    {
      var current, next := reordered[i], reordered[i + 1];
      if Clash(current, next) {
        var alternativeIndex := FindAlternative(reordered, current, i + 2);
        if alternativeIndex < |reordered| {
          var alternative := reordered[alternativeIndex];
          SplicesMoveUp(reordered, alternativeIndex, i + 1);
          reordered := reordered[..alternativeIndex] + reordered[alternativeIndex + 1..];
          reordered := reordered[..i + 1] + [alternative] + reordered[i + 1..];
        }
      }
    }
  }

  // ---- Nothing is lost, nothing before the cursor changes -------------------------------------------------------

  /** The first `n` elements are the same, and so is the bag of the others. */
  ghost predicate SameUpTo<T>(r: seq<T>, m: seq<T>, n: nat) {
    n <= |r| == |m| && r[..n] == m[..n] && multiset(r[n..]) == multiset(m[n..])
  }

  lemma MoveUpIsSame<T>(r: seq<T>, from: nat, to: nat)
    requires to <= from < |r|
    ensures SameUpTo(r, MoveUp(r, from, to), to)
  {
    assert r[to..] == r[to..from] + [r[from]] + r[from + 1..];
    assert MoveUp(r, from, to)[to..] == [r[from]] + r[to..from] + r[from + 1..];
  }

  lemma SameUpToTransitive<T>(r: seq<T>, m: seq<T>, f: seq<T>, n: nat)
    requires SameUpTo(r, m, n) && SameUpTo(m, f, n + 1)
    ensures SameUpTo(r, f, n)
  {
    assert f[..n] == f[..n + 1][..n] && m[..n] == m[..n + 1][..n];
    assert f[n] == f[..n + 1][n] && m[n] == m[..n + 1][n];
    assert f[n..] == [f[n]] + f[n + 1..] && m[n..] == [m[n]] + m[n + 1..];
  }

  lemma SameUpToMembers<T>(r: seq<T>, m: seq<T>, n: nat, k: nat) returns (was: nat)
    requires SameUpTo(r, m, n) && n <= k < |m|
    ensures n <= was < |r| && r[was] == m[k]
  {
    assert m[n..][k - n] in multiset(r[n..]);
    var i :| 0 <= i < |r[n..]| && r[n..][i] == m[k];
    was := n + i;
  }

  lemma {:induction false} StepKeepsPrefix(r: seq<Candidate>, i: nat)
    requires i + 1 < |r|
    ensures SameUpTo(r, Step(r, i), i + 1)
  {
    if Moves(r, i) {
      MoveUpIsSame(r, FindAlternative(r, r[i], i + 2), i + 1);
    }
  }

  lemma {:induction false} FromKeepsPrefix(r: seq<Candidate>, i: nat)
    requires i < |r|
    ensures SameUpTo(r, From(r, i), i + 1)
    decreases |r| - i
  {
    if i + 1 < |r| {
      StepKeepsPrefix(r, i);
      FromKeepsPrefix(Step(r, i), i + 1);
      SameUpToTransitive(r, Step(r, i), From(Step(r, i), i + 1), i + 1);
    }
  }

  /** The result is a rearrangement that leaves the best candidate first. */
  lemma {:induction false} DiversifiedIsPermutation(ranked: seq<Candidate>, enabled: bool)
    ensures multiset(Diversified(ranked, enabled)) == multiset(ranked)
    ensures |Diversified(ranked, enabled)| == |ranked|
    ensures ranked != [] ==> Diversified(ranked, enabled)[0] == ranked[0]
  {
    if ranked != [] {
      FromKeepsPrefix(ranked, 0);
      var f := From(ranked, 0);
      assert f[..1][0] == ranked[..1][0];
      assert f == f[..1] + f[1..] && ranked == ranked[..1] + ranked[1..];
    }
  }

  // ---- No clash is left that could have been broken up ----------------------------------------------------------

  ghost predicate NoneLeft(r: seq<Candidate>, i: nat)
    requires i + 1 < |r|
  {
    Clash(r[i], r[i + 1]) ==> forall k | i + 2 <= k < |r| :: !Alternative(r[i], r[k])
  }

  lemma {:induction false} FromKeepsNext(r: seq<Candidate>, i: nat)
    requires i + 1 < |r|
    ensures From(r, i)[i] == r[i] && From(r, i)[i + 1] == Step(r, i)[i + 1]
    ensures !Moves(r, i) ==> SameUpTo(r, From(r, i), i + 2)
  {
    var m := Step(r, i);
    var f := From(m, i + 1);
    StepKeepsPrefix(r, i);
    FromKeepsPrefix(m, i + 1);
    assert f[i] == f[..i + 2][i] && f[i + 1] == f[..i + 2][i + 1];
    assert m[i] == m[..i + 2][i] == m[..i + 1][i] && r[i] == r[..i + 1][i];
    assert m[i + 1] == m[..i + 2][i + 1];
  }

  lemma {:induction false} FromLeavesNone(r: seq<Candidate>, i: nat, j: nat)
    requires i <= j && j + 1 < |r|
    ensures NoneLeft(From(r, i), j)
    decreases |r| - i
  {
    if i < j {
      FromLeavesNone(Step(r, i), i + 1, j);
    } else {
      var f := From(r, i);
      FromKeepsNext(r, i);
      if !Moves(r, i) && Clash(f[i], f[i + 1]) {
        forall k | i + 2 <= k < |f|
          ensures !Alternative(f[i], f[k])
        {
          var was := SameUpToMembers(r, f, i + 2, k);
        }
      }
    }
  }

  const MAJORS: set<string> := {"BTCUSDT", "ETHUSDT"}
  const LARGE_ALTS: set<string> := {"SOLUSDT", "BNBUSDT", "XRPUSDT", "ADAUSDT"}
  const HIGH_BETA: set<string> := {"DOGEUSDT", "AVAXUSDT", "LINKUSDT", "MATICUSDT"}

  /** No named group has one of the symbols without the other. */
  ghost predicate OneKind(s: string, t: string) {
    (s in MAJORS <==> t in MAJORS) && (s in LARGE_ALTS <==> t in LARGE_ALTS) && (s in HIGH_BETA <==> t in HIGH_BETA)
  }

  /** Two crypto signals on one side within two points of each other. */
  ghost predicate Rivals(a: Candidate, b: Candidate) {
    a.market == b.market == Crypto && a.side == b.side && -2.0 <= a.score - b.score <= 2.0
  }

  lemma GroupsByName(a: Candidate, b: Candidate)
    ensures SameGroup(a, b) <==> OneKind(a.symbol, b.symbol)
  {
    assert GroupOf(a.symbol).Majors? <==> a.symbol in MAJORS;
    assert GroupOf(b.symbol).Majors? <==> b.symbol in MAJORS;
    assert GroupOf(a.symbol).LargeAlts? <==> a.symbol in LARGE_ALTS;
    assert GroupOf(b.symbol).LargeAlts? <==> b.symbol in LARGE_ALTS;
    assert GroupOf(a.symbol).HighBeta? <==> a.symbol in HIGH_BETA;
    assert GroupOf(b.symbol).HighBeta? <==> b.symbol in HIGH_BETA;
  }

  lemma ClashByName(a: Candidate, b: Candidate)
    ensures Clash(a, b) <==> Rivals(a, b) && OneKind(a.symbol, b.symbol)
    ensures a.market.Crypto? ==> (Alternative(a, b) <==> Rivals(a, b) && !OneKind(a.symbol, b.symbol))
  {
    GroupsByName(a, b);
  }

  /** After the reorder, behind rivals of one kind there is no rival of another kind left that could have been moved up. */
  lemma {:induction false} NoClashLeftBehind(ranked: seq<Candidate>, i: nat, k: nat)
    requires i + 2 <= k < |ranked|
    ensures var r := Diversified(ranked, true);
            Rivals(r[i], r[i + 1]) && OneKind(r[i].symbol, r[i + 1].symbol) && Rivals(r[i], r[k]) ==> OneKind(r[i].symbol, r[k].symbol)
  {
    var r := Diversified(ranked, true);
    FromLeavesNone(ranked, 0, i);
    ClashByName(r[i], r[i + 1]);
    ClashByName(r[i], r[k]);
  }

  /** When the cursor stands before a clash, the first alternative behind it is what moves up; without one nothing moves. */
  lemma {:induction false} FirstAlternativeMovesUp(r: seq<Candidate>, i: nat, k: nat)
    requires i + 2 <= k <= |r| && Rivals(r[i], r[i + 1]) && OneKind(r[i].symbol, r[i + 1].symbol)
    requires forall j | i + 2 <= j < k :: !(Rivals(r[i], r[j]) && !OneKind(r[i].symbol, r[j].symbol))
    requires k < |r| ==> Rivals(r[i], r[k]) && !OneKind(r[i].symbol, r[k].symbol)
    ensures From(r, i)[i + 1] == if k < |r| then r[k] else r[i + 1]
  {
    ClashByName(r[i], r[i + 1]);
    forall j | i + 2 <= j < |r|
      ensures Alternative(r[i], r[j]) <==> Rivals(r[i], r[j]) && !OneKind(r[i].symbol, r[j].symbol)
    {
      ClashByName(r[i], r[j]);
    }
    FromKeepsNext(r, i);
  }

  // ---- How far the order by score is given up -------------------------------------------------------------------

  ghost predicate Descending(r: seq<Candidate>, lo: nat) {
    forall a, b | lo <= a < b < |r| :: r[a].score >= r[b].score
  }

  ghost predicate WithinTwo(r: seq<Candidate>, hi: nat) {
    forall a, b | 0 <= a < hi && a < b < |r| :: r[b].score <= r[a].score + 2.0
  }

  /**
   What holds when the cursor is at `i`: the tail from `i` is still in order, or `i` was just moved up; then the
   tail after it is in order and `i` does not clash with its successor.
   */
  ghost predicate Cursor(r: seq<Candidate>, i: nat) {
    && WithinTwo(r, i)
    && (Descending(r, i) || (Descending(r, i + 1) && WithinTwo(r, i + 1) && (i + 1 < |r| ==> !Clash(r[i], r[i + 1]))))
  }

  /** Where the element at `b` stood before the move. */
  function Before(from: nat, to: nat, b: nat): nat {
    if b == to then from else if to < b <= from then b - 1 else b
  }

  lemma MoveUpAt<T>(r: seq<T>, from: nat, to: nat, b: nat)
    requires to <= from < |r| && b < |r|
    ensures Before(from, to, b) < |r| && MoveUp(r, from, to)[b] == r[Before(from, to, b)]
  {
  }

  lemma {:induction false} MoveKeepsWithinTwo(r: seq<Candidate>, i: nat, k: nat, a: nat, b: nat)
    requires i + 1 < k < |r| && Descending(r, i) && WithinTwo(r, i)
    requires NearTie(r[i], r[k]) && a < i + 2 && a < b < |r|
    ensures MoveUp(r, k, i + 1)[b].score <= MoveUp(r, k, i + 1)[a].score + 2.0
  {
    MoveUpAt(r, k, i + 1, a);
    MoveUpAt(r, k, i + 1, b);
    var was := Before(k, i + 1, b);
    if a < i {
      assert a < was;
    } else {
      assert i < was && r[was].score <= r[i].score;
    }
  }

  lemma {:induction false} MoveKeepsDescending(r: seq<Candidate>, i: nat, k: nat)
    requires i + 1 < k < |r| && Descending(r, i)
    ensures Descending(MoveUp(r, k, i + 1), i + 2)
  {
    var m := MoveUp(r, k, i + 1);
    forall a, b | i + 2 <= a < b < |m|
      ensures m[a].score >= m[b].score
    {
      MoveUpAt(r, k, i + 1, a);
      MoveUpAt(r, k, i + 1, b);
      assert i <= Before(k, i + 1, a) < Before(k, i + 1, b) < |r|;
    }
  }

  lemma {:induction false} MoveKeepsOrder(r: seq<Candidate>, i: nat, k: nat) returns (m: seq<Candidate>)
    requires i + 1 < k < |r| && Descending(r, i) && WithinTwo(r, i) && NearTie(r[i], r[k])
    ensures m == MoveUp(r, k, i + 1) && m[i + 1] == r[k] && m[i + 2] == r[i + 1]
    ensures WithinTwo(m, i + 1) && WithinTwo(m, i + 2) && Descending(m, i + 2)
  {
    m := MoveUp(r, k, i + 1);
    forall a, b | 0 <= a < i + 2 && a < b < |m|
      ensures m[b].score <= m[a].score + 2.0
    {
      MoveKeepsWithinTwo(r, i, k, a, b);
    }
    MoveKeepsDescending(r, i, k);
    MoveUpAt(r, k, i + 1, i + 1);
    MoveUpAt(r, k, i + 1, i + 2);
  }

  lemma {:induction false} MoveKeepsCursor(r: seq<Candidate>, i: nat, k: nat)
    requires i + 1 < k < |r| && Descending(r, i) && WithinTwo(r, i)
    requires Clash(r[i], r[i + 1]) && Alternative(r[i], r[k])
    ensures Cursor(MoveUp(r, k, i + 1), i + 1)
  {
    var m := MoveKeepsOrder(r, i, k);
  }

  lemma {:induction false} FromIsWithinTwo(r: seq<Candidate>, i: nat)
    requires Cursor(r, i)
    ensures WithinTwo(From(r, i), |r|)
    decreases |r| - i
  {
    if i + 1 < |r| {
      if Moves(r, i) {
        MoveKeepsCursor(r, i, FindAlternative(r, r[i], i + 2));
      }
      FromIsWithinTwo(Step(r, i), i + 1);
    }
  }

  /** A list in descending score order comes back with every inversion at most two points deep. */
  lemma {:induction false} InversionsAreNearTies(ranked: seq<Candidate>, enabled: bool)
    requires SortedBy(ranked, ScoresAtLeast)
    ensures var r := Diversified(ranked, enabled); forall i, j | 0 <= i < j < |r| :: r[j].score <= r[i].score + 2.0
  {
    assert Descending(ranked, 0) by {
      forall a, b | 0 <= a < b < |ranked|
        ensures ranked[a].score >= ranked[b].score
      {
        assert ScoresAtLeast(ranked[a], ranked[b]);
      }
    }
    FromIsWithinTwo(ranked, 0);
  }

  // ---- When anything is reordered at all ------------------------------------------------------------------------

  lemma {:induction false} FirstMoveShows(r: seq<Candidate>, i: nat)
    requires i + 1 < |r| && Moves(r, i)
    ensures From(r, i)[i + 1] != r[i + 1]
  {
    FromKeepsNext(r, i);
    assert Step(r, i)[i + 1] == r[FindAlternative(r, r[i], i + 2)];
  }

  lemma {:induction false} FromIsIdentityIff(r: seq<Candidate>, i: nat)
    ensures From(r, i) == r <==> forall k | i <= k < |r| - 1 :: !Moves(r, k)
    decreases |r| - i
  {
    if i + 1 < |r| {
      if Moves(r, i) {
        FirstMoveShows(r, i);
      } else {
        FromIsIdentityIff(r, i + 1);
      }
    }
  }

  /** Rivals of one kind with a rival of another kind behind them. */
  ghost predicate Avoidable(r: seq<Candidate>, i: nat)
    requires i + 1 < |r|
  {
    Rivals(r[i], r[i + 1]) && OneKind(r[i].symbol, r[i + 1].symbol)
    && exists k :: i + 2 <= k < |r| && Rivals(r[i], r[k]) && !OneKind(r[i].symbol, r[k].symbol)
  }

  lemma {:induction false} MovesIffAvoidable(r: seq<Candidate>, i: nat)
    requires i + 1 < |r|
    ensures Moves(r, i) <==> Avoidable(r, i)
  {
    ClashByName(r[i], r[i + 1]);
    forall k | i + 2 <= k < |r|
      ensures Clash(r[i], r[i + 1]) ==> (Alternative(r[i], r[k]) <==> Rivals(r[i], r[k]) && !OneKind(r[i].symbol, r[k].symbol))
    {
      ClashByName(r[i], r[k]);
    }
  }

  /** The ranking is returned as it came iff no two rivals of one kind stand before a rival of another kind. */
  lemma {:induction false} UnchangedIff(ranked: seq<Candidate>)
    ensures Diversified(ranked, true) == ranked <==> forall i | 0 <= i < |ranked| - 1 :: !Avoidable(ranked, i)
  {
    FromIsIdentityIff(ranked, 0);
    forall i | 0 <= i < |ranked| - 1
      ensures Moves(ranked, i) <==> Avoidable(ranked, i)
    {
      MovesIffAvoidable(ranked, i);
    }
  }
}
