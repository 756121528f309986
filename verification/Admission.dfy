/** Which candidates of a cycle become signals: one per symbol, the best first (apps/worker/src/index.ts). */
module Admission {
  import opened Common
  import opened Ordering
  import opened OutcomeMachine

  datatype Grade = APlus | Lower

  datatype Market = Crypto | Forex

  datatype Candidate = Candidate(
    symbol: string, market: Market, side: Side, score: real, grade: Grade,
    entryPrice: real, stopPrice: real, tp1: real, tp2: real)

  predicate ScoresAtLeast(a: Candidate, b: Candidate) {
    a.score >= b.score
  }

  function SymbolKey(c: Candidate): string {
    ToUpper(c.symbol)
  }

  function ByScore(cs: seq<Candidate>): seq<Candidate> {
    StableSort(cs, ScoresAtLeast)
  }

  /** Walk a list and keep an element if its key is not taken yet. */
  function FirstPerKey<T, K(==)>(s: seq<T>, key: T -> K, taken: set<K>): seq<T> {
    if s == [] then []
    else if key(s[0]) in taken then FirstPerKey(s[1..], key, taken)
    else [s[0]] + FirstPerKey(s[1..], key, taken + {key(s[0])})
  }

  function FirstPerSymbol(cs: seq<Candidate>, taken: set<string>): seq<Candidate> {
    FirstPerKey(cs, SymbolKey, taken)
  }

  /** Independent multi-engine admission: a map from symbol to the admitted candidate, filled in score order. */
  method AdmitIndependent(cycleCandidates: seq<Candidate>) returns (selected: seq<Candidate>)
    ensures selected == FirstPerSymbol(ByScore(cycleCandidates), {})
  {
    var ranked := ByScore(cycleCandidates);
    var admittedBySymbol: map<string, Candidate> := map[];
    selected := [];
    assert ranked[0..] == ranked && admittedBySymbol.Keys == {};
    for i := 0 to |ranked|
      invariant selected + FirstPerKey(ranked[i..], SymbolKey, admittedBySymbol.Keys) == FirstPerKey(ranked, SymbolKey, {})
    {
      var candidate := ranked[i];
      var symbolKey := SymbolKey(candidate);
      ghost var taken := admittedBySymbol.Keys;
      assert ranked[i..][1..] == ranked[i + 1..];
      if symbolKey !in admittedBySymbol {
        admittedBySymbol := admittedBySymbol[symbolKey := candidate];
        selected := selected + [candidate];
        assert admittedBySymbol.Keys == taken + {symbolKey};
      }
    }
  }

  /** The symbol lock: candidates whose symbol is locked are dropped, the others lock theirs. */
  method LockSymbols(candidates: seq<Candidate>, locked: set<string>) returns (deduped: seq<Candidate>)
    ensures deduped == FirstPerSymbol(ByScore(candidates), locked)
  {
    var ranked := ByScore(candidates);
    var lockedSymbols := locked;
    deduped := [];
    for i := 0 to |ranked|
      invariant deduped + FirstPerKey(ranked[i..], SymbolKey, lockedSymbols) == FirstPerKey(ranked, SymbolKey, locked)
    {
      var candidate := ranked[i];
      var symbolKey := SymbolKey(candidate);
      assert ranked[i..][1..] == ranked[i + 1..];
      if symbolKey !in lockedSymbols {
        deduped := deduped + [candidate];
        lockedSymbols := lockedSymbols + {symbolKey};
      }
    }
  }

  // ---- What the walk guarantees --------------------------------------------------------------------------------

  ghost predicate DistinctKeys<T, K>(s: seq<T>, key: T -> K) {
    forall i, j | 0 <= i < j < |s| :: key(s[i]) != key(s[j])
  }

  ghost predicate OnePerSymbol(cs: seq<Candidate>) {
    DistinctKeys(cs, SymbolKey)
  }

  /** The walk only keeps members with free keys. */
  lemma {:induction false} WalkKeepsFree<T, K>(s: seq<T>, key: T -> K, taken: set<K>, x: T)
    requires x in FirstPerKey(s, key, taken)
    ensures x in s && key(x) !in taken
  {
    assert s == [s[0]] + s[1..];
    if key(s[0]) in taken {
      WalkKeepsFree(s[1..], key, taken, x);
    } else if x != s[0] {
      WalkKeepsFree(s[1..], key, taken + {key(s[0])}, x);
    }
  }

  /** Of the members with a free key the first one is kept. */
  lemma {:induction false} WalkKeepsFirst<T, K>(s: seq<T>, key: T -> K, taken: set<K>, k: nat)
    requires k < |s| && key(s[k]) !in taken
    requires forall i | 0 <= i < k :: key(s[i]) != key(s[k])
    ensures s[k] in FirstPerKey(s, key, taken)
  {
    if k > 0 {
      assert s[1..][k - 1] == s[k];
      assert forall i | 0 <= i < k - 1 :: s[1..][i] == s[i + 1];
      WalkKeepsFirst(s[1..], key, if key(s[0]) in taken then taken else taken + {key(s[0])}, k - 1);
    }
  }

  lemma {:induction false} WalkIsDistinct<T, K>(s: seq<T>, key: T -> K, taken: set<K>)
    ensures DistinctKeys(FirstPerKey(s, key, taken), key)
  {
    if s != [] {
      if key(s[0]) in taken {
        WalkIsDistinct(s[1..], key, taken);
      } else {
        var more := taken + {key(s[0])};
        var rest := FirstPerKey(s[1..], key, more);
        WalkIsDistinct(s[1..], key, more);
        forall j | 0 <= j < |rest|
          ensures key(rest[j]) != key(s[0])
        {
          WalkKeepsFree(s[1..], key, more, rest[j]);
        }
      }
    }
  }

  /** The first index of a key. */
  lemma {:induction false} FirstWithKey<T, K>(s: seq<T>, key: T -> K, n: nat) returns (k: nat)
    requires n < |s|
    ensures k <= n && key(s[k]) == key(s[n])
    ensures forall i | 0 <= i < k :: key(s[i]) != key(s[n])
  {
    k := 0;
    while key(s[k]) != key(s[n])
      invariant k <= n && forall i | 0 <= i < k :: key(s[i]) != key(s[n])
      decreases n - k
    {
      k := k + 1;
    }
  }

  /** The first member with a free key is kept. */
  lemma {:induction false} WalkCovers<T, K>(s: seq<T>, key: T -> K, taken: set<K>, x: T) returns (k: nat)
    requires x in s && key(x) !in taken
    ensures k < |s| && key(s[k]) == key(x) && s[k] in FirstPerKey(s, key, taken)
    ensures forall i | 0 <= i < k :: key(s[i]) != key(x)
  {
    var n :| 0 <= n < |s| && s[n] == x;
    k := FirstWithKey(s, key, n);
    WalkKeepsFirst(s, key, taken, k);
  }

  lemma {:induction false} KeptOnce<T, K>(s: seq<T>, key: T -> K, taken: set<K>, x: T, y: T)
    requires x in FirstPerKey(s, key, taken) && y in FirstPerKey(s, key, taken) && key(x) == key(y)
    ensures x == y
  {
    var r := FirstPerKey(s, key, taken);
    WalkIsDistinct(s, key, taken);
    var i :| 0 <= i < |r| && r[i] == x;
    var j :| 0 <= j < |r| && r[j] == y;
    assert i == j;
  }

  /** In a sorted list, what is kept for a key ranks at least as high as any other member with that key. */
  lemma {:induction false} WalkKeepsBest<T(!new), K>(s: seq<T>, le: (T, T) -> bool, key: T -> K, taken: set<K>, x: T, kept: T)
    requires TotalPreorder(le) && SortedBy(s, le)
    requires x in s && kept in FirstPerKey(s, key, taken) && key(x) == key(kept)
    ensures le(kept, x)
  {
    WalkKeepsFree(s, key, taken, kept);
    var k := WalkCovers(s, key, taken, x);
    KeptOnce(s, key, taken, s[k], kept);
    var n :| 0 <= n < |s| && s[n] == x;
    assert k <= n;
  }

  /** Admission keeps exactly one candidate for every symbol that has one, the best-scoring, and no other candidate. */
  lemma {:induction false} AdmissionIsBestPerSymbol(cs: seq<Candidate>)
    ensures OnePerSymbol(FirstPerSymbol(ByScore(cs), {}))
    ensures forall d | d in FirstPerSymbol(ByScore(cs), {}) ::
              d in cs && forall c | c in cs && SymbolKey(c) == SymbolKey(d) :: d.score >= c.score
    ensures forall c | c in cs :: exists d :: d in FirstPerSymbol(ByScore(cs), {}) && SymbolKey(d) == SymbolKey(c)
  {
    var ranked := ByScore(cs);
    SortSorts(cs, ScoresAtLeast);
    SameMembers(cs, ranked);
    WalkIsDistinct(ranked, SymbolKey, {});
    forall d | d in FirstPerSymbol(ranked, {})
      ensures d in cs && forall c | c in cs && SymbolKey(c) == SymbolKey(d) :: d.score >= c.score
    {
      WalkKeepsFree(ranked, SymbolKey, {}, d);
      forall c | c in cs && SymbolKey(c) == SymbolKey(d)
        ensures d.score >= c.score
      {
        WalkKeepsBest(ranked, ScoresAtLeast, SymbolKey, {}, c, d);
      }
    }
    forall c | c in cs
      ensures exists d :: d in FirstPerSymbol(ranked, {}) && SymbolKey(d) == SymbolKey(c)
    {
      var k := WalkCovers(ranked, SymbolKey, {}, c);
    }
  }

  lemma {:induction false} FirstOfThoseIsKept<T, K>(s: seq<T>, p: T -> bool, key: T -> K, taken: set<K>, k: nat)
    requires k < |s| && p(s[k]) && key(s[k]) !in taken
    requires forall i | 0 <= i < k :: key(s[i]) == key(s[k]) ==> !p(s[i])
    ensures s[k] in FirstPerKey(Filter(s, p), key, taken)
  {
    var kept := Filter(s, p);
    if k == 0 {
      assert kept == [s[0]] + Filter(s[1..], p);
    } else {
      assert s[1..][k - 1] == s[k];
      assert forall i | 0 <= i < k - 1 :: s[1..][i] == s[i + 1];
      if p(s[0]) {
        assert kept[0] == s[0] && kept[1..] == Filter(s[1..], p);
        FirstOfThoseIsKept(s[1..], p, key, if key(s[0]) in taken then taken else taken + {key(s[0])}, k - 1);
      } else {
        FirstOfThoseIsKept(s[1..], p, key, taken, k - 1);
      }
    }
  }

  lemma {:induction false} BestIsTied<T(!new), K>(s: seq<T>, le: (T, T) -> bool, key: T -> K, k: nat) returns (n: nat)
    requires TotalPreorder(le) && k < |s|
    requires forall i | 0 <= i < |s| && key(s[i]) == key(s[k]) :: le(s[k], s[i])
    ensures n < |s| && key(StableSort(s, le)[n]) == key(s[k])
    ensures forall i | 0 <= i < n :: key(StableSort(s, le)[i]) != key(s[k])
    ensures TiedWith(le, s[k])(StableSort(s, le)[n])
  {
    var ranked := StableSort(s, le);
    SortSorts(s, le);
    SameMembers(s, ranked);
    n := WalkCovers(ranked, key, {}, s[k]);
    WalkKeepsBest(ranked, le, key, {}, s[k], ranked[n]);
    assert ranked[n] in ranked;
    var i :| 0 <= i < |s| && s[i] == ranked[n];
  }

  lemma {:induction false} SameFirst<T, K>(s: seq<T>, t: seq<T>, p: T -> bool, key: T -> K, k: nat, n: nat)
    requires k < |s| && n < |t| && key(s[k]) == key(t[n]) && p(s[k]) && p(t[n]) && Filter(s, p) == Filter(t, p)
    requires forall i | 0 <= i < k :: key(s[i]) == key(s[k]) ==> !p(s[i])
    requires forall i | 0 <= i < n :: key(t[i]) != key(s[k])
    ensures s[k] == t[n] && t[n] in FirstPerKey(t, key, {})
  {
    FirstOfThoseIsKept(s, p, key, {}, k);
    FirstOfThoseIsKept(t, p, key, {}, n);
    KeptOnce(Filter(s, p), key, {}, s[k], t[n]);
    WalkKeepsFirst(t, key, {}, n);
  }

  /** Of the highest-ranking members with a key, the walk over the sorted list keeps the one that came first. */
  lemma {:induction false} SortedWalkKeepsEarliest<T(!new), K>(s: seq<T>, le: (T, T) -> bool, key: T -> K, k: nat)
    requires TotalPreorder(le) && k < |s|
    requires forall i | 0 <= i < |s| && key(s[i]) == key(s[k]) :: le(s[k], s[i])
    requires forall i | 0 <= i < k && key(s[i]) == key(s[k]) :: !le(s[i], s[k])
    ensures s[k] in FirstPerKey(StableSort(s, le), key, {})
  {
    var n := BestIsTied(s, le, key, k);
    SortIsStable(s, le, s[k]);
    SameFirst(s, StableSort(s, le), TiedWith(le, s[k]), key, k, n);
  }

  /** Among the best candidates of a symbol the one generated first is admitted. */
  lemma {:induction false} AdmissionPrefersEarlier(cs: seq<Candidate>, k: nat)
    requires k < |cs|
    requires forall i | 0 <= i < |cs| && SymbolKey(cs[i]) == SymbolKey(cs[k]) :: cs[i].score <= cs[k].score
    requires forall i | 0 <= i < k && SymbolKey(cs[i]) == SymbolKey(cs[k]) :: cs[i].score < cs[k].score
    ensures cs[k] in FirstPerSymbol(ByScore(cs), {})
  {
    SortedWalkKeepsEarliest(cs, ScoresAtLeast, SymbolKey, k);
  }
}
