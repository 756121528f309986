/** The idempotency key of a planned entry and what it identifies (v2/src/execution-core/idempotency.ts). */
module Idempotency {
  import opened ExecutionTypes

  const INITIAL_ENTRY: string := "initial_signal_entry"

  function PlatformName(p: Platform): string {
    match p
    case Binance => "Binance"
    case Bybit => "Bybit"
    case MT5 => "MT5"
    case Mock => "Mock"
  }

  function ActionName(a: Action): string {
    match a
    case OpenPosition => "OpenPosition"
    case MoveStopLoss => "MoveStopLoss"
    case MoveTakeProfit => "MoveTakeProfit"
    case Synchronize => "Synchronize"
    case PartialClose => "PartialClose"
    case StartTrailing => "StartTrailing"
    case RepairProtection => "RepairProtection"
    case SafeClose => "SafeClose"
  }

  function JoinBar(parts: seq<string>): string {
    if parts == [] then ""
    else if |parts| == 1 then parts[0]
    else parts[0] + "|" + JoinBar(parts[1..])
  }

  function BuildKey(
    signalId: string, customerId: string, executorId: string, accountId: string,
    adapterType: Platform, action: Action, purpose: string): string
  {
    JoinBar([signalId, customerId, executorId, accountId, PlatformName(adapterType), ActionName(action), purpose])
  }

  /** What one planned entry is for: the signal and the account that trades it. */
  datatype Entry = Entry(signalId: string, customerId: string, executorId: string, accountId: string, adapterType: Platform)

  function EntryKey(e: Entry): string {
    BuildKey(e.signalId, e.customerId, e.executorId, e.accountId, e.adapterType, OpenPosition, INITIAL_ENTRY)
  }

  predicate BarFree(s: string) {
    '|' !in s
  }

  predicate Clean(e: Entry) {
    BarFree(e.signalId) && BarFree(e.customerId) && BarFree(e.executorId) && BarFree(e.accountId)
  }

  /** The inverse of joining: cut at every bar. */
  function SplitBar(s: string): (r: seq<string>)
    ensures |r| >= 1
  {
    if s == "" then [""]
    else if s[0] == '|' then [""] + SplitBar(s[1..])
    else
      var rest := SplitBar(s[1..]);
      [[s[0]] + rest[0]] + rest[1..]
  }

  lemma {:induction false} SplitOfJoinedPair(x: string, y: string)
    ensures SplitBar(x + "|" + y) == SplitBar(x) + SplitBar(y)
  {
    var whole := x + "|" + y;
    if x == "" {
      assert whole[1..] == y;
    } else {
      assert whole[1..] == x[1..] + "|" + y;
      SplitOfJoinedPair(x[1..], y);
    }
  }

  lemma {:induction false} SplitIsWholeIffBarFree(s: string)
    ensures |SplitBar(s)| == 1 <==> BarFree(s)
    ensures BarFree(s) ==> SplitBar(s) == [s]
  {
    if s != "" {
      SplitIsWholeIffBarFree(s[1..]);
      assert s == [s[0]] + s[1..];
    }
  }

  /** Cutting a joined list returns the pieces of its parts, in order. */
  function SplitAll(parts: seq<string>): seq<string> {
    if parts == [] then [] else SplitBar(parts[0]) + SplitAll(parts[1..])
  }

  lemma {:induction false} SplitOfJoin(parts: seq<string>)
    requires |parts| >= 1
    ensures SplitBar(JoinBar(parts)) == SplitAll(parts)
  {
    if |parts| == 1 {
      assert parts[1..] == [];
    } else {
      SplitOfJoin(parts[1..]);
      SplitOfJoinedPair(parts[0], JoinBar(parts[1..]));
    }
  }

  /** Every part yields at least one piece; if the count is exact, every part is bar-free and is its own piece. */
  lemma {:induction false} SplitAllCount(parts: seq<string>)
    ensures |SplitAll(parts)| >= |parts|
    ensures |SplitAll(parts)| == |parts| <==> forall p | p in parts :: BarFree(p)
    ensures |SplitAll(parts)| == |parts| ==> SplitAll(parts) == parts
  {
    if parts != [] {
      SplitAllCount(parts[1..]);
      SplitIsWholeIffBarFree(parts[0]);
      assert parts == [parts[0]] + parts[1..];
    }
  }

  /** Joining is undone by cutting exactly when no part holds a bar. */
  lemma SplitInvertsJoin(parts: seq<string>)
    requires |parts| >= 1
    ensures SplitBar(JoinBar(parts)) == parts <==> forall p | p in parts :: BarFree(p)
  {
    SplitOfJoin(parts);
    SplitAllCount(parts);
  }

  function PartsOf(e: Entry): seq<string> {
    [e.signalId, e.customerId, e.executorId, e.accountId, PlatformName(e.adapterType), ActionName(OpenPosition), INITIAL_ENTRY]
  }

  lemma PartsCleanIff(e: Entry)
    ensures Clean(e) <==> forall p | p in PartsOf(e) :: BarFree(p)
  {
    var ps := PartsOf(e);
    assert ps[0] in ps && ps[1] in ps && ps[2] in ps && ps[3] in ps;
  }

  lemma KeyOfCleanEntry(e: Entry, g: Entry)
    requires Clean(e) && EntryKey(e) == EntryKey(g)
    ensures e == g
  {
    PartsCleanIff(e);
    SplitOfJoin(PartsOf(e));
    SplitOfJoin(PartsOf(g));
    SplitAllCount(PartsOf(e));
    SplitAllCount(PartsOf(g));
    var ps, qs := PartsOf(e), PartsOf(g);
    assert ps == qs;
    assert ps[0] == qs[0] && ps[1] == qs[1] && ps[2] == qs[2] && ps[3] == qs[3] && ps[4] == qs[4];
  }

  lemma JoinStep(x: string, rest: seq<string>)
    requires rest != []
    ensures JoinBar([x] + rest) == x + "|" + JoinBar(rest)
  {
    assert ([x] + rest)[1..] == rest;
  }

  /** The key, one field at a time, with everything after the account left folded. */
  lemma KeyLayout(e: Entry)
    ensures var tail := JoinBar([PlatformName(e.adapterType), ActionName(OpenPosition), INITIAL_ENTRY]);
            EntryKey(e) == e.signalId + "|" + (e.customerId + "|" + (e.executorId + "|" + (e.accountId + "|" + tail)))
  {
    var tail := [PlatformName(e.adapterType), ActionName(OpenPosition), INITIAL_ENTRY];
    JoinStep(e.accountId, tail);
    JoinStep(e.executorId, [e.accountId] + tail);
    JoinStep(e.customerId, [e.executorId] + ([e.accountId] + tail));
    JoinStep(e.signalId, [e.customerId] + ([e.executorId] + ([e.accountId] + tail)));
    assert PartsOf(e) == [e.signalId] + ([e.customerId] + ([e.executorId] + ([e.accountId] + tail)));
  }

  lemma KeyTail(p: Platform)
    ensures JoinBar([PlatformName(p), ActionName(OpenPosition), INITIAL_ENTRY]) == PlatformName(p) + "|" + "OpenPosition|initial_signal_entry"
  {
    JoinStep(PlatformName(p), [ActionName(OpenPosition), INITIAL_ENTRY]);
    JoinStep(ActionName(OpenPosition), [INITIAL_ENTRY]);
    assert [PlatformName(p)] + [ActionName(OpenPosition), INITIAL_ENTRY] == [PlatformName(p), ActionName(OpenPosition), INITIAL_ENTRY];
    assert [ActionName(OpenPosition)] + [INITIAL_ENTRY] == [ActionName(OpenPosition), INITIAL_ENTRY];
    assert JoinBar([INITIAL_ENTRY]) == "initial_signal_entry";
  }

  /** The text of a key. */
  lemma KeyText(e: Entry, tail: string)
    requires tail == PlatformName(e.adapterType) + "|" + "OpenPosition|initial_signal_entry"
    ensures EntryKey(e) == e.signalId + "|" + (e.customerId + "|" + (e.executorId + "|" + (e.accountId + "|" + tail)))
  {
    KeyLayout(e);
    KeyTail(e.adapterType);
  }

  lemma ShiftRight(x: string, k: nat, y: string, rest: string)
    requires k < |x| && x == x[..k] + "|" + x[k + 1..]
    ensures x + "|" + (y + "|" + rest) == x[..k] + "|" + ((x[k + 1..] + "|" + y) + "|" + rest)
  {
  }

  lemma ShiftLeft(x: string, y: string, k: nat, rest: string)
    requires k < |y| && y == y[..k] + "|" + y[k + 1..]
    ensures x + "|" + (y + "|" + rest) == (x + "|" + y[..k]) + "|" + (y[k + 1..] + "|" + rest)
  {
  }

  lemma BarPosition(s: string) returns (k: nat)
    requires !BarFree(s)
    ensures k < |s| && s == s[..k] + "|" + s[k + 1..]
  {
    k :| 0 <= k < |s| && s[k] == '|';
  }

  /** An entry whose fields hold a bar shares its key with a different entry: move the bar to the neighbouring field. */
  lemma UncleanEntryCollides(e: Entry) returns (g: Entry)
    requires !Clean(e)
    ensures g != e && EntryKey(g) == EntryKey(e)
  {
    var tail := JoinBar([PlatformName(e.adapterType), ActionName(OpenPosition), INITIAL_ENTRY]);
    var fromAccount := e.accountId + "|" + tail;
    var fromExecutor := e.executorId + "|" + fromAccount;
    if !BarFree(e.signalId) {
      var k := BarPosition(e.signalId);
      g := e.(signalId := e.signalId[..k], customerId := e.signalId[k + 1..] + "|" + e.customerId);
      ShiftRight(e.signalId, k, e.customerId, fromExecutor);
    } else if !BarFree(e.customerId) {
      var k := BarPosition(e.customerId);
      g := e.(customerId := e.customerId[..k], executorId := e.customerId[k + 1..] + "|" + e.executorId);
      ShiftRight(e.customerId, k, e.executorId, fromAccount);
    } else if !BarFree(e.executorId) {
      var k := BarPosition(e.executorId);
      g := e.(executorId := e.executorId[..k], accountId := e.executorId[k + 1..] + "|" + e.accountId);
      ShiftRight(e.executorId, k, e.accountId, tail);
    } else {
      var k := BarPosition(e.accountId);
      g := e.(executorId := e.executorId + "|" + e.accountId[..k], accountId := e.accountId[k + 1..]);
      ShiftLeft(e.executorId, e.accountId, k, tail);
    }
    KeyLayout(e);
    KeyLayout(g);
  }

  /** A key names exactly one entry if and only if none of that entry's four identifiers holds a bar. */
  lemma KeyIdentifiesIffClean(e: Entry)
    ensures (forall g :: EntryKey(g) == EntryKey(e) ==> g == e) <==> Clean(e)
  {
    if Clean(e) {
      forall g | EntryKey(g) == EntryKey(e)
        ensures g == e
      {
        KeyOfCleanEntry(e, g);
      }
    } else {
      var g := UncleanEntryCollides(e);
    }
  }
}
