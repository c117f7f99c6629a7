/**
 * The receipt fold shared by the backrun and arbitrage engines: the net token amount gained by
 * our own addresses, read from swap logs or, failing that, from ERC-20 Transfer logs.
 */
module NetFlow {
  import opened Text
  import opened Options

  const TRANSFER_TOPIC := "0xddf252ad1be2c89b69c2b068fc378daa952ba7f163c4a11628f55a4df523b3ef"

  /**
   * A receipt log: one of the two decoded swap events, or any other log. `data` is the parsed word of a
   * raw log; `None` stands for data on which the BigInt conversion throws.
   */
  datatype Log =
    | V3Swap(recipient: Address, token0: Address, token1: Address, amount0: int, amount1: int)
    | PairSwap(to: Address, token0: Address, token1: Address, amount0Out: nat, amount1Out: nat)
    | Raw(address: Address, topics: seq<string>, data: Option<nat>)

  /** The address in an indexed topic: the last twenty bytes, lower case. */
  function TopicAddress(topic: string): Address {
    "0x" + Lower(if |topic| <= 26 then "" else topic[26..])
  }

  datatype Transfer = Transfer(from: Address, to: Address, value: nat)

  predicate IsTransferOf(log: Log, token: Address) {
    log.Raw? && Lower(log.address) == token && |log.topics| > 0 && log.topics[0] == TRANSFER_TOPIC
    && |log.topics| >= 3
  }

  /** The Transfer logs of one token, or `None` when one of them cannot be parsed. */
  function Transfers(logs: seq<Log>, token: Address): Option<seq<Transfer>> {
    if logs == [] then Some([])
    else
      var log := logs[|logs| - 1];
      match Transfers(logs[..|logs| - 1], token)
      case None => None
      case Some(ts) =>
        if !IsTransferOf(log, token) then Some(ts)
        else if log.data.None? then None
        else Some(ts + [Transfer(TopicAddress(log.topics[1]), TopicAddress(log.topics[2]), log.data.value)])
  }

  function Paid(amount: int, token: Address, wanted: Address): int {
    if amount > 0 && Lower(token) == wanted then amount else 0
  }

  /** What one swap log adds to the delta of `wanted`: amounts paid out to us, never amounts paid in. */
  function SwapPayout(log: Log, ours: seq<Address>, wanted: Address): int {
    match log
    case V3Swap(recipient, t0, t1, a0, a1) =>
      if Lower(recipient) in ours then Paid(-a0, t0, wanted) + Paid(-a1, t1, wanted) else 0
    case PairSwap(to, t0, t1, o0, o1) =>
      if Lower(to) in ours then Paid(o0, t0, wanted) + Paid(o1, t1, wanted) else 0
    case Raw(_, _, _) => 0
  }

  function SwapPayouts(logs: seq<Log>, ours: seq<Address>, wanted: Address): int {
    if logs == [] then 0
    else SwapPayouts(logs[..|logs| - 1], ours, wanted) + SwapPayout(logs[|logs| - 1], ours, wanted)
  }

  function Flow(t: Transfer, ours: seq<Address>): int {
    (if t.to in ours && t.from !in ours then t.value else 0)
    - (if t.from in ours && t.to !in ours then t.value else 0)
  }

  function TransferFlow(ts: seq<Transfer>, ours: seq<Address>): int {
    if ts == [] then 0 else TransferFlow(ts[..|ts| - 1], ours) + Flow(ts[|ts| - 1], ours)
  }

  /** The delta the engines use: swap payouts when there are any, otherwise the Transfer fold. */
  function ReceiptDelta(logs: seq<Log>, ours: seq<Address>, tokenOut: Address): Option<int> {
    var payouts := SwapPayouts(logs, ours, Lower(tokenOut));
    if payouts != 0 then Some(payouts)
    else
      match Transfers(logs, Lower(tokenOut))
      case None => None
      case Some(ts) => Some(TransferFlow(ts, ours))
  }

  // ---------- The fold as the engines run it ----------

  function Get(deltas: map<Address, int>, key: Address): int {
    if key in deltas then deltas[key] else 0
  }

  function AddDelta(deltas: map<Address, int>, token: Address, amount: int): (r: map<Address, int>)
    ensures forall k :: Get(r, k) == Get(deltas, k) + (if k == Lower(token) then amount else 0)
  {
    deltas[Lower(token) := Get(deltas, Lower(token)) + amount]
  }

  method FoldSwaps(logs: seq<Log>, ours: seq<Address>) returns (tokenDeltas: map<Address, int>)
    ensures forall k :: Get(tokenDeltas, k) == SwapPayouts(logs, ours, k)
  {
    tokenDeltas := map[];
    for i := 0 to |logs|
      invariant forall k :: Get(tokenDeltas, k) == SwapPayouts(logs[..i], ours, k)
    {
      var log := logs[i];
      assert logs[..i + 1][..i] == logs[..i];
      match log {
        case V3Swap(recipient, t0, t1, amount0, amount1) =>
          if Lower(recipient) in ours {
            LowerTwice(t0);
            LowerTwice(t1);
            if amount0 < 0 { tokenDeltas := AddDelta(tokenDeltas, Lower(t0), -amount0); }
            if amount1 < 0 { tokenDeltas := AddDelta(tokenDeltas, Lower(t1), -amount1); }
          }
        case PairSwap(to, t0, t1, amount0Out, amount1Out) =>
          if Lower(to) in ours {
            LowerTwice(t0);
            LowerTwice(t1);
            if amount0Out > 0 { tokenDeltas := AddDelta(tokenDeltas, Lower(t0), amount0Out); }
            if amount1Out > 0 { tokenDeltas := AddDelta(tokenDeltas, Lower(t1), amount1Out); }
          }
        case Raw(_, _, _) =>
      }
    }
    assert logs[..|logs|] == logs;
  }

  method FoldReceipt(logs: seq<Log>, ours: seq<Address>, tokenOut: Address) returns (delta: Option<int>)
    ensures delta == ReceiptDelta(logs, ours, tokenOut)
  {
    var tokenOutAddr := Lower(tokenOut);
    LowerTwice(tokenOut);
    var tokenDeltas := FoldSwaps(logs, ours);
    if Get(tokenDeltas, tokenOutAddr) == 0 {
      for i := 0 to |logs|
        invariant Transfers(logs[..i], tokenOutAddr).Some?
        invariant Get(tokenDeltas, tokenOutAddr) == TransferFlow(Transfers(logs[..i], tokenOutAddr).value, ours)
      {
        var log := logs[i];
        assert logs[..i + 1][..i] == logs[..i];
        if IsTransferOf(log, tokenOutAddr) {
          if log.data.None? {
            TransfersStayBad(logs, tokenOutAddr, i + 1);
            return None;
          }
          var from, to := TopicAddress(log.topics[1]), TopicAddress(log.topics[2]);
          var value: int := log.data.value;
          ghost var ts := Transfers(logs[..i], tokenOutAddr).value;
          assert (ts + [Transfer(from, to, value)])[..|ts|] == ts;
          if to in ours && from !in ours {
            tokenDeltas := AddDelta(tokenDeltas, tokenOutAddr, value);
          }
          if from in ours && to !in ours {
            tokenDeltas := AddDelta(tokenDeltas, tokenOutAddr, -value);
          }
        }
      }
      assert logs[..|logs|] == logs;
    }
    delta := Some(Get(tokenDeltas, tokenOutAddr));
  }

  lemma {:induction false} TransfersStayBad(logs: seq<Log>, token: Address, i: nat)
    requires i <= |logs| && Transfers(logs[..i], token).None?
    ensures Transfers(logs, token).None?
    decreases |logs|
  {
    if i < |logs| {
      var front := logs[..|logs| - 1];
      assert front[..i] == logs[..i];
      TransfersStayBad(front, token, i);
    } else {
      assert logs[..i] == logs;
    }
  }

  // ---------- The ledger ----------

  /** Token balances; an address without an entry holds zero. */
  type Ledger = map<Address, int>

  function Balance(l: Ledger, a: Address): int {
    if a in l then l[a] else 0
  }

  function Settle(l: Ledger, t: Transfer): Ledger {
    var debited := l[t.from := Balance(l, t.from) - t.value];
    debited[t.to := Balance(debited, t.to) + t.value]
  }

  function SettleAll(l: Ledger, ts: seq<Transfer>): Ledger {
    if ts == [] then l else Settle(SettleAll(l, ts[..|ts| - 1]), ts[|ts| - 1])
  }

  /** The combined balance of distinct holders. */
  function Holdings(l: Ledger, owners: seq<Address>): int {
    if owners == [] then 0 else Balance(l, owners[0]) + Holdings(l, owners[1..])
  }

  ghost predicate Distinct(owners: seq<Address>) {
    forall i, j :: 0 <= i < j < |owners| ==> owners[i] != owners[j]
  }

  lemma {:induction false} HoldingsAfterUpdate(l: Ledger, owners: seq<Address>, a: Address, b: int)
    requires Distinct(owners)
    ensures Holdings(l[a := b], owners) == Holdings(l, owners) + (if a in owners then b - Balance(l, a) else 0)
  {
    if owners != [] {
      HoldingsAfterUpdate(l, owners[1..], a, b);
      assert owners == [owners[0]] + owners[1..];
      assert owners[0] !in owners[1..];
    }
  }

  lemma SettleChangesHoldings(l: Ledger, owners: seq<Address>, t: Transfer)
    requires Distinct(owners)
    ensures Holdings(Settle(l, t), owners) == Holdings(l, owners) + Flow(t, owners)
  {
    var debited := l[t.from := Balance(l, t.from) - t.value];
    HoldingsAfterUpdate(l, owners, t.from, Balance(l, t.from) - t.value);
    HoldingsAfterUpdate(debited, owners, t.to, Balance(debited, t.to) + t.value);
  }

  ghost predicate SameMembers(ours: seq<Address>, owners: seq<Address>) {
    forall a :: a in ours <==> a in owners
  }

  /** The Transfer fold is the change of the combined balance on a ledger that settles those transfers. */
  lemma {:induction false} FlowIsLedgerChange(ts: seq<Transfer>, ours: seq<Address>, owners: seq<Address>, l: Ledger)
    requires Distinct(owners) && SameMembers(ours, owners)
    ensures TransferFlow(ts, ours) == Holdings(SettleAll(l, ts), owners) - Holdings(l, owners)
  {
    if ts != [] {
      var front := ts[..|ts| - 1];
      FlowIsLedgerChange(front, ours, owners, l);
      SettleChangesHoldings(SettleAll(l, front), owners, ts[|ts| - 1]);
    }
  }

  function Outflow(ts: seq<Transfer>, ours: seq<Address>): int {
    if ts == [] then 0
    else Outflow(ts[..|ts| - 1], ours)
         + (var t := ts[|ts| - 1]; if t.from in ours && t.to !in ours then t.value else 0)
  }

  function Inflow(ts: seq<Transfer>, ours: seq<Address>): int {
    if ts == [] then 0
    else Inflow(ts[..|ts| - 1], ours)
         + (var t := ts[|ts| - 1]; if t.to in ours && t.from !in ours then t.value else 0)
  }

  lemma {:induction false} FlowIsInMinusOut(ts: seq<Transfer>, ours: seq<Address>)
    ensures TransferFlow(ts, ours) == Inflow(ts, ours) - Outflow(ts, ours)
    ensures Outflow(ts, ours) >= 0
  {
    if ts != [] {
      FlowIsInMinusOut(ts[..|ts| - 1], ours);
    }
  }

  /**
   * What the engines report against the ledger. Without swap payouts it is the ledger change. With them it is the
   * payouts, and the ledger change exactly when the payouts together with what we paid in make up what we received.
   */
  lemma ReceiptDeltaAgainstLedger(logs: seq<Log>, ours: seq<Address>, owners: seq<Address>, tokenOut: Address, l: Ledger)
    requires Distinct(owners) && SameMembers(ours, owners)
    requires Transfers(logs, Lower(tokenOut)).Some?
    ensures var ts := Transfers(logs, Lower(tokenOut)).value;
            var change := Holdings(SettleAll(l, ts), owners) - Holdings(l, owners);
            var payouts := SwapPayouts(logs, ours, Lower(tokenOut));
            var r := ReceiptDelta(logs, ours, tokenOut);
            && r.Some?
            && (payouts == 0 ==> r.value == change)
            && (payouts != 0 ==>
                  && r.value == payouts
                  && (r.value == change <==> payouts + Outflow(ts, ours) == Inflow(ts, ours)))
  {
    var ts := Transfers(logs, Lower(tokenOut)).value;
    FlowIsLedgerChange(ts, ours, owners, l);
    FlowIsInMinusOut(ts, ours);
  }

  /** The left padding of an address in a topic. */
  const PADDING := "0x000000000000000000000000"

  function TransferLog(token: Address, from: Address, to: Address, value: nat): Log
    requires |from| > 2 && |to| > 2
  {
    Raw(token, [TRANSFER_TOPIC, PADDING + from[2..], PADDING + to[2..]], Some(value))
  }

  /** A prefixed, lower-case address. */
  ghost predicate IsAddress(a: Address) { |a| > 2 && a[..2] == "0x" && Lower(a) == a }

  lemma TopicRoundTrip(a: Address)
    requires IsAddress(a)
    ensures TopicAddress(PADDING + a[2..]) == a
  {
    assert |PADDING| == 26;
    assert (PADDING + a[2..])[26..] == a[2..];
    assert Lower(a[2..]) == Lower(a)[2..];
    assert a == a[..2] + a[2..];
  }

  lemma TransferLogParses(logs: seq<Log>, token: Address, from: Address, to: Address, value: nat, ts: seq<Transfer>)
    requires IsAddress(from) && IsAddress(to)
    requires Lower(token) == token && Transfers(logs, token) == Some(ts)
    ensures Transfers(logs + [TransferLog(token, from, to, value)], token) == Some(ts + [Transfer(from, to, value)])
  {
    TopicRoundTrip(from);
    TopicRoundTrip(to);
    assert (logs + [TransferLog(token, from, to, value)])[..|logs|] == logs;
  }

  lemma PaymentsParse(us: Address, pool: Address, token: Address)
    requires IsAddress(us) && IsAddress(pool) && Lower(token) == token
    ensures Transfers([TransferLog(token, us, pool, 100), TransferLog(token, pool, us, 103)], token)
            == Some([Transfer(us, pool, 100), Transfer(pool, us, 103)])
  {
    var paid, got := TransferLog(token, us, pool, 100), TransferLog(token, pool, us, 103);
    TransferLogParses([], token, us, pool, 100, []);
    assert [] + [paid] == [paid];
    assert [] + [Transfer(us, pool, 100)] == [Transfer(us, pool, 100)];
    TransferLogParses([paid], token, pool, us, 103, [Transfer(us, pool, 100)]);
    assert [paid] + [got] == [paid, got];
    assert [Transfer(us, pool, 100)] + [Transfer(pool, us, 103)] == [Transfer(us, pool, 100), Transfer(pool, us, 103)];
  }

  lemma SwapIsNoTransfer(logs: seq<Log>, swap: Log, ours: seq<Address>, token: Address)
    requires !swap.Raw?
    ensures Transfers(logs + [swap], token) == Transfers(logs, token)
    ensures SwapPayouts(logs + [swap], ours, token) == SwapPayouts(logs, ours, token) + SwapPayout(swap, ours, token)
  {
    assert (logs + [swap])[..|logs|] == logs;
  }

  lemma {:induction false} RawPaysNothing(logs: seq<Log>, ours: seq<Address>, token: Address)
    requires forall i :: 0 <= i < |logs| ==> logs[i].Raw?
    ensures SwapPayouts(logs, ours, token) == 0
  {
    if logs != [] {
      RawPaysNothing(logs[..|logs| - 1], ours, token);
    }
  }

  /** One receipt: we pay 100 of a token to one pool and a swap pays 103 of it back. 103 is reported, the ledger says 3. */
  lemma GrossNotNetExample(us: Address, pool: Address, token: Address, other: Address, l: Ledger)
    requires IsAddress(us) && IsAddress(pool) && us != pool && Lower(token) == token
    ensures var logs := [TransferLog(token, us, pool, 100), TransferLog(token, pool, us, 103)]
                        + [V3Swap(us, token, other, -103, 99)];
            && Transfers(logs, token) == Some([Transfer(us, pool, 100), Transfer(pool, us, 103)])
            && ReceiptDelta(logs, [us], token) == Some(103)
            && Holdings(SettleAll(l, Transfers(logs, token).value), [us]) - Holdings(l, [us]) == 3
  {
    var payments := [TransferLog(token, us, pool, 100), TransferLog(token, pool, us, 103)];
    var swap := V3Swap(us, token, other, -103, 99);
    PaymentsParse(us, pool, token);
    SwapIsNoTransfer(payments, swap, [us], token);
    RawPaysNothing(payments, [us], token);
    NetOfPayments(us, pool, l);
  }

  lemma NetOfPayments(us: Address, pool: Address, l: Ledger)
    requires us != pool
    ensures Holdings(SettleAll(l, [Transfer(us, pool, 100), Transfer(pool, us, 103)]), [us]) - Holdings(l, [us]) == 3
  {
    var ts := [Transfer(us, pool, 100), Transfer(pool, us, 103)];
    assert ts[..1][..0] == [] && ts[..1] == [ts[0]];
    assert TransferFlow(ts[..1], [us]) == -100;
    FlowIsLedgerChange(ts, [us], [us], l);
  }
}
