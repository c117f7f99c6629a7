/** Receipts in which every swap also emits the transfers it pays out: the swap deltas against the token ledgers. */
module SettledSwaps {
  import opened Options
  import opened Text
  import opened NetFlow

  /** A swap of a pool, or any other log of the receipt. */
  datatype Leg = Swapped(pool: Address, swap: Log) | Other(log: Log)

  function Receiver(swap: Log): Address
    requires !swap.Raw?
  {
    if swap.V3Swap? then Lower(swap.recipient) else Lower(swap.to)
  }

  function Payment(token: Address, pool: Address, to: Address, amount: int): seq<Log>
    requires |pool| > 2 && |to| > 2
  {
    if amount > 0 then [TransferLog(token, pool, to, amount)] else []
  }

  /** The transfers that settle a swap: a negative V3 amount or a positive pair amount leaves the pool. */
  function Payments(pool: Address, swap: Log): seq<Log>
    requires !swap.Raw? && |pool| > 2 && |Receiver(swap)| > 2
  {
    var to := Receiver(swap);
    if swap.V3Swap? then Payment(swap.token0, pool, to, 0 - swap.amount0) + Payment(swap.token1, pool, to, 0 - swap.amount1)
    else Payment(swap.token0, pool, to, swap.amount0Out) + Payment(swap.token1, pool, to, swap.amount1Out)
  }

  /** A swap of a pool that is not ours; any other log is no swap and, where it is a transfer, does not pay us. */
  ghost predicate Fair(leg: Leg, ours: seq<Address>) {
    match leg
    case Swapped(pool, swap) => !swap.Raw? && IsAddress(pool) && pool !in ours && IsAddress(Receiver(swap))
    case Other(log) =>
      log.Raw? && (|log.topics| >= 3 && log.topics[0] == TRANSFER_TOPIC ==>
        log.data.Some? && !(TopicAddress(log.topics[2]) in ours && TopicAddress(log.topics[1]) !in ours))
  }

  ghost predicate AllFair(legs: seq<Leg>, ours: seq<Address>) { forall i :: 0 <= i < |legs| ==> Fair(legs[i], ours) }

  function LegLogs(leg: Leg): seq<Log>
    requires leg.Swapped? ==> !leg.swap.Raw? && |leg.pool| > 2 && |Receiver(leg.swap)| > 2
  {
    if leg.Swapped? then Payments(leg.pool, leg.swap) + [leg.swap] else [leg.log]
  }

  ghost function Emitted(legs: seq<Leg>, ours: seq<Address>): seq<Log>
    requires AllFair(legs, ours)
  {
    if legs == [] then [] else Emitted(legs[..|legs| - 1], ours) + LegLogs(legs[|legs| - 1])
  }

  // ---------- Sums over logs ----------

  /** What one log says we received of a token. */
  function LogInflow(log: Log, ours: seq<Address>, token: Address): int {
    if !IsTransferOf(log, token) || log.data.None? then 0
    else if TopicAddress(log.topics[2]) in ours && TopicAddress(log.topics[1]) !in ours then log.data.value else 0
  }

  function Excess(log: Log, ours: seq<Address>, token: Address): int {
    SwapPayout(log, ours, token) - LogInflow(log, ours, token)
  }

  function TotalExcess(logs: seq<Log>, ours: seq<Address>, token: Address): int {
    if logs == [] then 0 else Excess(logs[0], ours, token) + TotalExcess(logs[1..], ours, token)
  }

  lemma {:induction false} ExcessConcat(a: seq<Log>, b: seq<Log>, ours: seq<Address>, token: Address)
    ensures TotalExcess(a + b, ours, token) == TotalExcess(a, ours, token) + TotalExcess(b, ours, token)
  {
    if a == [] {
      assert a + b == b;
    } else {
      assert (a + b)[1..] == a[1..] + b;
      ExcessConcat(a[1..], b, ours, token);
    }
  }

  lemma ExcessOfOne(log: Log, ours: seq<Address>, token: Address)
    ensures TotalExcess([log], ours, token) == Excess(log, ours, token)
  {
  }

  /** The order of the logs does not matter. */
  lemma {:induction false} ExcessOfAny(a: seq<Log>, b: seq<Log>, ours: seq<Address>, token: Address)
    requires multiset(a) == multiset(b)
    ensures TotalExcess(a, ours, token) == TotalExcess(b, ours, token)
  {
    if a == [] {
      assert |b| == |multiset(b)| == |multiset(a)| == 0;
    } else {
      assert a[0] in multiset(b);
      var i :| 0 <= i < |b| && b[i] == a[0];
      RemoveAt(b, i);
      RemoveFirst(a);
      ExcessOfAny(a[1..], b[..i] + b[i + 1..], ours, token);
      ExcessWithout(b, i, ours, token);
    }
  }

  lemma ExcessWithout(s: seq<Log>, i: nat, ours: seq<Address>, token: Address)
    requires i < |s|
    ensures TotalExcess(s, ours, token) == Excess(s[i], ours, token) + TotalExcess(s[..i] + s[i + 1..], ours, token)
  {
    ExcessConcat(s[..i], s[i + 1..], ours, token);
    ExcessConcat(s[..i], s[i..], ours, token);
    assert s == s[..i] + s[i..] && s[i..][1..] == s[i + 1..];
  }

  lemma RemoveFirst(s: seq<Log>)
    requires s != []
    ensures multiset(s[1..]) == multiset(s) - multiset{s[0]}
  {
    assert s == [s[0]] + s[1..];
  }

  lemma RemoveAt(s: seq<Log>, i: nat)
    requires i < |s|
    ensures multiset(s[..i] + s[i + 1..]) == multiset(s) - multiset{s[i]}
  {
    assert s == s[..i] + [s[i]] + s[i + 1..];
  }

  /** On a receipt that parses, the total is the swap payouts less what the transfers brought in. */
  lemma {:induction false} ExcessIsDifference(logs: seq<Log>, ours: seq<Address>, token: Address)
    requires forall i :: 0 <= i < |logs| ==> IsTransferOf(logs[i], token) ==> logs[i].data.Some?
    ensures Transfers(logs, token).Some?
    ensures TotalExcess(logs, ours, token) == SwapPayouts(logs, ours, token) - Inflow(Transfers(logs, token).value, ours)
  {
    if logs != [] {
      var front, log := logs[..|logs| - 1], logs[|logs| - 1];
      ExcessIsDifference(front, ours, token);
      assert logs == front + [log];
      ExcessConcat(front, [log], ours, token);
      ExcessOfOne(log, ours, token);
      if IsTransferOf(log, token) {
        var ts := Transfers(front, token).value;
        var t := Transfer(TopicAddress(log.topics[1]), TopicAddress(log.topics[2]), log.data.value);
        assert (ts + [t])[..|ts|] == ts;
      }
    }
  }

  // ---------- A swap and its payments ----------

  lemma PaymentInflow(t: Address, pool: Address, to: Address, amount: int, ours: seq<Address>, token: Address)
    requires IsAddress(pool) && IsAddress(to) && pool !in ours
    ensures TotalExcess(Payment(t, pool, to, amount), ours, token) == if to in ours then 0 - Paid(amount, t, token) else 0
  {
    TopicRoundTrip(pool);
    TopicRoundTrip(to);
    if amount > 0 {
      ExcessOfOne(TransferLog(t, pool, to, amount), ours, token);
    }
  }

  /** A swap log says of each token what its payments bring us. */
  lemma LegBalances(leg: Leg, ours: seq<Address>, token: Address)
    requires Fair(leg, ours)
    ensures TotalExcess(LegLogs(leg), ours, token) == 0
  {
    if leg.Swapped? {
      var pool, swap, to := leg.pool, leg.swap, Receiver(leg.swap);
      var (a, b) := if swap.V3Swap? then (0 - swap.amount0, 0 - swap.amount1) else (swap.amount0Out, swap.amount1Out);
      PaymentInflow(swap.token0, pool, to, a, ours, token);
      PaymentInflow(swap.token1, pool, to, b, ours, token);
      ExcessConcat(Payment(swap.token0, pool, to, a), Payment(swap.token1, pool, to, b), ours, token);
      ExcessConcat(Payments(pool, swap), [swap], ours, token);
      ExcessOfOne(swap, ours, token);
    } else {
      ExcessOfOne(leg.log, ours, token);
    }
  }

  ghost predicate Parses(logs: seq<Log>) {
    forall log :: log in logs ==> log.Raw? && |log.topics| >= 3 && log.topics[0] == TRANSFER_TOPIC ==> log.data.Some?
  }

  lemma {:induction false} EmittedBalances(legs: seq<Leg>, ours: seq<Address>, token: Address)
    requires AllFair(legs, ours)
    ensures Parses(Emitted(legs, ours)) && TotalExcess(Emitted(legs, ours), ours, token) == 0
  {
    if legs != [] {
      var front, leg := legs[..|legs| - 1], legs[|legs| - 1];
      EmittedBalances(front, ours, token);
      LegBalances(leg, ours, token);
      LegParses(leg, ours);
      ExcessConcat(Emitted(front, ours), LegLogs(leg), ours, token);
    }
  }

  lemma LegParses(leg: Leg, ours: seq<Address>)
    requires Fair(leg, ours)
    ensures Parses(LegLogs(leg))
  {
  }

  // ---------- The receipt ----------

  /** A receipt whose logs, in any order, are fair swaps with their payments and logs that do not pay us. */
  ghost predicate Settled(logs: seq<Log>, legs: seq<Leg>, ours: seq<Address>) {
    AllFair(legs, ours) && multiset(logs) == multiset(Emitted(legs, ours))
  }

  /** On a settled receipt the swap payouts of every token are exactly what its transfers brought us. */
  lemma PayoutsAreInflow(logs: seq<Log>, legs: seq<Leg>, ours: seq<Address>, token: Address)
    requires Settled(logs, legs, ours)
    ensures Transfers(logs, token).Some?
    ensures SwapPayouts(logs, ours, token) == Inflow(Transfers(logs, token).value, ours)
  {
    EmittedBalances(legs, ours, token);
    ExcessOfAny(logs, Emitted(legs, ours), ours, token);
    forall i | 0 <= i < |logs| && IsTransferOf(logs[i], token) ensures logs[i].data.Some? {
      assert logs[i] in multiset(Emitted(legs, ours));
      assert logs[i] in Emitted(legs, ours);
    }
    ExcessIsDifference(logs, ours, token);
  }

  /**
   * What the engines report on a settled receipt: the gross inflow of the token, or the negated outflow when nothing
   * came in. It is the change of our balance on the ledger exactly when we did not both receive and pay the token.
   */
  lemma SettledDelta(logs: seq<Log>, legs: seq<Leg>, ours: seq<Address>, owners: seq<Address>, tokenOut: Address, l: Ledger)
    requires Settled(logs, legs, ours) && Distinct(owners) && SameMembers(ours, owners)
    ensures Transfers(logs, Lower(tokenOut)).Some?
    ensures var ts := Transfers(logs, Lower(tokenOut)).value;
            var delta := if Inflow(ts, ours) > 0 then Inflow(ts, ours) else 0 - Outflow(ts, ours);
            && ReceiptDelta(logs, ours, tokenOut) == Some(delta)
            && (delta == Holdings(SettleAll(l, ts), owners) - Holdings(l, owners)
                <==> Inflow(ts, ours) == 0 || Outflow(ts, ours) == 0)
  {
    PayoutsAreInflow(logs, legs, ours, Lower(tokenOut));
    var ts := Transfers(logs, Lower(tokenOut)).value;
    InflowNotNegative(ts, ours);
    FlowIsInMinusOut(ts, ours);
    FlowIsLedgerChange(ts, ours, owners, l);
  }

  lemma {:induction false} InflowNotNegative(ts: seq<Transfer>, ours: seq<Address>)
    ensures Inflow(ts, ours) >= 0
  {
    if ts != [] {
      InflowNotNegative(ts[..|ts| - 1], ours);
    }
  }
}
