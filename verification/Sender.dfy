/** The nonce manager and the sender of the faucet account, and what a whole run of Send calls
    does to that account's nonces. */
module Sender {
  import opened Domain
  import opened Erc20

  const NONCE_LIMIT: nat := 0x1_0000_0000_0000_0000

  /** uint64 increment. */
  function Inc(n: nat): nat { (n + 1) % NONCE_LIMIT }

  /** The j-th nonce counted up from a seed. */
  function Nth(seed: nat, j: nat): nat { (seed + j) % NONCE_LIMIT }

  // ---- What happened to each issued nonce ----

  datatype Fate = SignFailed | Refused | Accepted

  /** One nonce handed out, the node's answer when it came from a fetch, and its fate. */
  datatype Issue = Issue(nonce: nat, seed: Option<nat>, fate: Fate)

  /** A fetch happens exactly on the first issue and after each refused broadcast; every other
      issue is one more than the issue before it. */
  predicate Chained(log: seq<Issue>) {
    forall k :: 0 <= k < |log| ==> Linked(log, k)
  }

  predicate Linked(log: seq<Issue>, k: nat)
    requires k < |log|
  {
    && log[k].nonce < NONCE_LIMIT
    && (log[k].seed.Some? <==> k == 0 || log[k - 1].fate == Refused)
    && log[k].nonce == if log[k].seed.Some? then log[k].seed.value else Inc(log[k - 1].nonce)
  }

  lemma ChainedAppend(log: seq<Issue>, x: Issue)
    requires Chained(log) && Linked(log + [x], |log|)
    ensures Chained(log + [x])
  {
    forall k | 0 <= k < |log|
      ensures Linked(log + [x], k)
    {
      assert Linked(log, k);
    }
  }

  /** The state of the counter that a log leaves behind. */
  predicate Leaves(log: seq<Issue>, next: nat, seeded: bool) {
    && (seeded <==> log != [] && log[|log| - 1].fate != Refused)
    && (seeded ==> next == Inc(log[|log| - 1].nonce))
  }

  class NonceManager {
    var next: nat
    var seeded: bool

    constructor ()
      ensures !seeded && next == 0
    {
      next, seeded := 0, false;
    }

    /** `fetched` is what NonceAt would answer, None for an RPC error. */
    method Next(fetched: Option<nat>) returns (nonce: Option<nat>)
      modifies this
      ensures nonce == if old(seeded) then Some(old(next)) else fetched
      ensures seeded == nonce.Some?
      ensures next == if nonce.Some? then Inc(nonce.value) else old(next)
    {
      if !seeded {
        if fetched.None? {
          return None;
        }
        next := fetched.value;
        seeded := true;
      }
      nonce := Some(next);
      next := Inc(next);
    }

    method Reset()
      modifies this
      ensures !seeded && next == old(next)
    {
      seeded := false;
    }
  }

  // ---- Building a transaction ----

  const NATIVE := "native"
  const ERC20 := "erc20"
  const GAS_NATIVE: nat := 21_000
  const GAS_ERC20: nat := 100_000

  datatype Payment = Payment(address: Address, tokenType: string, tokenAddress: Address, amountWei: nat)

  datatype Tx = Tx(nonce: nat, to: Address, value: nat, gas: nat, gasPrice: nat, data: seq<byte>)

  predicate IsZero(a: Address) {
    forall i :: 0 <= i < 20 ==> a[i] == 0
  }

  function Floored(price: nat, floor: Option<nat>): nat {
    if floor.Some? && price < floor.value then floor.value else price
  }

  function TypeOf(p: Payment): string {
    if p.tokenType == "" then NATIVE else p.tokenType
  }

  /** The transaction a payment stands for. */
  function Built(p: Payment, nonce: nat, gasPrice: nat): Tx {
    if TypeOf(p) == ERC20 then Tx(nonce, p.tokenAddress, 0, GAS_ERC20, gasPrice, CallData(p.address, p.amountWei))
    else Tx(nonce, p.address, p.amountWei, GAS_NATIVE, gasPrice, [])
  }

  /** The native coin the balance guard asks for. */
  function Required(p: Payment, gasPrice: nat): nat {
    gasPrice * (if TypeOf(p) == ERC20 then GAS_ERC20 else GAS_NATIVE)
    + if TypeOf(p) == NATIVE then p.amountWei else 0
  }

  /** The most native coin a transaction can take from its sender. */
  function MaxCost(tx: Tx): nat {
    tx.gas * tx.gasPrice + tx.value
  }

  /** The node's answers during one call; None and false are errors. */
  datatype Node = Node(gasPrice: Option<nat>, balance: Option<nat>, fetched: Option<nat>, signs: bool, accepts: bool)

  predicate NodeValid(node: Node) {
    node.fetched.Some? ==> node.fetched.value < NONCE_LIMIT
  }

  /** The call gets past its checks and asks for a nonce. */
  predicate Passes(p: Payment, floor: Option<nat>, node: Node) {
    && node.gasPrice.Some? && node.balance.Some?
    && !(TypeOf(p) == ERC20 && IsZero(p.tokenAddress))
    && node.balance.value >= Required(p, Floored(node.gasPrice.value, floor))
  }

  function FateOf(node: Node): Fate {
    if !node.signs then SignFailed else if node.accepts then Accepted else Refused
  }

  /** The log after one call. */
  function Logged(log: seq<Issue>, p: Payment, floor: Option<nat>, node: Node): seq<Issue>
  {
    if !Passes(p, floor, node) then log
    else if log != [] && log[|log| - 1].fate != Refused then
      log + [Issue(Inc(log[|log| - 1].nonce), None, FateOf(node))]
    else if node.fetched.Some? then log + [Issue(node.fetched.value, node.fetched, FateOf(node))]
    else log
  }

  class EthSender {
    const nonces: NonceManager
    const minGasPrice: Option<nat>
    ghost var log: seq<Issue>

    ghost predicate Valid()
      reads this, nonces
    {
      Chained(log) && Leaves(log, nonces.next, nonces.seeded)
    }

    constructor (floor: Option<nat>)
      ensures Valid() && log == [] && minGasPrice == floor && fresh(nonces)
    {
      nonces := new NonceManager();
      minGasPrice := floor;
      log := [];
    }

    /** `wire` is the transaction handed to the node, None when the call returned before that. */
    method Send(p: Payment, node: Node) returns (ok: bool, wire: Option<Tx>)
      requires Valid() && NodeValid(node)
      modifies this, nonces
      ensures Valid() && log == Logged(old(log), p, minGasPrice, node)
      ensures wire.Some? <==> |log| > |old(log)| && node.signs
      ensures wire.Some? ==>
                wire.value == Built(p, log[|log| - 1].nonce, Floored(node.gasPrice.value, minGasPrice))
      ensures ok <==> wire.Some? && node.accepts
      ensures wire.Some? <==>
                && node.gasPrice.Some? && node.balance.Some? && node.signs && (old(nonces.seeded) || node.fetched.Some?)
                && !(p.tokenType == "erc20" && forall i :: 0 <= i < 20 ==> p.tokenAddress[i] == 0)
                && var price := if minGasPrice.Some? && minGasPrice.value > node.gasPrice.value then minGasPrice.value
                                else node.gasPrice.value;
                   node.balance.value >= (if p.tokenType == "erc20" then 100_000 else 21_000) * price
                                         + if p.tokenType in {"", "native"} then p.amountWei else 0
      ensures wire.Some? ==>
                && wire.value.nonce == (if old(nonces.seeded) then old(nonces.next) else node.fetched.value)
                && wire.value.gasPrice >= node.gasPrice.value
                && (minGasPrice.Some? ==> wire.value.gasPrice >= minGasPrice.value)
                && (wire.value.gasPrice == node.gasPrice.value || Some(wire.value.gasPrice) == minGasPrice)
      ensures wire.Some? && p.tokenType == "erc20" ==>
                && wire.value.to == p.tokenAddress && wire.value.value == 0 && wire.value.gas == 100_000
                && Decode(wire.value.data) == Some(Call([0xa9, 0x05, 0x9c, 0xbb], p.address, p.amountWei % Pow256(32)))
      ensures wire.Some? && p.tokenType != "erc20" ==>
                wire.value.to == p.address && wire.value.value == p.amountWei && wire.value.gas == 21_000 && wire.value.data == []
    {
      hide Chained, Built, Required, IsZero, Decode, Pow256;
      BuiltNonce(p);
      ok, wire := false, None;
      if node.gasPrice.None? {
        return;
      }
      var gasPrice := node.gasPrice.value;
      if minGasPrice.Some? && gasPrice < minGasPrice.value {
        gasPrice := minGasPrice.value;
      }
      var tx, required := Prepare(p, gasPrice);
      if tx.None? || node.balance.None? || node.balance.value < required {
        return;
      }
      var nonce := nonces.Next(node.fetched);
      if nonce.None? {
        return;
      }
      LoggedChained(log, p, minGasPrice, node);
      log := Logged(log, p, minGasPrice, node);
      if !node.signs {
        return;
      }
      wire := Some(tx.value.(nonce := nonce.value));
      if !node.accepts {
        nonces.Reset();
        return;
      }
      ok := true;
    }
  }

  lemma BuiltNonce(p: Payment)
    ensures forall n: nat, price: nat :: Built(p, n, price) == Built(p, 0, price).(nonce := n)
    ensures IsZero(p.tokenAddress) <==> forall i :: 0 <= i < 20 ==> p.tokenAddress[i] == 0
  {
  }

  /** The transaction of a payment but for its nonce, and the native coin it takes; None when an
      ERC-20 payment names no token contract. */
  method Prepare(p: Payment, gasPrice: nat) returns (tx: Option<Tx>, required: nat)
    ensures tx.None? <==> p.tokenType == "erc20" && IsZero(p.tokenAddress)
    ensures tx.Some? ==> tx.value == Built(p, 0, gasPrice) && required == Required(p, gasPrice) && tx.value.gasPrice == gasPrice
    ensures tx.Some? ==> required == (if p.tokenType == "erc20" then 100_000 else 21_000) * gasPrice
                                     + if p.tokenType in {"", "native"} then p.amountWei else 0
    ensures tx.Some? && p.tokenType == "erc20" ==>
              && tx.value.to == p.tokenAddress && tx.value.value == 0 && tx.value.gas == 100_000
              && Decode(tx.value.data) == Some(Call([0xa9, 0x05, 0x9c, 0xbb], p.address, p.amountWei % Pow256(32)))
    ensures tx.Some? && p.tokenType != "erc20" ==>
              tx.value.to == p.address && tx.value.value == p.amountWei && tx.value.gas == 21_000 && tx.value.data == []
  {
    hide CallData, Decode, Pow256, IsZero;
    CallDataRoundTrip(p.address, p.amountWei);
    var tokenType := if p.tokenType == "" then NATIVE else p.tokenType;
    var gas, to, value := GAS_NATIVE, p.address, p.amountWei;
    var data: seq<byte> := [];
    if tokenType == ERC20 {
      if IsZero(p.tokenAddress) {
        return None, 0;
      }
      gas, to, value := GAS_ERC20, p.tokenAddress, 0;
      var buffer := TransferData(p.address, Some(p.amountWei));
      data := buffer[..];
    }
    required := gasPrice * gas;
    if tokenType == NATIVE {
      required := required + p.amountWei;
    }
    tx := Some(Tx(0, to, value, gas, gasPrice, data));
  }

  /** Whenever the guard lets a payment through, the account can pay for it, whatever its balance:
      exactly when the token type is a known one or no value moves. */
  lemma GuardCoversCostExactly(p: Payment, nonce: nat, gasPrice: nat)
    ensures (forall balance: nat :: Covers(balance, p, nonce, gasPrice))
            <==> TypeOf(p) in {NATIVE, ERC20} || p.amountWei == 0
  {
    var required := Required(p, gasPrice);
    assert Covers(required, p, nonce, gasPrice) <==> required >= MaxCost(Built(p, nonce, gasPrice));
  }

  predicate Covers(balance: nat, p: Payment, nonce: nat, gasPrice: nat) {
    balance >= Required(p, gasPrice) ==> balance >= MaxCost(Built(p, nonce, gasPrice))
  }

  // ---- Whole runs ----

  datatype SendCall = SendCall(payment: Payment, node: Node)

  function LogOf(floor: Option<nat>, calls: seq<SendCall>): seq<Issue> {
    if calls == [] then []
    else
      var last := calls[|calls| - 1];
      Logged(LogOf(floor, calls[..|calls| - 1]), last.payment, floor, last.node)
  }

  predicate CallsValid(calls: seq<SendCall>) {
    forall k :: 0 <= k < |calls| ==> NodeValid(calls[k].node)
  }

  /** Every run of Send calls leaves a chained log. */
  lemma {:induction false} EveryRunIsChained(floor: Option<nat>, calls: seq<SendCall>)
    requires CallsValid(calls)
    ensures Chained(LogOf(floor, calls))
  {
    if calls != [] {
      EveryRunIsChained(floor, calls[..|calls| - 1]);
      var last := calls[|calls| - 1];
      LoggedChained(LogOf(floor, calls[..|calls| - 1]), last.payment, floor, last.node);
    }
  }

  lemma LoggedChained(log: seq<Issue>, p: Payment, floor: Option<nat>, node: Node)
    requires Chained(log) && NodeValid(node)
    ensures Chained(Logged(log, p, floor, node))
  {
    hide Passes;
    var log' := Logged(log, p, floor, node);
    if log' != log {
      ChainedAppend(log, log'[|log|]);
    }
  }

  /** Issues s..e all come from the fetch at s. */
  predicate Epoch(log: seq<Issue>, s: nat, e: nat) {
    && s < e <= |log| && log[s].seed.Some?
    && forall k :: s < k < e ==> log[k].seed.None?
  }

  /** The issues of one fetch are seed, seed + 1, ... and only the last of them can have been
      refused; the next issue after a refusal is a new fetch. */
  lemma {:induction false} OneFetchManyNonces(log: seq<Issue>, s: nat, e: nat, k: nat)
    requires Chained(log) && Epoch(log, s, e) && s <= k < e
    ensures log[k].nonce == Nth(log[s].seed.value, k - s)
    ensures log[k].fate == Refused ==> k == e - 1
    decreases k
  {
    assert Linked(log, k);
    assert k + 1 < e ==> Linked(log, k + 1);
    if k > s {
      OneFetchManyNonces(log, s, e, k - 1);
      AddModulo(log[s].seed.value + (k - 1 - s));
    }
    assert k + 1 < e ==> log[k + 1].seed.None?;
  }

  lemma AddModulo(n: nat)
    ensures (n % NONCE_LIMIT + 1) % NONCE_LIMIT == (n + 1) % NONCE_LIMIT
  {
  }

  /** The nonces that reached the node, in order. */
  function Broadcast(log: seq<Issue>): seq<nat> {
    if log == [] then []
    else
      var n := |log| - 1;
      Broadcast(log[..n]) + if log[n].fate == SignFailed then [] else [log[n].nonce]
  }

  /** A failed signature comes before some broadcast. */
  predicate HoleBefore(log: seq<Issue>) {
    exists i, j :: 0 <= i < j < |log| && log[i].fate == SignFailed && log[j].fate != SignFailed
  }

  predicate Interval(ns: seq<nat>, seed: nat) {
    forall j :: 0 <= j < |ns| ==> ns[j] == Nth(seed, j)
  }

  lemma {:induction false} BroadcastShorter(log: seq<Issue>)
    ensures |Broadcast(log)| <= |log|
    ensures |Broadcast(log)| == |log| <==> forall k :: 0 <= k < |log| ==> log[k].fate != SignFailed
  {
    if log != [] {
      BroadcastShorter(log[..|log| - 1]);
    }
  }

  predicate Numbered(log: seq<Issue>, seed: nat) {
    forall k :: 0 <= k < |log| ==> log[k].nonce == Nth(seed, k)
  }

  /** Within one fetch the broadcast nonces are a gap-free interval from the seed exactly when no
      failed signature precedes a broadcast: a failed signature burns its nonce. */
  lemma {:induction false} GapFreeExactly(log: seq<Issue>, seed: nat)
    requires Numbered(log, seed) && |log| < NONCE_LIMIT
    ensures Interval(Broadcast(log), seed) <==> !HoleBefore(log)
  {
    if log != [] {
      var n := |log| - 1;
      var init := log[..n];
      GapFreeExactly(init, seed);
      BroadcastShorter(init);
      assert HoleBefore(init) ==> HoleBefore(log);
      if log[n].fate != SignFailed {
        LastBroadcast(log, seed);
      } else {
        assert HoleBefore(log) ==> HoleBefore(init) by {
          if i, j :| 0 <= i < j < |log| && log[i].fate == SignFailed && log[j].fate != SignFailed {
            assert init[i] == log[i] && init[j] == log[j];
          }
        }
        assert Broadcast(log) == Broadcast(init);
      }
    }
  }

  lemma LastBroadcast(log: seq<Issue>, seed: nat)
    requires log != [] && Numbered(log, seed) && |log| < NONCE_LIMIT
    requires log[|log| - 1].fate != SignFailed
    ensures var init := log[..|log| - 1];
            Interval(Broadcast(log), seed) <==> Interval(Broadcast(init), seed) && |Broadcast(init)| == |init|
    ensures HoleBefore(log) <==> |Broadcast(log[..|log| - 1])| < |log| - 1
  {
    hide Nth, HoleBefore;
    var n := |log| - 1;
    var bs, ns := Broadcast(log[..n]), Broadcast(log);
    assert ns == bs + [log[n].nonce];
    BroadcastShorter(log[..n]);
    HoleMeansShorter(log);
    SameResidue(seed, |bs|, n);
    hide Broadcast;
    assert ns[|bs|] == log[n].nonce == Nth(seed, n);
    assert forall j :: 0 <= j < |bs| ==> ns[j] == bs[j];
  }

  lemma HoleMeansShorter(log: seq<Issue>)
    requires log != [] && log[|log| - 1].fate != SignFailed
    ensures HoleBefore(log) <==> |Broadcast(log[..|log| - 1])| < |log| - 1
  {
    var n := |log| - 1;
    var init := log[..n];
    BroadcastShorter(init);
    hide Broadcast;
    if |Broadcast(init)| < n {
      var i :| 0 <= i < n && init[i].fate == SignFailed;
      assert log[i].fate == SignFailed && log[n].fate != SignFailed;
    } else {
      assert forall i :: 0 <= i < n ==> log[i] == init[i];
    }
  }

  lemma SameResidue(seed: nat, a: nat, b: nat)
    requires a <= b < NONCE_LIMIT
    ensures Nth(seed, a) == Nth(seed, b) <==> a == b
  {
  }

  /** The issues of one fetch, on their own, are numbered from its seed. */
  lemma EpochIsNumbered(log: seq<Issue>, s: nat, e: nat)
    requires Chained(log) && Epoch(log, s, e)
    ensures Numbered(log[s..e], log[s].seed.value)
  {
    forall k | 0 <= k < e - s
      ensures log[s..e][k].nonce == Nth(log[s].seed.value, k)
    {
      OneFetchManyNonces(log, s, e, s + k);
    }
  }

  // ---- Distinct accepted nonces ----

  predicate AllAcceptedBelow(log: seq<Issue>, bound: nat) {
    forall i :: 0 <= i < |log| && log[i].fate == Accepted ==> log[i].nonce < bound
  }

  /** Each fetch answers above every nonce accepted so far. */
  predicate FreshSeeds(log: seq<Issue>) {
    forall k :: 0 <= k < |log| && log[k].seed.Some? ==> AllAcceptedBelow(log[..k], log[k].seed.value)
  }

  /** No issue wraps past 2^64. */
  predicate NoWrap(log: seq<Issue>) {
    forall k :: 0 <= k < |log| ==> log[k].nonce + 1 < NONCE_LIMIT
  }

  predicate AcceptedIncreasing(log: seq<Issue>) {
    forall i, j :: 0 <= i < j < |log| && log[i].fate == Accepted && log[j].fate == Accepted ==>
      log[i].nonce < log[j].nonce
  }

  lemma {:induction false} AcceptedBelowLast(log: seq<Issue>)
    requires Chained(log) && FreshSeeds(log) && NoWrap(log) && log != []
    ensures AllAcceptedBelow(log[..|log| - 1], log[|log| - 1].nonce)
  {
    var n := |log| - 1;
    var init := log[..n];
    assert Linked(log, n);
    if log[n].seed.None? {
      PrefixOk(log, n);
      AcceptedBelowLast(init);
      forall i | 0 <= i < n && log[i].fate == Accepted
        ensures log[i].nonce < log[n].nonce
      {
        assert i < n - 1 ==> init[..n - 1][i] == log[i];
      }
    } else {
      assert AllAcceptedBelow(log[..n], log[n].seed.value);
    }
  }

  lemma PrefixOk(log: seq<Issue>, n: nat)
    requires Chained(log) && FreshSeeds(log) && NoWrap(log) && n <= |log|
    ensures Chained(log[..n]) && FreshSeeds(log[..n]) && NoWrap(log[..n])
  {
    var init := log[..n];
    forall k | 0 <= k < n
      ensures Linked(init, k)
    {
      assert Linked(log, k);
    }
    forall k | 0 <= k < n && init[k].seed.Some?
      ensures AllAcceptedBelow(init[..k], init[k].seed.value)
    {
      assert init[..k] == log[..k];
    }
  }

  /** When each fetch answers above every nonce accepted before it, no nonce is accepted twice in
      the whole run: accepted nonces only grow. */
  lemma {:induction false} AcceptedNoncesGrow(log: seq<Issue>)
    requires Chained(log) && FreshSeeds(log) && NoWrap(log)
    ensures AcceptedIncreasing(log)
  {
    if log != [] {
      var n := |log| - 1;
      PrefixOk(log, n);
      AcceptedNoncesGrow(log[..n]);
      AcceptedBelowLast(log);
      forall i, j | 0 <= i < j < |log| && log[i].fate == Accepted && log[j].fate == Accepted
        ensures log[i].nonce < log[j].nonce
      {
        assert log[..n][i] == log[i];
        assert j < n ==> log[..n][j] == log[j];
      }
    }
  }

  /** The next issue will fetch. */
  predicate Unseeded(log: seq<Issue>) {
    log == [] || log[|log| - 1].fate == Refused
  }

  predicate Goes(floor: Option<nat>, c: SendCall, fate: Fate) {
    Passes(c.payment, floor, c.node) && FateOf(c.node) == fate
  }

  /** Calls that all get through, the first of which fetches `seed`. */
  predicate Accepts(floor: Option<nat>, more: seq<SendCall>, seed: nat) {
    && (forall k :: 0 <= k < |more| ==> Goes(floor, more[k], Accepted))
    && (more != [] ==> more[0].node.fetched == Some(seed))
  }

  /** What n accepted calls after a fetch of `seed` add to the log. */
  function Resumed(seed: nat, n: nat): seq<Issue> {
    seq(n, (k: nat) => Issue(Nth(seed, k), if k == 0 then Some(seed) else None, Accepted))
  }

  /** Accepted calls after a fetch extend the log by seed, seed + 1, ... modulo 2^64. */
  lemma {:induction false} AcceptedCallsResume(floor: Option<nat>, calls: seq<SendCall>, more: seq<SendCall>, seed: nat)
    requires Unseeded(LogOf(floor, calls)) && Accepts(floor, more, seed) && seed < NONCE_LIMIT
    ensures LogOf(floor, calls + more) == LogOf(floor, calls) + Resumed(seed, |more|)
  {
    hide Passes, FateOf;
    var log := LogOf(floor, calls);
    if more == [] {
      assert calls + more == calls && Resumed(seed, 0) == [];
    } else {
      var n := |more| - 1;
      var init := more[..n];
      AcceptedCallsResume(floor, calls, init, seed);
      assert (calls + more)[..|calls| + n] == calls + init && (calls + more)[|calls| + n] == more[n];
      ResumedStep(log, floor, more[n], seed, n);
    }
  }

  lemma ResumedStep(log: seq<Issue>, floor: Option<nat>, c: SendCall, seed: nat, n: nat)
    requires Unseeded(log) && Goes(floor, c, Accepted) && seed < NONCE_LIMIT && (n == 0 ==> c.node.fetched == Some(seed))
    ensures Logged(log + Resumed(seed, n), c.payment, floor, c.node) == log + Resumed(seed, n + 1)
  {
    hide Passes, Nth, Inc;
    NthSteps(seed, n);
    var before := log + Resumed(seed, n);
    var next := Issue(Nth(seed, n), if n == 0 then Some(seed) else None, Accepted);
    assert Resumed(seed, n + 1) == Resumed(seed, n) + [next];
    assert before + [next] == log + Resumed(seed, n + 1);
    if n == 0 {
      assert before == log;
    } else {
      assert before[|before| - 1] == Resumed(seed, n)[n - 1];
    }
  }

  lemma NthSteps(seed: nat, n: nat)
    requires seed < NONCE_LIMIT
    ensures Nth(seed, 0) == seed && (n > 0 ==> Nth(seed, n) == Inc(Nth(seed, n - 1)))
  {
    if n > 0 {
      AddModulo(seed + (n - 1));
    }
  }

  predicate Reused(log: seq<Issue>, more: seq<Issue>) {
    exists i, j :: 0 <= i < |log| && 0 <= j < |more| && log[i].fate == Accepted && log[i].nonce == more[j].nonce
  }

  /** These calls broadcast no nonce again that was accepted before them. */
  ghost predicate Safe(floor: Option<nat>, calls: seq<SendCall>, more: seq<SendCall>) {
    var log, all := LogOf(floor, calls), LogOf(floor, calls + more);
    |log| <= |all| && !Reused(log, all[|log|..])
  }

  /** Every run of accepted calls after a fetch of `seed` that does not wrap past 2^64 is safe. */
  ghost predicate SafeSeed(floor: Option<nat>, calls: seq<SendCall>, seed: nat) {
    forall more: seq<SendCall> :: Accepts(floor, more, seed) && seed + |more| <= NONCE_LIMIT ==> Safe(floor, calls, more)
  }

  /** A payment of nothing that goes through at any gas floor. */
  function FreeCall(floor: Option<nat>, seed: nat): SendCall {
    var p := Payment(seq(20, _ => 0), NATIVE, seq(20, _ => 0), 0);
    SendCall(p, Node(Some(0), Some(Required(p, Floored(0, floor))), Some(seed), true, true))
  }

  lemma AcceptedCallsExist(floor: Option<nat>, seed: nat, n: nat) returns (more: seq<SendCall>)
    ensures |more| == n && Accepts(floor, more, seed)
  {
    more := seq(n, (k: nat) => FreeCall(floor, seed));
    assert Goes(floor, FreeCall(floor, seed), Accepted);
  }

  /** Some nonce from lo up to hi was accepted. */
  predicate Taken(log: seq<Issue>, lo: nat, hi: nat) {
    exists i :: 0 <= i < |log| && log[i].fate == Accepted && lo <= log[i].nonce < hi
  }

  lemma ResumedNonce(seed: nat, n: nat, k: nat)
    requires k < n && seed + n <= NONCE_LIMIT
    ensures Resumed(seed, n)[k].nonce == seed + k
  {
  }

  lemma ReusedExact(log: seq<Issue>, seed: nat, n: nat)
    requires seed + n <= NONCE_LIMIT
    ensures Reused(log, Resumed(seed, n)) <==> Taken(log, seed, seed + n)
  {
    var added := Resumed(seed, n);
    forall k | 0 <= k < n
      ensures added[k].nonce == seed + k
    {
      ResumedNonce(seed, n, k);
    }
    hide Resumed;
    if i :| 0 <= i < |log| && log[i].fate == Accepted && seed <= log[i].nonce < seed + n {
      assert added[log[i].nonce - seed].nonce == log[i].nonce;
    }
  }

  lemma SafeMeansFresh(floor: Option<nat>, calls: seq<SendCall>, more: seq<SendCall>, seed: nat)
    requires Unseeded(LogOf(floor, calls)) && Accepts(floor, more, seed) && seed < NONCE_LIMIT && seed + |more| <= NONCE_LIMIT
    ensures Safe(floor, calls, more) <==> !Taken(LogOf(floor, calls), seed, seed + |more|)
  {
    hide LogOf, Accepts, Reused, Resumed, Taken;
    var log := LogOf(floor, calls);
    AcceptedCallsResume(floor, calls, more, seed);
    assert (log + Resumed(seed, |more|))[|log|..] == Resumed(seed, |more|);
    ReusedExact(log, seed, |more|);
  }

  /** A fetch is safe for every later run of accepted calls exactly when its answer is above all
      nonces accepted before. NonceAt answers with the mined count, so an accepted transaction
      still waiting to be mined makes it unsafe. */
  lemma ReseedExact(floor: Option<nat>, calls: seq<SendCall>, seed: nat)
    requires CallsValid(calls) && Unseeded(LogOf(floor, calls)) && seed < NONCE_LIMIT
    ensures SafeSeed(floor, calls, seed) <==> AllAcceptedBelow(LogOf(floor, calls), seed)
  {
    hide LogOf, Safe, Accepts;
    var log := LogOf(floor, calls);
    if AllAcceptedBelow(log, seed) {
      forall more: seq<SendCall> | Accepts(floor, more, seed) && seed + |more| <= NONCE_LIMIT
        ensures Safe(floor, calls, more)
      {
        SafeMeansFresh(floor, calls, more, seed);
      }
    } else {
      var i :| 0 <= i < |log| && log[i].fate == Accepted && log[i].nonce >= seed;
      EveryRunIsChained(floor, calls);
      assert Linked(log, i);
      var more := AcceptedCallsExist(floor, seed, log[i].nonce - seed + 1);
      SafeMeansFresh(floor, calls, more, seed);
      assert !Safe(floor, calls, more);
    }
  }

  /** Any run that pays with the fetched nonce v, has its next broadcast refused, and is told v again
      because the payment is not mined yet: v is accepted twice. */
  lemma PendingNonceIsReissued(floor: Option<nat>, paid: SendCall, refused: SendCall, again: SendCall, v: nat)
    requires Goes(floor, paid, Accepted) && Goes(floor, refused, Refused) && Goes(floor, again, Accepted)
    requires paid.node.fetched == again.node.fetched == Some(v)
    ensures LogOf(floor, [paid, refused, again])
         == [Issue(v, Some(v), Accepted), Issue(Inc(v), None, Refused), Issue(v, Some(v), Accepted)]
  {
    hide Passes, FateOf;
    assert [paid, refused, again][..2] == [paid, refused];
    assert [paid, refused][..1] == [paid];
    assert [paid][..0] == [];
    assert LogOf(floor, [paid]) == [Issue(v, Some(v), Accepted)];
    assert LogOf(floor, [paid, refused]) == [Issue(v, Some(v), Accepted), Issue(Inc(v), None, Refused)];
  }

  /** The nonce of a retry. A broadcast with nonce v that reported an error (the node may have kept it
      all the same) makes the next call fetch; if the node answers `seed` and the retry is the n-th
      accepted call after that, it carries v again, so that only one of the two can be mined, exactly
      when seed + n is v. With every earlier transaction mined and v not, an immediate retry does. */
  lemma RetryNonceExactly(floor: Option<nat>, calls: seq<SendCall>, more: seq<SendCall>, seed: nat)
    requires CallsValid(calls) && LogOf(floor, calls) != [] && Unseeded(LogOf(floor, calls))
    requires more != [] && Accepts(floor, more, seed) && seed + |more| <= NONCE_LIMIT
    ensures var log, all := LogOf(floor, calls), LogOf(floor, calls + more);
            && |all| == |log| + |more|
            && (all[|all| - 1].nonce == log[|log| - 1].nonce <==> seed + (|more| - 1) == log[|log| - 1].nonce)
  {
    hide LogOf, Accepts;
    AcceptedCallsResume(floor, calls, more, seed);
    ResumedNonce(seed, |more|, |more| - 1);
    var log, added := LogOf(floor, calls), Resumed(seed, |more|);
    assert (log + added)[|log| + |more| - 1] == added[|more| - 1];
  }
}
