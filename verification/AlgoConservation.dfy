/** MicroAlgo conservation: what a committed group does to the sum of all balances. */
module AlgoConservation {
  import opened Values
  import opened MapSums
  import opened Teal
  import opened Ledger
  import opened LedgerFrames
  import opened LedgerRuns
  import opened LedgerApps
  import opened MinBalances

  function AmountOf(acc: Account): int {
    acc.amount
  }

  ghost function TotalAlgos(s: State): int {
    MapSum(s.accounts, AmountOf)
  }

  function Fees(g: Group, i: nat): nat
    requires i <= |g|
    decreases |g| - i
  {
    if i == |g| then 0 else g[i].txn.fee + Fees(g, i + 1)
  }

  predicate ClosesToSelf(p: Param) {
    p.kind.TransferAlgo? && p.closeTo != "" && p.closeTo == p.sender
  }

  /** MicroAlgos a payment loses: a sender that closes to itself loses what the payment left it. */
  function Burned(s: State, p: Param): int {
    if !ClosesToSelf(p) || p.sender !in s.accounts then 0
    else s.accounts[p.sender].amount - if p.kind.to == p.sender then 0 else p.kind.microAlgos
  }

  lemma WithAccountTotal(s: State, a: Address, acc: Account)
    requires a in s.accounts
    ensures TotalAlgos(WithAccount(s, a, acc)) == TotalAlgos(s) - s.accounts[a].amount + acc.amount
  {
    MapSumUpdate(s.accounts, AmountOf, a, acc);
  }

  lemma SameAmountsTotal(s: State, t: State)
    requires SameAmounts(s, t)
    ensures TotalAlgos(t) == TotalAlgos(s)
  {
    MapSumCong(t.accounts, AmountOf, s.accounts, AmountOf);
  }

  /** A payment conserves the total for every coincidence of sender, receiver and close-to but one. */
  lemma PaymentTotal(s: State, p: Param)
    requires p.kind.TransferAlgo?
    requires TransferAlgos(s, p.sender, p.kind.to, p.kind.microAlgos, p.closeTo).Ok?
    ensures TotalAlgos(TransferAlgos(s, p.sender, p.kind.to, p.kind.microAlgos, p.closeTo).value) == TotalAlgos(s) - Burned(s, p)
  {
    var from, to, amount, closeTo := p.sender, p.kind.to, p.kind.microAlgos, p.closeTo;
    var s1 := Credit(s, from, -(amount as int));
    var s2 := Credit(s1, to, amount);
    WithAccountTotal(s, from, s1.accounts[from]);
    WithAccountTotal(s1, to, s2.accounts[to]);
    if closeTo != "" {
      var s3 := Credit(s2, closeTo, s2.accounts[from].amount);
      WithAccountTotal(s2, closeTo, s3.accounts[closeTo]);
      WithAccountTotal(s3, from, s3.accounts[from].(amount := 0));
    }
  }

  lemma ApplyTotal(s: State, p: Param, gtxs: seq<Txn>, chain: Chain)
    requires Apply(s, p, gtxs, chain).Ok?
    ensures TotalAlgos(Apply(s, p, gtxs, chain).value) == TotalAlgos(s) - Burned(s, p)
  {
    if p.kind.TransferAlgo? {
      PaymentTotal(s, p);
    } else {
      if p.kind.DeployASA? {
        AddAssetFrame(s, p.sender, p.kind.name, chain.asaDefs[p.kind.name]);
      } else if IsAssetKind(p.kind) {
        AssetKindFrame(s, p);
      } else {
        AppKindFrame(s, p, gtxs, chain);
      }
      SameAmountsTotal(s, Apply(s, p, gtxs, chain).value);
    }
  }

  lemma PrepareTotal(s: State, p: Param, gtxs: seq<Txn>, chain: Chain)
    requires Prepare(s, p, gtxs, chain).Ok?
    ensures TotalAlgos(Prepare(s, p, gtxs, chain).value) == TotalAlgos(s) - p.txn.fee
  {
    var s1, t := DeductFee(s, p.sender, p.txn.fee).value, Prepare(s, p, gtxs, chain).value;
    WithAccountTotal(s, p.sender, s1.accounts[p.sender]);
    CheckSignatureFrame(s1, p, gtxs, chain);
    SignatureKeepsLedger(s1, t);
    SameAmountsTotal(s1, t);
  }

  lemma {:induction false} ProcessTotal(s: State, g: Group, i: nat, gtxs: seq<Txn>, chain: Chain)
    requires i <= |g| && Process(s, g, i, gtxs, chain).Ok?
    ensures TotalAlgos(s) == TotalAlgos(Process(s, g, i, gtxs, chain).value) + Fees(g, i) + Tally(s, g, i, gtxs, chain, Burned)
    decreases |g| - i
  {
    if i < |g| {
      var s1 := Prepare(s, g[i], gtxs, chain).value;
      PrepareTotal(s, g[i], gtxs, chain);
      ApplyTotal(s1, g[i], gtxs, chain);
      ProcessTotal(Apply(s1, g[i], gtxs, chain).value, g, i + 1, gtxs, chain);
    }
  }

  /** A committed group, whatever TEAL it runs, takes its fees and the self-closed remainders out of the total and nothing else. */
  lemma MicroAlgosAccountedFor(s: State, call: Call)
    requires ExecuteTx(s, call.group, call.chain).Ok?
    ensures TotalAlgos(s) == TotalAlgos(ExecuteTx(s, call.group, call.chain).value) + Fees(call.group, 0) + CallTally(s, call, Burned)
  {
    var g := call.group;
    OpenedFrame(s);
    SignatureKeepsLedger(s, Opened(s));
    SameAmountsTotal(s, Opened(s));
    ProcessTotal(Opened(s), g, 0, Txns(g), call.chain);
  }

  /** What is left for a self-close is at least the minimum balance, so it is never nothing. */
  lemma BurnedPositive(s: State, p: Param, gtxs: seq<Txn>, chain: Chain)
    requires LedgerInv(s) && Transact(s, p, gtxs, chain).Ok?
    ensures var b := Burned(Prepare(s, p, gtxs, chain).value, p); if ClosesToSelf(p) then b >= ACCOUNT_MIN_BALANCE else b == 0
  {
    hide AppIndexOk, RequiredBalance, CheckSignature;
    if ClosesToSelf(p) {
      var s1, a := Prepare(s, p, gtxs, chain).value, p.sender;
      PrepareKeepsApps(s, p, gtxs, chain);
      assert ExcessOf(s1, a) == ExcessOf(s, a);
      RequiredAtLeastBase(s1.accounts[a]);
    }
  }

  /** From every reachable store, a committed group conserves microAlgos up to its fees exactly when no payment in it closes
      to its own sender. */
  lemma MicroAlgosConservedIff(s: State, call: Call)
    requires LedgerInv(s) && ExecuteTx(s, call.group, call.chain).Ok?
    ensures TotalAlgos(s) == TotalAlgos(ExecuteTx(s, call.group, call.chain).value) + Fees(call.group, 0)
            <==> forall k :: 0 <= k < |call.group| ==> !ClosesToSelf(call.group[k])
  {
    hide LedgerInv, Transact, Process, Burned, ClosesToSelf;
    MicroAlgosAccountedFor(s, call);
    OpenedFrame(s);
    ArraysKeepLedger(s, Opened(s));
    var inv, gtxs := (x: State) => LedgerInv(x), Txns(call.group);
    forall t, p
      ensures SignLaw(t, p, gtxs, call.chain, inv, Burned, ClosesToSelf)
    {
      if LedgerInv(t) && Transact(t, p, gtxs, call.chain).Ok? {
        BurnedPositive(t, p, gtxs, call.chain);
        TransactKeepsLedger(t, p, gtxs, call.chain);
      }
    }
    TallyZeroIff(Opened(s), call.group, 0, gtxs, call.chain, inv, Burned, ClosesToSelf);
  }

  /** One account that pays itself nothing and closes to itself. */
  function PayAndCloseToSelf(txn: Txn): Param {
    Param("a", SecretKey, "a", TransferAlgo("a", 0), txn)
  }

  function OneAccount(amount: int): State {
    State(map["a" := FreshAccount(amount)], map[], map[], 0, 0, TableOnly(), [])
  }

  /** Such a payment does commit: 1000 microAlgos of the balance are the fee, and the rest is gone. */
  lemma SelfCloseCommits(txn: Txn, chain: Chain)
    requires txn.fee == 1000 && ValidRound(txn, chain.round)
    ensures LedgerInv(OneAccount(301000)) && TotalAlgos(OneAccount(301000)) == 301000
    ensures ExecuteTx(OneAccount(301000), [PayAndCloseToSelf(txn)], chain) == Ok(OneAccount(0))
    ensures TotalAlgos(OneAccount(0)) == 0
  {
    hide LedgerInv, TotalAlgos, Transact, RefersOutside, OneAccount;
    OneAccountIsFresh(301000);
    OneAccountTotal(301000);
    OneAccountTotal(0);
    SelfCloseTransacts(txn, chain);
    GroupOfOne(OneAccount(301000), PayAndCloseToSelf(txn), OneAccount(0), chain);
  }

  lemma OneAccountIsFresh(amount: nat)
    ensures LedgerInv(OneAccount(amount)) && !RefersOutside(OneAccount(amount))
    ensures OneAccount(amount).args == OneAccount(0).args == []
  {
    hide LedgerInv;
    FreshLedger(OneAccount(amount));
  }

  lemma SelfCloseTransacts(txn: Txn, chain: Chain)
    requires txn.fee == 1000
    ensures Transact(OneAccount(301000), PayAndCloseToSelf(txn), [txn], chain) == Ok(OneAccount(0))
  {
    hide TransferAlgos, Ledger.Credit;
    CreditAlone(301000, -1000);
    assert DeductFee(OneAccount(301000), "a", 1000) == Ok(OneAccount(300000));
    SelfClose();
  }

  lemma CreditAlone(amount: int, delta: int)
    ensures Credit(OneAccount(amount), "a", delta) == OneAccount(amount + delta)
  {
    assert map["a" := FreshAccount(amount)]["a" := FreshAccount(amount + delta)] == map["a" := FreshAccount(amount + delta)];
  }

  lemma SelfClose()
    ensures TransferAlgos(OneAccount(300000), "a", "a", 0, "a") == Ok(OneAccount(0))
  {
    CreditAlone(300000, 0);
    CreditAlone(300000, 300000);
    CreditAlone(600000, -600000);
  }

  lemma OneAccountTotal(amount: int)
    ensures TotalAlgos(OneAccount(amount)) == amount
  {
    var m := OneAccount(amount).accounts;
    MapSumPick(m, AmountOf, "a");
    assert m - {"a"} == map[];
  }

  /** An account that appears between groups with nothing in it leaves the total alone. */
  lemma NewAccountTotal(s: State, a: Address)
    requires a !in s.accounts
    ensures TotalAlgos(WithAccount(s, a, FreshAccount(0))) == TotalAlgos(s)
  {
    MapSumUpdate(s.accounts, AmountOf, a, FreshAccount(0));
  }
}
