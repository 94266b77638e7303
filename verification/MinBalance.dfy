/** The minimum balance over whole runs, and what it implies for balances. */
module MinBalances {
  import opened Values
  import opened MapSums
  import opened Teal
  import opened Ledger
  import opened LedgerFrames
  import opened LedgerAssets
  import opened LedgerApps
  import opened LedgerRuns
  import opened AssetConservation

  /** Minimum balance an account keeps paying for a holding that somebody else's destruction removes. */
  function Orphaned(a: Address): Weight {
    (s: State, p: Param) =>
      if p.kind.DestroyAsset? && p.kind.assetID in s.assetDefs && a != s.assetDefs[p.kind.assetID] && Holds(s, a, p.kind.assetID)
      then ASSET_CREATION_FEE else 0
  }

  /** What the ledger keeps in every reachable state. */
  ghost predicate LedgerInv(s: State) {
    && AssetInv(s) && AppIndexOk(s)
    && forall a :: a in s.accounts ==> Excess(s.accounts[a]) >= 0 && s.accounts[a].amount >= 0
  }

  lemma MinBalanceAtLeastBase(s: State, a: Address)
    requires LedgerInv(s) && a in s.accounts
    ensures s.accounts[a].minBalance >= ACCOUNT_MIN_BALANCE
  {
    RequiredAtLeastBase(s.accounts[a]);
  }

  // ---- Excess of one account across each kind of step ----

  lemma AmountsKeepExcess(s: State, t: State, a: Address)
    requires OnlyAmounts(s, t)
    ensures ExcessOf(t, a) == ExcessOf(s, a)
  {
  }

  lemma UpdateExcess(s: State, t: State, b: Address, a: Address)
    requires b in s.accounts && b in t.accounts && t.accounts == s.accounts[b := t.accounts[b]]
    requires Excess(t.accounts[b]) == Excess(s.accounts[b])
    ensures ExcessOf(t, a) == ExcessOf(s, a)
  {
  }

  lemma DeployExcess(s: State, b: Address, name: string, d: AsaSpec, a: Address)
    requires AssetIndexOk(s) && AddAsset(s, b, name, d).Ok?
    ensures ExcessOf(AddAsset(s, b, name, d).value, a) == ExcessOf(s, a)
  {
    NewIdUnused(s, b);
    AddAssetExcess(s.accounts[b], b, s.assetCounter + 1, name, d);
    UpdateExcess(s, AddAsset(s, b, name, d).value, b, a);
  }

  lemma OptInExcess(s: State, id: nat, b: Address, a: Address)
    requires OptIntoASA(s, id, b).Ok?
    ensures ExcessOf(OptIntoASA(s, id, b).value, a) == ExcessOf(s, a)
  {
    var d := GetAssetDef(s, id).value;
    OptInASAExcess(s.accounts[b], id, Holding(0, d.creator, d.defaultFrozen));
    UpdateExcess(s, OptIntoASA(s, id, b).value, b, a);
  }

  lemma AddUnitsExcess(s: State, b: Address, id: nat, delta: int, a: Address)
    requires Holds(s, b, id)
    ensures ExcessOf(AddUnits(s, b, id, delta), a) == ExcessOf(s, a)
  {
    var t := AddUnits(s, b, id, delta);
    HoldingsOnlyExcess(s.accounts[b], t.accounts[b]);
    UpdateExcess(s, t, b, a);
  }

  lemma MoveExcess(s: State, from: Address, to: Address, amount: nat, id: nat, a: Address)
    requires MoveUnits(s, from, to, amount, id).Ok?
    ensures ExcessOf(MoveUnits(s, from, to, amount, id).value, a) == ExcessOf(s, a)
  {
    AddUnitsExcess(s, from, id, -(amount as int), a);
    AddUnitsExcess(AddUnits(s, from, id, -(amount as int)), to, id, amount, a);
  }

  lemma CloseExcess(s: State, from: Address, id: nat, closeTo: Address, a: Address)
    requires Holds(s, from, id) && CloseUnits(s, from, id, closeTo).Ok?
    ensures ExcessOf(CloseUnits(s, from, id, closeTo).value, a) == ExcessOf(s, a)
  {
    var s1 := AddUnits(s, closeTo, id, s.accounts[from].assets[id].amount);
    AddUnitsExcess(s, closeTo, id, s.accounts[from].assets[id].amount, a);
    CloseAssetExcess(s1.accounts[from], id);
    UpdateExcess(s1, CloseUnits(s, from, id, closeTo).value, from, a);
  }

  lemma TransferExcess(s: State, p: Param, a: Address)
    requires p.kind.TransferAsset? && ApplyAssetKind(s, p).Ok?
    ensures ExcessOf(ApplyAssetKind(s, p).value, a) == ExcessOf(s, a)
  {
    var from, to, amount, id := p.sender, p.kind.to, p.kind.amount, p.kind.assetID;
    if amount == 0 && from == to {
      OptInExcess(s, id, from, a);
    }
    MoveExcess(BeforeTransfer(s, from, to, amount, id).value, from, to, amount, id, a);
    if p.closeTo != "" {
      CloseExcess(CheckAndMove(s, from, to, amount, id).value, from, id, p.closeTo, a);
    }
  }

  lemma ModifyExcess(s: State, sender: Address, id: nat, f: ModFields, a: Address)
    requires Modify(s, sender, id, f).Ok?
    ensures ExcessOf(Modify(s, sender, id, f).value, a) == ExcessOf(s, a)
  {
    var t, c := Modify(s, sender, id, f).value, s.assetDefs[id];
    HoldingsOnlyExcess(s.accounts[c], t.accounts[c]);
    UpdateExcess(s, t, c, a);
  }

  lemma FreezeExcess(s: State, sender: Address, id: nat, target: Address, frozen: bool, a: Address)
    requires Freeze(s, sender, id, target, frozen).Ok?
    ensures ExcessOf(Freeze(s, sender, id, target, frozen).value, a) == ExcessOf(s, a)
  {
    var t := Freeze(s, sender, id, target, frozen).value;
    HoldingsOnlyExcess(s.accounts[target], t.accounts[target]);
    UpdateExcess(s, t, target, a);
  }

  /** Destroying an asset repays its creator only: every other holder's minimum balance stays raised. */
  lemma DestroyExcess(s: State, p: Param, a: Address)
    requires p.kind.DestroyAsset? && ApplyAssetKind(s, p).Ok?
    ensures ExcessOf(ApplyAssetKind(s, p).value, a) == ExcessOf(s, a) + Orphaned(a)(s, p)
  {
    var id, c := p.kind.assetID, s.assetDefs[p.kind.assetID];
    var s1 := WithAccount(s, c, AccountDestroyAsset(s.accounts[c], id).value);
    DestroyAssetExcess(s.accounts[c], id);
    UpdateExcess(s, s1, c, a);
    if a in s1.accounts {
      DropHoldingExcess(s1.accounts[a], id);
    }
  }

  lemma AssetKindExcess(s: State, p: Param, a: Address)
    requires IsAssetKind(p.kind) && ApplyAssetKind(s, p).Ok?
    ensures ExcessOf(ApplyAssetKind(s, p).value, a) == ExcessOf(s, a) + Orphaned(a)(s, p)
  {
    match p.kind
    case TransferAsset(_, _, _) => TransferExcess(s, p, a);
    case ModifyAsset(id, f) => ModifyExcess(s, p.sender, id, f, a);
    case FreezeAsset(id, target, frozen) => FreezeExcess(s, p.sender, id, target, frozen, a);
    case RevokeAsset(id, recipient, target, amount) => MoveExcess(s, target, recipient, amount, id, a);
    case DestroyAsset(_) => DestroyExcess(s, p, a);
    case OptInASA(id) => OptInExcess(s, id, p.sender, a);
  }

  lemma ApplyExcess(s: State, p: Param, gtxs: seq<Txn>, chain: Chain, a: Address)
    requires AssetIndexOk(s) && AppIndexOk(s) && Apply(s, p, gtxs, chain).Ok?
    ensures ExcessOf(Apply(s, p, gtxs, chain).value, a) == ExcessOf(s, a) + Orphaned(a)(s, p)
  {
    if p.kind.TransferAlgo? {
      PaymentFrame(s, p.sender, p.kind.to, p.kind.microAlgos, p.closeTo);
      AmountsKeepExcess(s, Apply(s, p, gtxs, chain).value, a);
    } else if p.kind.DeployASA? {
      DeployExcess(s, p.sender, p.kind.name, chain.asaDefs[p.kind.name], a);
    } else if IsAssetKind(p.kind) {
      AssetKindExcess(s, p, a);
    } else {
      AppKindKeeps(s, p, gtxs, chain);
    }
  }

  lemma ApplyAppIndex(s: State, p: Param, gtxs: seq<Txn>, chain: Chain)
    requires AppIndexOk(s) && Apply(s, p, gtxs, chain).Ok?
    ensures AppIndexOk(Apply(s, p, gtxs, chain).value)
  {
    var t := Apply(s, p, gtxs, chain).value;
    if p.kind.TransferAlgo? {
      PaymentFrame(s, p.sender, p.kind.to, p.kind.microAlgos, p.closeTo);
      OnlyAmountsKeeps(s, t);
      SameAppStatesIndex(s, t);
    } else if p.kind.DeployASA? {
      AddAssetFrame(s, p.sender, p.kind.name, chain.asaDefs[p.kind.name]);
      SameAppStatesIndex(s, t);
    } else if IsAssetKind(p.kind) {
      AssetKindFrame(s, p);
      SameAppStatesIndex(s, t);
    } else {
      AppKindKeeps(s, p, gtxs, chain);
    }
  }

  lemma ArraysKeepApps(s: State, t: State)
    requires AppIndexOk(s) && SignatureFrame(s, t)
    ensures AppIndexOk(t) && forall a :: ExcessOf(t, a) == ExcessOf(s, a)
  {
    hide Excess;
    var s2 := s.(heap := t.heap, args := t.args);
    SameAppStatesIndex(s, s2);
    TealKeepsExcess(s2, t);
    TealKeepsIndex(s2, t, 1);
    forall a
      ensures ExcessOf(t, a) == ExcessOf(s, a)
    {
      assert ExcessOf(s2, a) == ExcessOf(s, a);
    }
  }

  lemma PrepareKeepsApps(s: State, p: Param, gtxs: seq<Txn>, chain: Chain)
    requires AppIndexOk(s) && Prepare(s, p, gtxs, chain).Ok?
    ensures var t := Prepare(s, p, gtxs, chain).value;
            AppIndexOk(t) && forall a :: ExcessOf(t, a) == ExcessOf(s, a)
  {
    hide CheckSignature, Excess;
    var s1, t := DeductFee(s, p.sender, p.txn.fee).value, Prepare(s, p, gtxs, chain).value;
    FeeFrame(s, p.sender, p.txn.fee);
    OnlyAmountsKeeps(s, s1);
    SameAppStatesIndex(s, s1);
    CheckSignatureFrame(s1, p, gtxs, chain);
    ArraysKeepApps(s1, t);
    forall a
      ensures ExcessOf(t, a) == ExcessOf(s, a)
    {
      AmountsKeepExcess(s, s1, a);
    }
  }

  // ---- Balances ----

  ghost predicate Solvent(s: State) {
    forall a :: a in s.accounts ==> s.accounts[a].amount >= 0 && s.accounts[a].minBalance >= 0
  }

  /** A fee or payment that passes its check leaves the sender above a non-negative minimum. */
  lemma FeeSolvent(s: State, a: Address, fee: nat)
    requires Solvent(s) && DeductFee(s, a, fee).Ok?
    ensures Solvent(DeductFee(s, a, fee).value)
  {
  }

  lemma PaymentSolvent(s: State, from: Address, to: Address, amount: nat, closeTo: Address)
    requires Solvent(s) && TransferAlgos(s, from, to, amount, closeTo).Ok?
    ensures var t := TransferAlgos(s, from, to, amount, closeTo).value;
            forall a :: a in t.accounts ==> t.accounts[a].amount >= 0
  {
  }

  lemma ApplyNonNegative(s: State, p: Param, gtxs: seq<Txn>, chain: Chain)
    requires Solvent(s) && Apply(s, p, gtxs, chain).Ok?
    ensures var t := Apply(s, p, gtxs, chain).value;
            forall a :: a in t.accounts ==> t.accounts[a].amount >= 0
  {
    if p.kind.TransferAlgo? {
      PaymentSolvent(s, p.sender, p.kind.to, p.kind.microAlgos, p.closeTo);
    } else if p.kind.DeployASA? {
      AddAssetFrame(s, p.sender, p.kind.name, chain.asaDefs[p.kind.name]);
    } else if IsAssetKind(p.kind) {
      AssetKindFrame(s, p);
    } else {
      AppKindFrame(s, p, gtxs, chain);
    }
  }

  lemma PrepareSolvent(s: State, p: Param, gtxs: seq<Txn>, chain: Chain)
    requires Solvent(s) && Prepare(s, p, gtxs, chain).Ok?
    ensures Solvent(Prepare(s, p, gtxs, chain).value)
  {
    var s1 := DeductFee(s, p.sender, p.txn.fee).value;
    FeeSolvent(s, p.sender, p.txn.fee);
    CheckSignatureFrame(s1, p, gtxs, chain);
    SignatureKeepsLedger(s1, Prepare(s, p, gtxs, chain).value);
  }

  // ---- The invariant over transactions and runs ----

  lemma InvIsSolvent(s: State)
    requires LedgerInv(s)
    ensures Solvent(s)
  {
    forall a | a in s.accounts
      ensures s.accounts[a].minBalance >= 0
    {
      MinBalanceAtLeastBase(s, a);
    }
  }

  /** One transaction keeps the whole ledger invariant, and each account's excess grows exactly by what it orphans. */
  lemma TransactKeepsLedger(s: State, p: Param, gtxs: seq<Txn>, chain: Chain)
    requires LedgerInv(s) && Transact(s, p, gtxs, chain).Ok?
    ensures LedgerInv(Transact(s, p, gtxs, chain).value)
    ensures forall a :: ExcessOf(Transact(s, p, gtxs, chain).value, a)
                        == ExcessOf(s, a) + Orphaned(a)(Prepare(s, p, gtxs, chain).value, p)
  {
    hide Apply, AppIndexOk;
    var s1, t := Prepare(s, p, gtxs, chain).value, Transact(s, p, gtxs, chain).value;
    TransactAssets(s, p, gtxs, chain);
    PrepareKeepsAssets(s, p, gtxs, chain);
    PrepareKeepsApps(s, p, gtxs, chain);
    ApplyAppIndex(s1, p, gtxs, chain);
    InvIsSolvent(s);
    PrepareSolvent(s, p, gtxs, chain);
    ApplyNonNegative(s1, p, gtxs, chain);
    forall a
      ensures ExcessOf(t, a) == ExcessOf(s, a) + Orphaned(a)(s1, p)
    {
      ApplyExcess(s1, p, gtxs, chain, a);
    }
    forall a | a in t.accounts
      ensures Excess(t.accounts[a]) >= 0
    {
      assert ExcessOf(t, a) == ExcessOf(s, a) + Orphaned(a)(s1, p);
    }
  }

  lemma FreshLedger(s: State)
    requires Fresh(s)
    ensures LedgerInv(s) && forall a :: ExcessOf(s, a) == 0
  {
    FreshAssets(s);
  }

  lemma ArraysKeepLedger(s: State, t: State)
    requires LedgerInv(s) && SignatureFrame(s, t)
    ensures LedgerInv(t) && forall a :: ExcessOf(t, a) == ExcessOf(s, a)
  {
    hide AppIndexOk, AssetInv;
    ArraysKeepAssets(s, t);
    ArraysKeepApps(s, t);
    SignatureKeepsLedger(s, t);
    forall a | a in t.accounts
      ensures Excess(t.accounts[a]) >= 0 && t.accounts[a].amount >= 0
    {
      assert ExcessOf(t, a) == ExcessOf(s, a);
    }
  }

  /** Over a run from any state of the invariant an excess grows by exactly what the run orphans. */
  lemma ExcessOverRuns(s: State, calls: seq<Call>, a: Address)
    requires LedgerInv(s)
    ensures LedgerInv(Run(s, calls)) && ExcessOf(Run(s, calls), a) == ExcessOf(s, a) + RunTally(s, calls, Orphaned(a))
  {
    var inv, phi, w := (x: State) => LedgerInv(x), (x: State) => ExcessOf(x, a), Orphaned(a);
    forall x, y | SignatureFrame(x, y) && inv(x)
      ensures inv(y) && phi(y) == phi(x)
    {
      ArraysKeepLedger(x, y);
    }
    forall x, p, gtxs, chain
      ensures StepLaw(x, p, gtxs, chain, inv, phi, w)
    {
      if inv(x) && Transact(x, p, gtxs, chain).Ok? {
        TransactKeepsLedger(x, p, gtxs, chain);
      }
    }
    RunLaw(s, calls, inv, phi, w);
  }

  /** Over every run from fresh accounts the ledger invariant holds, and each account's minimum balance is exactly what its
      holdings, applications and opt-ins require, plus the fee of every holding that another account's destruction removed. */
  lemma ExactMinBalanceOverRuns(s: State, calls: seq<Call>, a: Address)
    requires Fresh(s)
    ensures var t := Run(s, calls);
            && LedgerInv(t)
            && (a in t.accounts ==>
                  t.accounts[a].minBalance == RequiredBalance(t.accounts[a]) + RunTally(s, calls, Orphaned(a)))
  {
    FreshLedger(s);
    ExcessOverRuns(s, calls, a);
  }

  /** Over every run, no balance, no holding and no minimum balance ever goes negative. */
  lemma NothingGoesNegative(s: State, calls: seq<Call>, a: Address)
    requires Fresh(s) && a in Run(s, calls).accounts
    ensures var acc := Run(s, calls).accounts[a];
            && acc.amount >= 0 && acc.minBalance >= ACCOUNT_MIN_BALANCE
            && forall id :: id in acc.assets ==> acc.assets[id].amount >= 0
  {
    ExactMinBalanceOverRuns(s, calls, a);
    var t := Run(s, calls);
    MinBalanceAtLeastBase(t, a);
    forall id | id in t.accounts[a].assets
      ensures t.accounts[a].assets[id].amount >= 0
    {
      assert Holds(t, a, id);
    }
  }

  // ---- Accounts that appear between groups ----

  /** The state with an empty account filed at a new address. */
  function WithNewAccount(s: State, a: Address): State {
    WithAccount(s, a, FreshAccount(0))
  }

  lemma NewAccountIndex(s: State, a: Address)
    requires AssetIndexOk(s) && a !in s.accounts && a != ""
    ensures AssetIndexOk(WithNewAccount(s, a))
    ensures forall id :: Live(WithNewAccount(s, a), id) <==> Live(s, id)
  {
    var t := WithNewAccount(s, a);
    forall b, id
      ensures Holds(t, b, id) <==> Holds(s, b, id)
    {
    }
    forall b, id
      ensures Created(t, b, id) <==> Created(s, b, id)
    {
    }
    forall id
      ensures Live(t, id) <==> Live(s, id)
    {
    }
    forall id | Live(t, id)
      ensures Holds(t, t.assetDefs[id], id)
    {
      assert Holds(s, s.assetDefs[id], id);
    }
  }

  lemma NewAccountSurplus(s: State, a: Address, id: nat)
    requires AssetIndexOk(s) && a !in s.accounts && a != ""
    ensures Surplus(WithNewAccount(s, a), id) == Surplus(s, id)
  {
    NewAccountIndex(s, a);
    MapSumUpdate(s.accounts, UnitsIn(id), a, FreshAccount(0));
  }

  lemma NewAccountAssets(s: State, a: Address)
    requires AssetInv(s) && a !in s.accounts && a != ""
    ensures AssetInv(WithNewAccount(s, a))
  {
    NewAccountIndex(s, a);
    forall id
      ensures Surplus(WithNewAccount(s, a), id) <= 0
    {
      NewAccountSurplus(s, a, id);
    }
  }

  lemma NewAccountApps(s: State, a: Address)
    requires AppIndexOk(s) && a !in s.accounts
    ensures AppIndexOk(WithNewAccount(s, a))
  {
    forall b, id
      ensures OwnsApp(WithNewAccount(s, a), b, id) <==> OwnsApp(s, b, id)
    {
    }
  }

  /** The account of a logic signature, at an address not in use, keeps everything that runs keep. */
  lemma NewAccountKeepsLedger(s: State, a: Address)
    requires LedgerInv(s) && a !in s.accounts && a != ""
    ensures LedgerInv(WithNewAccount(s, a))
    ensures forall b :: ExcessOf(WithNewAccount(s, a), b) == ExcessOf(s, b)
    ensures forall id :: Surplus(WithNewAccount(s, a), id) == Surplus(s, id)
  {
    NewAccountAssets(s, a);
    NewAccountApps(s, a);
    assert Excess(FreshAccount(0)) == 0;
    forall id
      ensures Surplus(WithNewAccount(s, a), id) == Surplus(s, id)
    {
      NewAccountSurplus(s, a, id);
    }
  }
}
