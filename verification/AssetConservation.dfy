/** Asset conservation over whole runs of executed groups. */
module AssetConservation {
  import opened Values
  import opened MapSums
  import opened Teal
  import opened Ledger
  import opened LedgerFrames
  import opened LedgerAssets
  import opened LedgerRuns

  ghost predicate AssetInv(s: State) {
    AssetIndexOk(s) && NoSurplus(s)
  }

  predicate ClosesAssetToSelf(p: Param, id: nat) {
    p.kind.TransferAsset? && p.kind.assetID == id && p.closeTo != "" && p.closeTo == p.sender
  }

  /** What a transfer leaves its sender: its holding, less the amount unless that comes back to it. */
  function LeftToSender(s: State, p: Param): nat
    requires p.kind.TransferAsset?
  {
    var left := UnitsHeld(s, p.sender, p.kind.assetID) - if p.kind.to == p.sender then 0 else p.kind.amount;
    if left > 0 then left else 0
  }

  function UnitsHeld(s: State, a: Address, id: nat): int {
    if Holds(s, a, id) then s.accounts[a].assets[id].amount else 0
  }

  /** Units of asset `id` that a transaction loses: a holder that closes out to itself loses what it has left. */
  function LostUnits(id: nat): Weight {
    (s: State, p: Param) => if ClosesAssetToSelf(p, id) then LeftToSender(s, p) else 0
  }

  lemma BeforeTransferAssets(s: State, from: Address, to: Address, amount: nat, id: nat)
    requires AssetIndexOk(s) && BeforeTransfer(s, from, to, amount, id).Ok?
    ensures var t := BeforeTransfer(s, from, to, amount, id).value;
            AssetIndexOk(t) && forall j :: Surplus(t, j) == Surplus(s, j)
  {
    if amount == 0 && from == to {
      OptInAssets(s, id, from);
    }
  }

  lemma CheckAndMoveAssets(s: State, from: Address, to: Address, amount: nat, id: nat)
    requires AssetIndexOk(s) && CheckAndMove(s, from, to, amount, id).Ok?
    ensures var t := CheckAndMove(s, from, to, amount, id).value;
            && AssetIndexOk(t) && Holds(t, from, id)
            && forall j :: Surplus(t, j) == Surplus(s, j)
  {
    BeforeTransferAssets(s, from, to, amount, id);
    MoveUnitsAssets(BeforeTransfer(s, from, to, amount, id).value, from, to, amount, id);
  }

  lemma MoveLeaves(s: State, from: Address, to: Address, amount: nat, id: nat)
    requires MoveUnits(s, from, to, amount, id).Ok?
    ensures UnitsHeld(MoveUnits(s, from, to, amount, id).value, from, id)
            == UnitsHeld(s, from, id) - if to == from then 0 else amount
  {
  }

  /** What is left when the close-out part starts can be read off the state before the transfer. */
  lemma LeftWhenClosing(s: State, p: Param)
    requires AssetIndexOk(s) && p.kind.TransferAsset?
    requires CheckAndMove(s, p.sender, p.kind.to, p.kind.amount, p.kind.assetID).Ok?
    ensures UnitsHeld(CheckAndMove(s, p.sender, p.kind.to, p.kind.amount, p.kind.assetID).value, p.sender, p.kind.assetID)
            == LeftToSender(s, p)
  {
    hide AssetIndexOk, MoveUnits;
    var from, to, amount, id := p.sender, p.kind.to, p.kind.amount, p.kind.assetID;
    var s1 := BeforeTransfer(s, from, to, amount, id).value;
    BeforeTransferAssets(s, from, to, amount, id);
    MoveUnitsAssets(s1, from, to, amount, id);
    MoveLeaves(s1, from, to, amount, id);
    assert UnitsHeld(s1, from, id) == UnitsHeld(s, from, id);
  }

  lemma TransferAssets(s: State, p: Param, j: nat)
    requires AssetIndexOk(s) && p.kind.TransferAsset? && ApplyAssetKind(s, p).Ok?
    ensures var t := ApplyAssetKind(s, p).value;
            AssetIndexOk(t) && Surplus(t, j) == Surplus(s, j) - LostUnits(j)(s, p)
  {
    hide AssetIndexOk, CloseUnits, CheckAndMove, Surplus;
    var from, to, amount, id := p.sender, p.kind.to, p.kind.amount, p.kind.assetID;
    CheckAndMoveAssets(s, from, to, amount, id);
    LeftWhenClosing(s, p);
    if p.closeTo != "" {
      CloseUnitsAssets(CheckAndMove(s, from, to, amount, id).value, from, id, p.closeTo);
    }
  }

  lemma DestroyAssets(s: State, sender: Address, id: nat, j: nat)
    requires AssetInv(s) && Destroy(s, sender, id).Ok?
    ensures var t := Destroy(s, sender, id).value; AssetIndexOk(t) && Surplus(t, j) == Surplus(s, j)
  {
    DestroyIndex(s, sender, id);
    DestroySurplus(s, sender, id, j);
  }

  lemma AssetKindAssets(s: State, p: Param, j: nat)
    requires AssetInv(s) && IsAssetKind(p.kind) && ApplyAssetKind(s, p).Ok?
    ensures var t := ApplyAssetKind(s, p).value;
            AssetIndexOk(t) && Surplus(t, j) == Surplus(s, j) - LostUnits(j)(s, p)
  {
    match p.kind
    case TransferAsset(_, _, _) => TransferAssets(s, p, j);
    case ModifyAsset(id, f) => ModifyAssets(s, p.sender, id, f);
    case FreezeAsset(id, target, frozen) => FreezeAssets(s, p.sender, id, target, frozen);
    case RevokeAsset(id, recipient, target, amount) => MoveUnitsAssets(s, target, recipient, amount, id);
    case DestroyAsset(id) => DestroyAssets(s, p.sender, id, j);
    case OptInASA(id) => OptInAssets(s, id, p.sender);
  }

  lemma ApplyAssets(s: State, p: Param, gtxs: seq<Txn>, chain: Chain, j: nat)
    requires AssetInv(s) && Apply(s, p, gtxs, chain).Ok?
    ensures var t := Apply(s, p, gtxs, chain).value;
            AssetIndexOk(t) && Surplus(t, j) == Surplus(s, j) - LostUnits(j)(s, p)
  {
    var t := Apply(s, p, gtxs, chain).value;
    if p.kind.TransferAlgo? {
      PaymentFrame(s, p.sender, p.kind.to, p.kind.microAlgos, p.closeTo);
      OnlyAmountsKeeps(s, t);
      SameAssetsKeep(s, t);
    } else if p.kind.DeployASA? {
      AddAssetIndex(s, p.sender, p.kind.name, chain.asaDefs[p.kind.name]);
      AddAssetSurplus(s, p.sender, p.kind.name, chain.asaDefs[p.kind.name], j);
    } else if IsAssetKind(p.kind) {
      AssetKindAssets(s, p, j);
    } else {
      AppKindFrame(s, p, gtxs, chain);
      SameAssetsKeep(s, t);
    }
  }

  lemma PrepareKeepsAssets(s: State, p: Param, gtxs: seq<Txn>, chain: Chain)
    requires AssetIndexOk(s) && Prepare(s, p, gtxs, chain).Ok?
    ensures var t := Prepare(s, p, gtxs, chain).value;
            AssetIndexOk(t) && forall j :: Surplus(t, j) == Surplus(s, j)
  {
    var s1 := DeductFee(s, p.sender, p.txn.fee).value;
    FeeFrame(s, p.sender, p.txn.fee);
    OnlyAmountsKeeps(s, s1);
    SameAssetsKeep(s, s1);
    CheckSignatureFrame(s1, p, gtxs, chain);
    SignatureKeepsLedger(s1, CheckSignature(s1, p, gtxs, chain).value);
    SameAssetsKeep(s1, CheckSignature(s1, p, gtxs, chain).value);
  }

  /** One transaction: the index and the bound are kept, and a surplus falls exactly by the units lost. */
  lemma TransactAssets(s: State, p: Param, gtxs: seq<Txn>, chain: Chain)
    requires AssetInv(s) && Transact(s, p, gtxs, chain).Ok?
    ensures AssetInv(Transact(s, p, gtxs, chain).value)
    ensures forall j :: Surplus(Transact(s, p, gtxs, chain).value, j)
                        == Surplus(s, j) - LostUnits(j)(Prepare(s, p, gtxs, chain).value, p)
  {
    var s1, t := Prepare(s, p, gtxs, chain).value, Transact(s, p, gtxs, chain).value;
    PrepareKeepsAssets(s, p, gtxs, chain);
    assert NoSurplus(s1);
    forall j
      ensures Surplus(t, j) == Surplus(s, j) - LostUnits(j)(s1, p) && Surplus(t, j) <= 0
    {
      ApplyAssets(s1, p, gtxs, chain, j);
    }
    ApplyAssets(s1, p, gtxs, chain, 0);
  }

  lemma ArraysKeepAssets(s: State, t: State)
    requires AssetInv(s) && SignatureFrame(s, t)
    ensures AssetInv(t) && forall j :: Surplus(t, j) == Surplus(s, j)
  {
    SignatureKeepsLedger(s, t);
    SameAssetsKeep(s, t);
  }

  lemma FreshAssets(s: State)
    requires Fresh(s)
    ensures AssetInv(s)
  {
  }

  /** Over a run from any state of the invariant a surplus falls by exactly the units lost. */
  lemma SurplusOverRuns(s: State, calls: seq<Call>, id: nat)
    requires AssetInv(s)
    ensures AssetInv(Run(s, calls)) && Surplus(Run(s, calls), id) == Surplus(s, id) - RunTally(s, calls, LostUnits(id))
  {
    var inv, phi, w := (x: State) => AssetInv(x), (x: State) => -Surplus(x, id), LostUnits(id);
    forall x, y | SignatureFrame(x, y) && inv(x)
      ensures inv(y) && phi(y) == phi(x)
    {
      ArraysKeepAssets(x, y);
    }
    forall x, p, gtxs, chain
      ensures StepLaw(x, p, gtxs, chain, inv, phi, w)
    {
      if inv(x) && Transact(x, p, gtxs, chain).Ok? {
        TransactAssets(x, p, gtxs, chain);
      }
    }
    RunLaw(s, calls, inv, phi, w);
  }

  /** Over every run from fresh accounts: the index is right, the creator of every live asset holds it, and the holdings
      of each live asset sum to its total minus the units lost by closing out to oneself. */
  lemma AssetConservationOverRuns(s: State, calls: seq<Call>, id: nat)
    requires Fresh(s)
    ensures var t, lost := Run(s, calls), RunTally(s, calls, LostUnits(id));
            AssetInv(t) && lost >= 0 && (Live(t, id) ==> UnitsOf(t, id) == TotalOf(t, id) - lost)
  {
    FreshAssets(s);
    SurplusOverRuns(s, calls, id);
    RunTallyZeroExactly(s, calls, LostUnits(id));
  }

  /** A committed transaction loses units: its sender closes out to itself with something left. */
  predicate LosesUnits(e: Event, id: nat) {
    ClosesAssetToSelf(e.param, id) && LeftToSender(e.state, e.param) > 0
  }

  /** The holdings of a live asset sum to exactly its total if and only if no transaction that the run committed closed it out
      to its sender with units left. Groups that rolled back and close-outs with nothing left do not matter. */
  lemma HoldingsSumToTotal(s: State, calls: seq<Call>, id: nat)
    requires Fresh(s) && Live(Run(s, calls), id)
    ensures UnitsOf(Run(s, calls), id) == TotalOf(Run(s, calls), id)
            <==> forall e :: e in RunEvents(s, calls) ==> !LosesUnits(e, id)
  {
    AssetConservationOverRuns(s, calls, id);
    RunTallyZeroExactly(s, calls, LostUnits(id));
    forall e: Event
      ensures LostUnits(id)(e.state, e.param) == 0 <==> !LosesUnits(e, id)
    {
    }
  }

  /** After any run, destroying an asset succeeds only when every holding but the creator's is empty. */
  lemma DestroyedAssetsWereCollected(s: State, calls: seq<Call>, sender: Address, id: nat)
    requires Fresh(s) && Destroy(Run(s, calls), sender, id).Ok?
    ensures var t := Run(s, calls);
            forall a :: Holds(t, a, id) && a != t.assetDefs[id] ==> t.accounts[a].assets[id].amount == 0
  {
    AssetConservationOverRuns(s, calls, id);
    DestroyLeavesNothing(Run(s, calls), sender, id);
  }

  // ---- One transaction ----

  /** Fee and signature leave every holding alone. */
  lemma PrepareKeepsHoldings(s: State, p: Param, gtxs: seq<Txn>, chain: Chain, a: Address, id: nat)
    requires Prepare(s, p, gtxs, chain).Ok?
    ensures UnitsHeld(Prepare(s, p, gtxs, chain).value, a, id) == UnitsHeld(s, a, id)
  {
    var s1 := DeductFee(s, p.sender, p.txn.fee).value;
    FeeFrame(s, p.sender, p.txn.fee);
    OnlyAmountsKeeps(s, s1);
    CheckSignatureFrame(s1, p, gtxs, chain);
    SignatureKeepsLedger(s1, CheckSignature(s1, p, gtxs, chain).value);
  }

  /** A transaction conserves an asset if and only if it is not a close-out of that asset to its own sender with units
      left, all of which can be read off the transaction and the store before it. */
  lemma TransactConservesIff(s: State, p: Param, gtxs: seq<Txn>, chain: Chain, id: nat)
    requires AssetInv(s) && Transact(s, p, gtxs, chain).Ok?
    ensures Surplus(Transact(s, p, gtxs, chain).value, id) == Surplus(s, id)
            <==> !(ClosesAssetToSelf(p, id)
                   && UnitsHeld(s, p.sender, id) > if p.kind.to == p.sender then 0 else p.kind.amount)
  {
    TransactAssets(s, p, gtxs, chain);
    PrepareKeepsHoldings(s, p, gtxs, chain, p.sender, id);
  }
}
