/** Frozen holdings: only a revocation moves their units, and only their owner or a destruction removes them. */
module FrozenHoldings {
  import opened Values
  import opened Teal
  import opened Ledger
  import opened LedgerFrames
  import opened LedgerAssets
  import opened LedgerRuns
  import opened AssetConservation

  predicate FrozenIn(s: State, a: Address, id: nat) {
    Holds(s, a, id) && s.accounts[a].assets[id].frozen
  }

  function HoldingOf(s: State, a: Address, id: nat): Holding
    requires Holds(s, a, id)
  {
    s.accounts[a].assets[id]
  }

  /** Units that a revocation moves into (or, if negative, out of) a holding. */
  function Revoked(p: Param, a: Address, id: nat): int {
    match p.kind
    case RevokeAsset(i, recipient, target, amount) =>
      if i != id then 0 else (if recipient == a then amount else 0) - (if target == a then amount else 0)
    case _ => 0
  }

  /** The holder closes its holding out, or the manager destroys the asset. */
  predicate Removes(p: Param, a: Address, id: nat) {
    || (p.kind.TransferAsset? && p.kind.assetID == id && p.sender == a && p.closeTo != "")
    || (p.kind.DestroyAsset? && p.kind.assetID == id)
  }

  predicate Thaws(p: Param, a: Address, id: nat) {
    p.kind.FreezeAsset? && p.kind.assetID == id && p.kind.target == a && !p.kind.frozen
  }

  /** What a transaction may do to a frozen holding. */
  predicate FrozenStep(s: State, t: State, p: Param, a: Address, id: nat)
    requires Holds(s, a, id)
  {
    if Holds(t, a, id) then
      && HoldingOf(t, a, id).amount == HoldingOf(s, a, id).amount + Revoked(p, a, id)
      && HoldingOf(t, a, id).frozen == !Thaws(p, a, id)
      && !Removes(p, a, id)
    else
      Removes(p, a, id)
  }

  predicate SameHolding(s: State, t: State, a: Address, id: nat)
    requires Holds(s, a, id)
  {
    Holds(t, a, id) && HoldingOf(t, a, id) == HoldingOf(s, a, id)
  }

  lemma BeforeTransferFrozen(s: State, from: Address, to: Address, amount: nat, id: nat, a: Address, j: nat)
    requires FrozenIn(s, a, j) && BeforeTransfer(s, from, to, amount, id).Ok?
    ensures SameHolding(s, BeforeTransfer(s, from, to, amount, id).value, a, j)
    ensures j == id && amount != 0 ==> a != from && a != to
  {
  }

  lemma MoveFrozen(s: State, from: Address, to: Address, amount: nat, id: nat, a: Address, j: nat)
    requires Holds(s, a, j) && MoveUnits(s, from, to, amount, id).Ok?
    ensures var t := MoveUnits(s, from, to, amount, id).value;
            && Holds(t, a, j) && Holds(t, from, id)
            && HoldingOf(t, a, j) == HoldingOf(s, a, j).(amount := HoldingOf(t, a, j).amount)
            && HoldingOf(t, a, j).amount == HoldingOf(s, a, j).amount
                 + if j == id then (if to == a then amount else 0) - (if from == a then amount else 0) else 0
  {
  }

  lemma CloseFrozen(s: State, from: Address, id: nat, closeTo: Address, a: Address, j: nat)
    requires FrozenIn(s, a, j) && Holds(s, from, id) && CloseUnits(s, from, id, closeTo).Ok?
    ensures var t := CloseUnits(s, from, id, closeTo).value;
            if j == id && a == from then !Holds(t, a, j) else SameHolding(s, t, a, j)
  {
  }

  lemma TransferFrozen(s: State, p: Param, a: Address, j: nat)
    requires FrozenIn(s, a, j) && p.kind.TransferAsset? && ApplyAssetKind(s, p).Ok?
    ensures FrozenStep(s, ApplyAssetKind(s, p).value, p, a, j)
  {
    var from, to, amount, id := p.sender, p.kind.to, p.kind.amount, p.kind.assetID;
    var s1 := BeforeTransfer(s, from, to, amount, id).value;
    BeforeTransferFrozen(s, from, to, amount, id, a, j);
    MoveFrozen(s1, from, to, amount, id, a, j);
    var s2 := CheckAndMove(s, from, to, amount, id).value;
    assert SameHolding(s, s2, a, j);
    if p.closeTo != "" {
      CloseFrozen(s2, from, id, p.closeTo, a, j);
    }
  }

  lemma DestroyFrozen(s: State, p: Param, a: Address, j: nat)
    requires FrozenIn(s, a, j) && p.kind.DestroyAsset? && ApplyAssetKind(s, p).Ok?
    ensures FrozenStep(s, ApplyAssetKind(s, p).value, p, a, j)
  {
  }

  lemma FreezeStepFrozen(s: State, p: Param, a: Address, j: nat)
    requires FrozenIn(s, a, j) && p.kind.FreezeAsset? && ApplyAssetKind(s, p).Ok?
    ensures FrozenStep(s, ApplyAssetKind(s, p).value, p, a, j)
  {
  }

  lemma OptInFrozen(s: State, id: nat, b: Address, a: Address, j: nat)
    requires FrozenIn(s, a, j) && OptIntoASA(s, id, b).Ok?
    ensures SameHolding(s, OptIntoASA(s, id, b).value, a, j)
  {
  }

  lemma ModifyFrozen(s: State, sender: Address, id: nat, f: ModFields, a: Address, j: nat)
    requires FrozenIn(s, a, j) && Modify(s, sender, id, f).Ok?
    ensures SameHolding(s, Modify(s, sender, id, f).value, a, j)
  {
  }

  lemma AssetKindFrozen(s: State, p: Param, a: Address, j: nat)
    requires FrozenIn(s, a, j) && IsAssetKind(p.kind) && ApplyAssetKind(s, p).Ok?
    ensures FrozenStep(s, ApplyAssetKind(s, p).value, p, a, j)
  {
    match p.kind
    case TransferAsset(_, _, _) => TransferFrozen(s, p, a, j);
    case ModifyAsset(id, f) => ModifyFrozen(s, p.sender, id, f, a, j);
    case FreezeAsset(_, _, _) => FreezeStepFrozen(s, p, a, j);
    case RevokeAsset(id, recipient, target, amount) => MoveFrozen(s, target, recipient, amount, id, a, j);
    case DestroyAsset(_) => DestroyFrozen(s, p, a, j);
    case OptInASA(id) => OptInFrozen(s, id, p.sender, a, j);
  }

  lemma DeployFrozen(s: State, b: Address, name: string, d: AsaSpec, a: Address, j: nat)
    requires AssetIndexOk(s) && FrozenIn(s, a, j) && AddAsset(s, b, name, d).Ok?
    ensures SameHolding(s, AddAsset(s, b, name, d).value, a, j)
  {
    NewIdUnused(s, b);
  }

  lemma ApplyFrozen(s: State, p: Param, gtxs: seq<Txn>, chain: Chain, a: Address, j: nat)
    requires AssetIndexOk(s) && FrozenIn(s, a, j) && Apply(s, p, gtxs, chain).Ok?
    ensures FrozenStep(s, Apply(s, p, gtxs, chain).value, p, a, j)
  {
    hide ApplyAssetKind, ApplyAppKind, AssetIndexOk;
    var t := Apply(s, p, gtxs, chain).value;
    if p.kind.TransferAlgo? {
      PaymentFrame(s, p.sender, p.kind.to, p.kind.microAlgos, p.closeTo);
      OnlyAmountsKeeps(s, t);
    } else if p.kind.DeployASA? {
      DeployFrozen(s, p.sender, p.kind.name, chain.asaDefs[p.kind.name], a, j);
    } else if IsAssetKind(p.kind) {
      AssetKindFrozen(s, p, a, j);
    } else {
      AppKindFrame(s, p, gtxs, chain);
      assert SameHolding(s, t, a, j);
    }
  }

  lemma PrepareSameAssets(s: State, p: Param, gtxs: seq<Txn>, chain: Chain)
    requires Prepare(s, p, gtxs, chain).Ok?
    ensures SameAssets(s, Prepare(s, p, gtxs, chain).value)
  {
    var s1 := DeductFee(s, p.sender, p.txn.fee).value;
    FeeFrame(s, p.sender, p.txn.fee);
    OnlyAmountsKeeps(s, s1);
    CheckSignatureFrame(s1, p, gtxs, chain);
    SignatureKeepsLedger(s1, CheckSignature(s1, p, gtxs, chain).value);
  }

  /** In any step, for all coincidences of sender, receiver and close-to: a frozen holding's amount moves by exactly what a
      revocation moves, it thaws only by a freeze transaction that says so, and it is gone exactly when its owner closes it
      out or the asset is destroyed. */
  lemma FrozenUnits(s: State, p: Param, gtxs: seq<Txn>, chain: Chain, a: Address, id: nat)
    requires AssetIndexOk(s) && FrozenIn(s, a, id) && Transact(s, p, gtxs, chain).Ok?
    ensures FrozenStep(s, Transact(s, p, gtxs, chain).value, p, a, id)
  {
    hide Prepare, Apply, AssetIndexOk;
    var s1 := Prepare(s, p, gtxs, chain).value;
    PrepareSameAssets(s, p, gtxs, chain);
    PrepareKeepsAssets(s, p, gtxs, chain);
    assert SameHolding(s, s1, a, id);
    ApplyFrozen(s1, p, gtxs, chain, a, id);
  }

  /** The transaction neither thaws nor removes the holding. */
  predicate Spares(p: Param, a: Address, id: nat) {
    !Removes(p, a, id) && !Thaws(p, a, id)
  }

  function RevokedUnits(a: Address, id: nat): Weight {
    (_: State, p: Param) => Revoked(p, a, id)
  }

  lemma SparedStep(s: State, p: Param, gtxs: seq<Txn>, chain: Chain, a: Address, id: nat)
    requires AssetInv(s) && FrozenIn(s, a, id) && Spares(p, a, id) && Transact(s, p, gtxs, chain).Ok?
    ensures var t := Transact(s, p, gtxs, chain).value;
            AssetInv(t) && FrozenIn(t, a, id) && UnitsHeld(t, a, id) == UnitsHeld(s, a, id) + Revoked(p, a, id)
  {
    hide Transact, AssetIndexOk, NoSurplus, Removes, Thaws, Revoked;
    FrozenUnits(s, p, gtxs, chain, a, id);
    TransactAssets(s, p, gtxs, chain);
  }

  lemma ArraysKeepFrozen(s: State, t: State, a: Address, id: nat)
    requires AssetInv(s) && FrozenIn(s, a, id) && SignatureFrame(s, t)
    ensures AssetInv(t) && FrozenIn(t, a, id) && UnitsHeld(t, a, id) == UnitsHeld(s, a, id)
  {
    ArraysKeepAssets(s, t);
    SignatureKeepsLedger(s, t);
  }

  ghost function FrozenInv(a: Address, id: nat): State -> bool {
    (x: State) => AssetInv(x) && FrozenIn(x, a, id)
  }

  ghost function UnitsAt(a: Address, id: nat): State -> int {
    (x: State) => UnitsHeld(x, a, id)
  }

  lemma FrozenLaw(x: State, p: Param, gtxs: seq<Txn>, chain: Chain, a: Address, id: nat)
    requires Spares(p, a, id)
    ensures StepLaw(x, p, gtxs, chain, FrozenInv(a, id), UnitsAt(a, id), RevokedUnits(a, id))
  {
    hide AssetInv, FrozenIn, Spares, Transact, UnitsHeld, Revoked;
    if FrozenInv(a, id)(x) && Transact(x, p, gtxs, chain).Ok? {
      SparedStep(x, p, gtxs, chain, a, id);
    }
  }

  /** A committed group that neither thaws nor removes a frozen holding moves it by exactly what its revocations move, whatever
      else the group does. */
  lemma FrozenThroughGroup(s: State, g: Group, gtxs: seq<Txn>, chain: Chain, a: Address, id: nat)
    requires AssetInv(s) && FrozenIn(s, a, id) && Process(s, g, 0, gtxs, chain).Ok?
    requires forall e :: e in Events(s, g, 0, gtxs, chain) ==> Spares(e.param, a, id)
    ensures var t := Process(s, g, 0, gtxs, chain).value;
            FrozenIn(t, a, id) && UnitsHeld(t, a, id) == UnitsHeld(s, a, id) + Tally(s, g, 0, gtxs, chain, RevokedUnits(a, id))
  {
    hide AssetInv, FrozenIn, Spares, UnitsHeld, StepLaw, RevokedUnits, Process, Events, Tally;
    var ok := (p: Param) => Spares(p, a, id);
    forall x, p | ok(p)
      ensures StepLaw(x, p, gtxs, chain, FrozenInv(a, id), UnitsAt(a, id), RevokedUnits(a, id))
    {
      FrozenLaw(x, p, gtxs, chain, a, id);
    }
    ProcessLaw(s, g, 0, gtxs, chain, FrozenInv(a, id), UnitsAt(a, id), RevokedUnits(a, id), ok);
  }

  /** Over a whole run, as long as no committed transaction thaws a frozen holding, closes it out or destroys its asset, it stays
      frozen and its amount moves by exactly what revocations move, whatever transfers and programs the run contains. */
  lemma FrozenOverRuns(s: State, calls: seq<Call>, a: Address, id: nat)
    requires AssetInv(s) && FrozenIn(s, a, id)
    requires forall e :: e in RunEvents(s, calls) ==> Spares(e.param, a, id)
    ensures var t := Run(s, calls);
            && AssetInv(t) && FrozenIn(t, a, id)
            && UnitsHeld(t, a, id) == UnitsHeld(s, a, id) + RunTally(s, calls, RevokedUnits(a, id))
  {
    hide AssetInv, FrozenIn, Spares, SignatureFrame, UnitsHeld, StepLaw, RevokedUnits, RunEvents, RunTally, Run;
    var ok := (p: Param) => Spares(p, a, id);
    forall x, y | SignatureFrame(x, y) && FrozenInv(a, id)(x)
      ensures FrozenInv(a, id)(y) && UnitsAt(a, id)(y) == UnitsAt(a, id)(x)
    {
      ArraysKeepFrozen(x, y, a, id);
    }
    forall x, p, gtxs, chain | ok(p)
      ensures StepLaw(x, p, gtxs, chain, FrozenInv(a, id), UnitsAt(a, id), RevokedUnits(a, id))
    {
      FrozenLaw(x, p, gtxs, chain, a, id);
    }
    RunLawFor(s, calls, FrozenInv(a, id), UnitsAt(a, id), RevokedUnits(a, id), ok);
  }
}
