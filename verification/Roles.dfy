/** Asset roles: a role given up stays given up, over every run. */
module Roles {
  import opened Values
  import opened Teal
  import opened Ledger
  import opened LedgerFrames
  import opened LedgerAssets
  import opened LedgerRuns
  import opened AssetConservation

  function DefOf(s: State, id: nat): AssetDef
    requires Live(s, id)
  {
    s.accounts[s.assetDefs[id]].createdAssets[id]
  }

  /** The asset has been created, and if it still exists its role is blank. */
  predicate GivenUp(s: State, id: nat, r: Role) {
    id <= s.assetCounter && (Live(s, id) ==> RoleOf(DefOf(s, id), r) == "")
  }

  /** The transactions that the holder of a role must send. */
  predicate Needs(k: Kind, id: nat, r: Role) {
    match k
    case ModifyAsset(i, _) => i == id && r == Manager
    case DestroyAsset(i) => i == id && r == Manager
    case FreezeAsset(i, _, _) => i == id && r == Freezer
    case RevokeAsset(i, _, _, _) => i == id && r == Clawback
    case _ => false
  }

  // ---- Definitions across one transaction ----

  predicate SameDefs(s: State, t: State) {
    && s.accounts.Keys == t.accounts.Keys && t.assetDefs == s.assetDefs && t.assetCounter == s.assetCounter
    && forall a :: a in s.accounts ==> t.accounts[a].createdAssets == s.accounts[a].createdAssets
  }

  lemma MoveDefs(s: State, from: Address, to: Address, amount: nat, id: nat)
    requires MoveUnits(s, from, to, amount, id).Ok?
    ensures var t := MoveUnits(s, from, to, amount, id).value; SameDefs(s, t) && Holds(t, from, id)
  {
    MoveUnitsRoster(s, from, to, amount, id);
  }

  lemma OptInDefs(s: State, id: nat, a: Address)
    requires OptIntoASA(s, id, a).Ok?
    ensures SameDefs(s, OptIntoASA(s, id, a).value)
  {
  }

  lemma CloseDefs(s: State, from: Address, id: nat, closeTo: Address)
    requires Holds(s, from, id) && CloseUnits(s, from, id, closeTo).Ok?
    ensures SameDefs(s, CloseUnits(s, from, id, closeTo).value)
  {
  }

  lemma TransferDefs(s: State, from: Address, to: Address, amount: nat, id: nat, closeTo: Address)
    requires TransferUnits(s, from, to, amount, id, closeTo).Ok?
    ensures SameDefs(s, TransferUnits(s, from, to, amount, id, closeTo).value)
  {
    if amount == 0 && from == to {
      OptInDefs(s, id, from);
    }
    MoveDefs(BeforeTransfer(s, from, to, amount, id).value, from, to, amount, id);
    if closeTo != "" {
      CloseDefs(CheckAndMove(s, from, to, amount, id).value, from, id, closeTo);
    }
  }

  /** What one transaction does to the definition of asset `id`: nothing, creation, a legal change by its manager, or its end. */
  predicate DefStep(s: State, t: State, id: nat, sender: Address) {
    if Live(s, id) then
      || (Live(t, id) && DefOf(t, id) == DefOf(s, id))
      || (DefOf(s, id).manager == sender
          && (Live(t, id) ==> forall r :: RoleOf(DefOf(s, id), r) == "" ==> RoleOf(DefOf(t, id), r) == ""))
    else id <= s.assetCounter ==> !Live(t, id)
  }

  lemma SameDefsStep(s: State, t: State, id: nat, sender: Address)
    requires SameDefs(s, t)
    ensures DefStep(s, t, id, sender)
  {
  }

  lemma SetRolesKeepBlank(f: ModFields, d: AssetDef)
    requires SetRoles(f, d).Ok?
    ensures forall r :: RoleOf(d, r) == "" ==> RoleOf(SetRoles(f, d).value, r) == ""
  {
  }

  lemma ModifyStep(s: State, sender: Address, i: nat, f: ModFields, id: nat)
    requires AssetIndexOk(s) && Modify(s, sender, i, f).Ok?
    ensures DefStep(s, Modify(s, sender, i, f).value, id, sender)
  {
    SetRolesKeepBlank(f, GetAssetDef(s, i).value);
  }

  lemma DestroyStep(s: State, sender: Address, i: nat, id: nat)
    requires AssetIndexOk(s) && Destroy(s, sender, i).Ok?
    ensures DefStep(s, Destroy(s, sender, i).value, id, sender)
  {
    DestroyIndex(s, sender, i);
  }

  lemma DeployStep(s: State, a: Address, name: string, d: AsaSpec, id: nat)
    requires AssetIndexOk(s) && AddAsset(s, a, name, d).Ok?
    ensures DefStep(s, AddAsset(s, a, name, d).value, id, a)
  {
    AddAssetIndex(s, a, name, d);
  }

  lemma AssetKindStep(s: State, p: Param, id: nat)
    requires AssetIndexOk(s) && IsAssetKind(p.kind) && ApplyAssetKind(s, p).Ok?
    ensures DefStep(s, ApplyAssetKind(s, p).value, id, p.sender)
  {
    match p.kind
    case TransferAsset(to, amount, i) => TransferDefs(s, p.sender, to, amount, i, p.closeTo);
    case ModifyAsset(i, f) => ModifyStep(s, p.sender, i, f, id);
    case DestroyAsset(i) => DestroyStep(s, p.sender, i, id);
    case RevokeAsset(i, recipient, target, amount) => MoveDefs(s, target, recipient, amount, i);
    case FreezeAsset(_, _, _) => assert SameDefs(s, ApplyAssetKind(s, p).value);
    case OptInASA(i) => OptInDefs(s, i, p.sender);
  }

  lemma ApplyStep(s: State, p: Param, gtxs: seq<Txn>, chain: Chain, id: nat)
    requires AssetIndexOk(s) && Apply(s, p, gtxs, chain).Ok?
    ensures DefStep(s, Apply(s, p, gtxs, chain).value, id, p.sender)
  {
    var t := Apply(s, p, gtxs, chain).value;
    if p.kind.TransferAlgo? {
      PaymentFrame(s, p.sender, p.kind.to, p.kind.microAlgos, p.closeTo);
      OnlyAmountsKeeps(s, t);
    } else if p.kind.DeployASA? {
      DeployStep(s, p.sender, p.kind.name, chain.asaDefs[p.kind.name], id);
    } else if IsAssetKind(p.kind) {
      AssetKindStep(s, p, id);
    } else {
      AppKindFrame(s, p, gtxs, chain);
    }
  }

  lemma PrepareDefs(s: State, p: Param, gtxs: seq<Txn>, chain: Chain)
    requires Prepare(s, p, gtxs, chain).Ok?
    ensures SameDefs(s, Prepare(s, p, gtxs, chain).value) && p.sender in s.accounts
  {
    var s1 := DeductFee(s, p.sender, p.txn.fee).value;
    FeeFrame(s, p.sender, p.txn.fee);
    OnlyAmountsKeeps(s, s1);
    CheckSignatureFrame(s1, p, gtxs, chain);
    SignatureKeepsLedger(s1, CheckSignature(s1, p, gtxs, chain).value);
  }

  lemma CounterGrows(s: State, p: Param, gtxs: seq<Txn>, chain: Chain)
    requires Apply(s, p, gtxs, chain).Ok?
    ensures Apply(s, p, gtxs, chain).value.assetCounter >= s.assetCounter
  {
    if p.kind.TransferAlgo? {
      PaymentFrame(s, p.sender, p.kind.to, p.kind.microAlgos, p.closeTo);
    } else if p.kind.DeployASA? {
    } else if IsAssetKind(p.kind) {
      AssetKindCounter(s, p);
    } else {
      AppKindFrame(s, p, gtxs, chain);
    }
  }

  lemma AssetKindCounter(s: State, p: Param)
    requires IsAssetKind(p.kind) && ApplyAssetKind(s, p).Ok?
    ensures ApplyAssetKind(s, p).value.assetCounter == s.assetCounter
  {
    match p.kind
    case TransferAsset(to, amount, i) => TransferDefs(s, p.sender, to, amount, i, p.closeTo);
    case RevokeAsset(i, recipient, target, amount) => MoveDefs(s, target, recipient, amount, i);
    case _ =>
  }

  /** Such a transaction succeeds only if its sender holds the role. */
  lemma NeedsHolder(s: State, p: Param, gtxs: seq<Txn>, chain: Chain, id: nat, r: Role)
    requires Needs(p.kind, id, r) && Apply(s, p, gtxs, chain).Ok?
    ensures Live(s, id) && RoleOf(DefOf(s, id), r) == p.sender
  {
    assert IsAssetKind(p.kind) && ApplyAssetKind(s, p).Ok?;
  }

  lemma ApplyGivenUp(s: State, p: Param, gtxs: seq<Txn>, chain: Chain, id: nat, r: Role)
    requires AssetIndexOk(s) && GivenUp(s, id, r) && p.sender != "" && Apply(s, p, gtxs, chain).Ok?
    ensures GivenUp(Apply(s, p, gtxs, chain).value, id, r) && !Needs(p.kind, id, r)
  {
    ApplyStep(s, p, gtxs, chain, id);
    CounterGrows(s, p, gtxs, chain);
    if Needs(p.kind, id, r) {
      NeedsHolder(s, p, gtxs, chain, id, r);
    }
  }

  /** One transaction that succeeds leaves a given-up role given up, and one that needs such a role does not succeed. */
  lemma TransactGivenUp(s: State, p: Param, gtxs: seq<Txn>, chain: Chain, id: nat, r: Role)
    requires AssetInv(s) && GivenUp(s, id, r) && Transact(s, p, gtxs, chain).Ok?
    ensures GivenUp(Transact(s, p, gtxs, chain).value, id, r) && !Needs(p.kind, id, r)
  {
    PrepareDefs(s, p, gtxs, chain);
    PrepareKeepsAssets(s, p, gtxs, chain);
    SenderIsNotBlank(s, p.sender);
    ApplyGivenUp(Prepare(s, p, gtxs, chain).value, p, gtxs, chain, id, r);
  }

  lemma SenderIsNotBlank(s: State, a: Address)
    requires AssetIndexOk(s) && a in s.accounts
    ensures a != ""
  {
  }

  // ---- Over runs ----

  lemma GivenUpLaw(s: State, p: Param, gtxs: seq<Txn>, chain: Chain, id: nat, r: Role)
    ensures KeepsLaw(s, p, gtxs, chain, (x: State) => AssetInv(x) && GivenUp(x, id, r))
  {
    if AssetInv(s) && GivenUp(s, id, r) && Transact(s, p, gtxs, chain).Ok? {
      TransactGivenUp(s, p, gtxs, chain, id, r);
      TransactAssets(s, p, gtxs, chain);
    }
  }

  /** A blank role of an asset is blank after every run. */
  lemma BlankForever(s: State, calls: seq<Call>, id: nat, r: Role)
    requires AssetInv(s) && GivenUp(s, id, r)
    ensures AssetInv(Run(s, calls)) && GivenUp(Run(s, calls), id, r)
  {
    var inv := (x: State) => AssetInv(x) && GivenUp(x, id, r);
    forall t, u | SignatureFrame(t, u) && inv(t)
      ensures inv(u)
    {
      ArraysKeepAssets(t, u);
      SignatureKeepsLedger(t, u);
    }
    forall t, p, gtxs, chain
      ensures KeepsLaw(t, p, gtxs, chain, inv)
    {
      GivenUpLaw(t, p, gtxs, chain, id, r);
    }
    RunKeepsInvariant(s, calls, inv);
  }

  /** Once a role is blank, every later group that contains a transaction needing it fails: no modification or destruction
      without a manager, no freeze without a freeze address, no revocation without a clawback address. */
  lemma BlockedForever(s: State, calls: seq<Call>, id: nat, r: Role, last: Call, k: nat)
    requires AssetInv(s) && GivenUp(s, id, r)
    requires k < |last.group| && Needs(last.group[k].kind, id, r)
    ensures ExecuteTx(Run(s, calls), last.group, last.chain).Err?
  {
    BlankForever(s, calls, id, r);
    var t, g, chain := Run(s, calls), last.group, last.chain;
    var inv := (x: State) => AssetInv(x) && GivenUp(x, id, r);
    OpenedFrame(t);
    ArraysKeepAssets(t, Opened(t));
    SignatureKeepsLedger(t, Opened(t));
    forall x, p
      ensures KeepsLaw(x, p, Txns(g), chain, inv)
    {
      GivenUpLaw(x, p, Txns(g), chain, id, r);
    }
    forall x | inv(x)
      ensures Transact(x, g[k], Txns(g), chain).Err?
    {
      if Transact(x, g[k], Txns(g), chain).Ok? {
        TransactGivenUp(x, g[k], Txns(g), chain, id, r);
      }
    }
    BlockedGroupFails(Opened(t), g, 0, k, Txns(g), chain, inv);
  }

  /** Without a manager an asset is never destroyed and no part of its definition ever changes. */
  lemma UnmanagedForever(s: State, calls: seq<Call>, id: nat)
    requires AssetInv(s) && Live(s, id) && DefOf(s, id).manager == ""
    ensures Live(Run(s, calls), id) && DefOf(Run(s, calls), id) == DefOf(s, id)
  {
    var d := DefOf(s, id);
    var inv := (x: State) => AssetInv(x) && Live(x, id) && DefOf(x, id) == d;
    forall t, u | SignatureFrame(t, u) && inv(t)
      ensures inv(u)
    {
      ArraysKeepAssets(t, u);
      SignatureKeepsLedger(t, u);
    }
    forall t, p, gtxs, chain
      ensures KeepsLaw(t, p, gtxs, chain, inv)
    {
      if inv(t) && Transact(t, p, gtxs, chain).Ok? {
        TransactUnmanaged(t, p, gtxs, chain, id);
      }
    }
    RunKeepsInvariant(s, calls, inv);
  }

  lemma TransactUnmanaged(s: State, p: Param, gtxs: seq<Txn>, chain: Chain, id: nat)
    requires AssetInv(s) && Live(s, id) && DefOf(s, id).manager == "" && Transact(s, p, gtxs, chain).Ok?
    ensures var t := Transact(s, p, gtxs, chain).value; AssetInv(t) && Live(t, id) && DefOf(t, id) == DefOf(s, id)
  {
    var s1 := Prepare(s, p, gtxs, chain).value;
    TransactAssets(s, p, gtxs, chain);
    PrepareDefs(s, p, gtxs, chain);
    PrepareKeepsAssets(s, p, gtxs, chain);
    SameDefsStep(s, s1, id, p.sender);
    SenderIsNotBlank(s, p.sender);
    ApplyStep(s1, p, gtxs, chain, id);
  }
}
