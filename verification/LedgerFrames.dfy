/** Which parts of the state each kind of transaction leaves alone. */
module LedgerFrames {
  import opened Values
  import opened Teal
  import opened TealRun
  import opened TealFrames
  import opened Ledger
  import Parser

  predicate SameAmounts(s: State, t: State) {
    s.accounts.Keys == t.accounts.Keys && forall a :: a in s.accounts ==> t.accounts[a].amount == s.accounts[a].amount
  }

  predicate SameMins(s: State, t: State) {
    s.accounts.Keys == t.accounts.Keys && forall a :: a in s.accounts ==> t.accounts[a].minBalance == s.accounts[a].minBalance
  }

  /** Asset definitions, holdings and the asset index are the same. */
  predicate SameAssets(s: State, t: State) {
    && s.accounts.Keys == t.accounts.Keys && t.assetDefs == s.assetDefs && t.assetCounter == s.assetCounter
    && forall a :: a in s.accounts ==>
         t.accounts[a].assets == s.accounts[a].assets && t.accounts[a].createdAssets == s.accounts[a].createdAssets
  }

  /** Applications and local states are the same, including their key-value maps. */
  predicate SameAppStates(s: State, t: State) {
    && s.accounts.Keys == t.accounts.Keys && t.globalApps == s.globalApps && t.appCounter == s.appCounter
    && forall a :: a in s.accounts ==>
         t.accounts[a].createdApps == s.accounts[a].createdApps && t.accounts[a].appsLocalState == s.accounts[a].appsLocalState
  }

  lemma TealKeepsLedger(s: State, t: State)
    requires TealFrame(s, t)
    ensures SameAmounts(s, t) && SameMins(s, t) && SameAssets(s, t)
  {
    forall a | a in s.accounts
      ensures a in t.accounts && SameAccount(s.accounts[a], t.accounts[a])
    {
    }
  }

  lemma RunTealFrame(s: State, program: string, mode: Parser.Mode, p: Param, gtxs: seq<Txn>, chain: Chain)
    ensures TealFrame(s, RunTeal(s, program, mode, p, gtxs, chain).st)
  {
    var parsed := Parser.Parse(program, mode, |s.args|, chain.env);
    if parsed.Ok? {
      var c := TealCtx(p.txn, gtxs, chain.round, chain.timestamp, chain.env);
      RunFrame(parsed.value.instrs, InitMachine(s), c);
    } else {
      OnlyHeapFrame(s, s);
    }
  }

  lemma RunAcceptedFrame(s: State, program: string, mode: Parser.Mode, p: Param, gtxs: seq<Txn>, chain: Chain)
    requires RunAccepted(s, program, mode, p, gtxs, chain).Ok?
    ensures TealFrame(s, RunAccepted(s, program, mode, p, gtxs, chain).value)
  {
    RunTealFrame(s, program, mode, p, gtxs, chain);
  }

  // ---- Fee, signature and payment ----

  /** Equal except for account balances. */
  predicate OnlyAmounts(s: State, t: State) {
    && t == s.(accounts := t.accounts) && s.accounts.Keys == t.accounts.Keys
    && forall a :: a in s.accounts ==> t.accounts[a] == s.accounts[a].(amount := t.accounts[a].amount)
  }

  lemma OnlyAmountsKeeps(s: State, t: State)
    requires OnlyAmounts(s, t)
    ensures SameMins(s, t) && SameAssets(s, t) && SameAppStates(s, t)
  {
  }

  lemma CreditFrame(s: State, t: State, a: Address, acc: Account)
    requires OnlyAmounts(s, t) && a in t.accounts && acc == t.accounts[a].(amount := acc.amount)
    ensures OnlyAmounts(s, WithAccount(t, a, acc))
  {
  }

  lemma FeeFrame(s: State, a: Address, fee: nat)
    requires DeductFee(s, a, fee).Ok?
    ensures OnlyAmounts(s, DeductFee(s, a, fee).value)
  {
  }

  lemma PaymentFrame(s: State, from: Address, to: Address, amount: nat, closeTo: Address)
    requires TransferAlgos(s, from, to, amount, closeTo).Ok?
    ensures OnlyAmounts(s, TransferAlgos(s, from, to, amount, closeTo).value)
  {
    var s1 := Credit(s, from, -(amount as int));
    CreditFrame(s, s, from, s1.accounts[from]);
    var s2 := Credit(s1, to, amount);
    CreditFrame(s, s1, to, s2.accounts[to]);
    if closeTo != "" {
      var s3 := Credit(s2, closeTo, s2.accounts[from].amount);
      CreditFrame(s, s2, closeTo, s3.accounts[closeTo]);
      CreditFrame(s, s3, from, s3.accounts[from].(amount := 0));
    }
  }

  predicate SignatureFrame(s: State, t: State) {
    TealFrame(s.(heap := t.heap, args := t.args), t)
  }

  lemma CheckSignatureFrame(s: State, p: Param, gtxs: seq<Txn>, chain: Chain)
    requires CheckSignature(s, p, gtxs, chain).Ok?
    ensures SignatureFrame(s, CheckSignature(s, p, gtxs, chain).value)
  {
    match p.sign
    case SecretKey => OnlyHeapFrame(s, s);
    case LogicSignature(lsig) =>
      var s1 := WithArgs(s, lsig.value.args);
      RunAcceptedFrame(s1, lsig.value.program, Parser.Signature, p, gtxs, chain);
  }

  lemma SignatureKeepsLedger(s: State, t: State)
    requires SignatureFrame(s, t)
    ensures SameAmounts(s, t) && SameMins(s, t) && SameAssets(s, t)
  {
    TealKeepsLedger(s.(heap := t.heap, args := t.args), t);
  }

  // ---- Copies ----

  lemma DetachedAccountFrame(acc: Account, m: nat, n: nat)
    ensures SameAccount(acc, DetachedAccount(acc, m, n))
  {
    var copy := DetachedAccount(acc, m, n);
    assert copy.createdApps.Keys == acc.createdApps.Keys && copy.appsLocalState.Keys == acc.appsLocalState.Keys;
  }

  /** The copy that a group starts from differs from the store in references only. */
  lemma OpenedFrame(s: State)
    ensures SignatureFrame(s, Opened(s))
  {
    if RefersOutside(s) {
      forall a | a in s.accounts
        ensures SameAccount(s.accounts[a], Opened(s).accounts[a])
      {
        DetachedAccountFrame(s.accounts[a], |s.heap.own|, |s.heap.shared|);
      }
    } else {
      OnlyHeapFrame(s.(args := []), s.(args := []));
    }
  }

  lemma ArgsFrame(s: State, args: seq<nat>)
    ensures SignatureFrame(s, WithArgs(s, args))
  {
    OnlyHeapFrame(WithArgs(s, args), WithArgs(s, args));
  }

  lemma SharedFrame(s: State, arrays: seq<Bytes>)
    ensures SignatureFrame(s, WithShared(s, arrays))
  {
    OnlyHeapFrame(WithShared(s, arrays), WithShared(s, arrays));
  }

  // ---- Assets ----

  lemma AddAssetFrame(s: State, a: Address, name: string, d: AsaSpec)
    requires AddAsset(s, a, name, d).Ok?
    ensures var t := AddAsset(s, a, name, d).value; SameAmounts(s, t) && SameAppStates(s, t)
  {
  }

  lemma OptInAsaFrame(s: State, id: nat, a: Address)
    requires OptIntoASA(s, id, a).Ok?
    ensures var t := OptIntoASA(s, id, a).value; SameAmounts(s, t) && SameAppStates(s, t)
  {
  }

  lemma AddUnitsFrame(s: State, a: Address, id: nat, delta: int)
    requires a in s.accounts && id in s.accounts[a].assets
    ensures var t := AddUnits(s, a, id, delta);
            && SameAmounts(s, t) && SameMins(s, t) && SameAppStates(s, t)
            && forall b :: b in s.accounts ==> t.accounts[b].assets.Keys == s.accounts[b].assets.Keys
  {
  }

  lemma MoveUnitsFrame(s: State, from: Address, to: Address, amount: nat, id: nat)
    requires MoveUnits(s, from, to, amount, id).Ok?
    ensures var t := MoveUnits(s, from, to, amount, id).value;
            SameAmounts(s, t) && SameMins(s, t) && SameAppStates(s, t) && from in t.accounts && id in t.accounts[from].assets
  {
    hide AddUnits;
    var s1 := AddUnits(s, from, id, -(amount as int));
    AddUnitsFrame(s, from, id, -(amount as int));
    AddUnitsFrame(s1, to, id, amount);
  }

  lemma CloseUnitsFrame(s: State, from: Address, id: nat, closeTo: Address)
    requires from in s.accounts && id in s.accounts[from].assets && CloseUnits(s, from, id, closeTo).Ok?
    ensures var t := CloseUnits(s, from, id, closeTo).value; SameAmounts(s, t) && SameAppStates(s, t)
  {
    var s1 := AddUnits(s, closeTo, id, s.accounts[from].assets[id].amount);
    AddUnitsFrame(s, closeTo, id, s.accounts[from].assets[id].amount);
    assert CloseUnits(s, from, id, closeTo) == Ok(WithAccount(s1, from, AccountCloseAsset(s1.accounts[from], id)));
  }

  lemma TransferUnitsFrame(s: State, from: Address, to: Address, amount: nat, id: nat, closeTo: Address)
    requires TransferUnits(s, from, to, amount, id, closeTo).Ok?
    ensures var t := TransferUnits(s, from, to, amount, id, closeTo).value; SameAmounts(s, t) && SameAppStates(s, t)
  {
    if amount == 0 && from == to {
      OptInAsaFrame(s, id, from);
    }
    var s1 := BeforeTransfer(s, from, to, amount, id).value;
    MoveUnitsFrame(s1, from, to, amount, id);
    if closeTo != "" {
      CloseUnitsFrame(CheckAndMove(s, from, to, amount, id).value, from, id, closeTo);
    }
  }

  lemma RoleKindsFrame(s: State, p: Param)
    requires p.kind.ModifyAsset? || p.kind.FreezeAsset?
    requires ApplyAssetKind(s, p).Ok?
    ensures var t := ApplyAssetKind(s, p).value; SameAmounts(s, t) && SameMins(s, t) && SameAppStates(s, t)
  {
  }

  lemma DestroyFrame(s: State, sender: Address, id: nat)
    requires Destroy(s, sender, id).Ok?
    ensures var t := Destroy(s, sender, id).value; SameAmounts(s, t) && SameAppStates(s, t)
  {
  }

  lemma AssetKindFrame(s: State, p: Param)
    requires IsAssetKind(p.kind) && ApplyAssetKind(s, p).Ok?
    ensures var t := ApplyAssetKind(s, p).value; SameAmounts(s, t) && SameAppStates(s, t)
  {
    match p.kind
    case TransferAsset(to, amount, id) => TransferUnitsFrame(s, p.sender, to, amount, id, p.closeTo);
    case RevokeAsset(id, recipient, target, amount) => MoveUnitsFrame(s, target, recipient, amount, id);
    case DestroyAsset(id) => DestroyFrame(s, p.sender, id);
    case OptInASA(id) => OptInAsaFrame(s, id, p.sender);
    case _ => RoleKindsFrame(s, p);
  }

  predicate SameArrays(s: State, t: State) {
    t.heap == s.heap && t.args == s.args
  }

  lemma TransferArrays(s: State, from: Address, to: Address, amount: nat, id: nat, closeTo: Address)
    requires TransferUnits(s, from, to, amount, id, closeTo).Ok?
    ensures SameArrays(s, TransferUnits(s, from, to, amount, id, closeTo).value)
  {
    var s1 := BeforeTransfer(s, from, to, amount, id).value;
    assert SameArrays(s, s1);
    assert SameArrays(s, MoveUnits(s1, from, to, amount, id).value);
  }

  /** Asset operations touch no byte array. */
  lemma AssetKindArrays(s: State, p: Param)
    requires IsAssetKind(p.kind) && ApplyAssetKind(s, p).Ok?
    ensures SameArrays(s, ApplyAssetKind(s, p).value)
  {
    hide TransferUnits, SetRoles;
    match p.kind
    case TransferAsset(to, amount, id) => TransferArrays(s, p.sender, to, amount, id, p.closeTo);
    case _ =>
  }

  lemma PaymentArrays(s: State, t: State)
    requires OnlyAmounts(s, t)
    ensures SameArrays(s, t)
  {
  }

  lemma DeployArrays(s: State, a: Address, name: string, d: AsaSpec)
    requires AddAsset(s, a, name, d).Ok?
    ensures SameArrays(s, AddAsset(s, a, name, d).value)
  {
  }

  // ---- Applications ----

  predicate SameMoneyAndAssets(s: State, t: State) {
    SameAmounts(s, t) && SameAssets(s, t)
  }

  lemma BeginAppFrame(s: State, a: Address, k: Kind, clear: string)
    requires k.DeploySSC? && BeginApp(s, a, k, clear).Ok?
    ensures SameMoneyAndAssets(s, BeginApp(s, a, k, clear).value)
  {
  }

  lemma FinishAppFrame(s: State, a: Address)
    requires FinishApp(s, a).Ok?
    ensures SameMoneyAndAssets(s, FinishApp(s, a).value)
  {
  }

  lemma JoinAppFrame(s: State, a: Address, appID: nat)
    requires JoinApp(s, a, appID).Ok?
    ensures SameMoneyAndAssets(s, JoinApp(s, a, appID).value)
  {
  }

  lemma LeaveAppFrame(s: State, a: Address, appID: nat)
    requires LeaveApp(s, a, appID).Ok?
    ensures SameMoneyAndAssets(s, LeaveApp(s, a, appID).value)
  {
  }

  lemma RemoveAppFrame(s: State, appID: nat)
    requires RemoveApp(s, appID).Ok?
    ensures SameMoneyAndAssets(s, RemoveApp(s, appID).value)
  {
  }

  lemma SetProgramsFrame(s: State, appID: nat, approval: string, clear: string)
    requires SetPrograms(s, appID, approval, clear).Ok?
    ensures SameMoneyAndAssets(s, SetPrograms(s, appID, approval, clear).value)
  {
  }

  lemma RunAcceptedKeeps(s: State, program: string, mode: Parser.Mode, p: Param, gtxs: seq<Txn>, chain: Chain)
    requires RunAccepted(s, program, mode, p, gtxs, chain).Ok?
    ensures SameMoneyAndAssets(s, RunAccepted(s, program, mode, p, gtxs, chain).value)
  {
    RunAcceptedFrame(s, program, mode, p, gtxs, chain);
    TealKeepsLedger(s, RunAccepted(s, program, mode, p, gtxs, chain).value);
  }

  lemma MoneyTransitive(s: State, t: State, u: State)
    requires SameMoneyAndAssets(s, t) && SameMoneyAndAssets(t, u)
    ensures SameMoneyAndAssets(s, u)
  {
  }

  lemma CallAppFrame(s: State, p: Param, appID: nat, gtxs: seq<Txn>, chain: Chain)
    requires CallApp(s, p, appID, gtxs, chain).Ok?
    ensures SameMoneyAndAssets(s, CallApp(s, p, appID, gtxs, chain).value)
  {
    hide SameMoneyAndAssets, RunAccepted;
    RunAcceptedKeeps(s, GetApp(s, appID).value.approval, Parser.Application, p, gtxs, chain);
  }

  lemma ClearAppFrame(s: State, p: Param, appID: nat, gtxs: seq<Txn>, chain: Chain)
    requires ClearApp(s, p, appID, gtxs, chain).Ok?
    ensures SameMoneyAndAssets(s, ClearApp(s, p, appID, gtxs, chain).value)
  {
    hide RunTeal, LeaveApp, TealFrame;
    var t := RunTeal(s, GetApp(s, appID).value.clear, Parser.Application, p, gtxs, chain).st;
    RunTealFrame(s, GetApp(s, appID).value.clear, Parser.Application, p, gtxs, chain);
    TealKeepsLedger(s, t);
    LeaveAppFrame(t, p.sender, appID);
    MoneyTransitive(s, t, LeaveApp(t, p.sender, appID).value);
  }

  lemma AddAppFrame(s: State, p: Param, gtxs: seq<Txn>, chain: Chain)
    requires p.kind.DeploySSC? && AddApp(s, p, gtxs, chain).Ok?
    ensures SameMoneyAndAssets(s, AddApp(s, p, gtxs, chain).value)
  {
    hide SameMoneyAndAssets, BeginApp, RunAccepted, FinishApp;
    var s1 := BeginApp(s, p.sender, p.kind, p.kind.approval).value;
    var s2 := RunAccepted(s1, p.kind.approval, Parser.Application, p, gtxs, chain).value;
    BeginAppFrame(s, p.sender, p.kind, p.kind.approval);
    RunAcceptedKeeps(s1, p.kind.approval, Parser.Application, p, gtxs, chain);
    FinishAppFrame(s2, p.sender);
    MoneyTransitive(s, s1, s2);
    MoneyTransitive(s, s2, FinishApp(s2, p.sender).value);
  }

  lemma OptInAppFrame(s: State, p: Param, appID: nat, gtxs: seq<Txn>, chain: Chain)
    requires OptInApp(s, p, appID, gtxs, chain).Ok?
    ensures SameMoneyAndAssets(s, OptInApp(s, p, appID, gtxs, chain).value)
  {
    hide SameMoneyAndAssets, JoinApp, RunAccepted;
    var s1 := JoinApp(s, p.sender, appID).value;
    JoinAppFrame(s, p.sender, appID);
    RunAcceptedKeeps(s1, GetApp(s, appID).value.approval, Parser.Application, p, gtxs, chain);
    MoneyTransitive(s, s1, OptInApp(s, p, appID, gtxs, chain).value);
  }

  /** Application calls never touch microAlgos, asset definitions or holdings, whatever their programs do. */
  lemma AppKindFrame(s: State, p: Param, gtxs: seq<Txn>, chain: Chain)
    requires IsAppKind(p.kind) && ApplyAppKind(s, p, gtxs, chain).Ok?
    ensures SameMoneyAndAssets(s, ApplyAppKind(s, p, gtxs, chain).value)
  {
    hide SameMoneyAndAssets, CallApp, ClearApp, LeaveApp, RemoveApp, SetPrograms, AddApp, OptInApp;
    match p.kind
    case CallNoOp(appID) => CallAppFrame(s, p, appID, gtxs, chain);
    case CloseOut(appID) =>
      var s1 := CallApp(s, p, appID, gtxs, chain).value;
      CallAppFrame(s, p, appID, gtxs, chain);
      LeaveAppFrame(s1, p.sender, appID);
      MoneyTransitive(s, s1, LeaveApp(s1, p.sender, appID).value);
    case Clear(appID) => ClearAppFrame(s, p, appID, gtxs, chain);
    case Delete(appID) =>
      var s1 := CallApp(s, p, appID, gtxs, chain).value;
      CallAppFrame(s, p, appID, gtxs, chain);
      RemoveAppFrame(s1, appID);
      MoneyTransitive(s, s1, RemoveApp(s1, appID).value);
    case Update(appID, approval, clear) =>
      var s1 := CallApp(s, p, appID, gtxs, chain).value;
      CallAppFrame(s, p, appID, gtxs, chain);
      SetProgramsFrame(s1, appID, approval, clear);
      MoneyTransitive(s, s1, SetPrograms(s1, appID, approval, clear).value);
    case DeploySSC(_, _, _) => AddAppFrame(s, p, gtxs, chain);
    case OptInSSC(appID) => OptInAppFrame(s, p, appID, gtxs, chain);
  }

  /** The state that the program of an application transaction leaves. */
  function Ran(s: State, p: Param, gtxs: seq<Txn>, chain: Chain): State
    requires IsAppKind(p.kind) && AppRun(s, p).Some?
  {
    RunTeal(AppRun(s, p).value.0, AppRun(s, p).value.1, Parser.Application, p, gtxs, chain).st
  }

  /** An application transaction that succeeds has run its program, and then did at most one thing more. */
  lemma AppKindAfterRun(s: State, p: Param, gtxs: seq<Txn>, chain: Chain)
    requires IsAppKind(p.kind) && ApplyAppKind(s, p, gtxs, chain).Ok?
    ensures AppRun(s, p).Some?
    ensures var t := Ran(s, p, gtxs, chain);
            ApplyAppKind(s, p, gtxs, chain) ==
            match p.kind
            case CallNoOp(_) => Ok(t)
            case CloseOut(appID) => LeaveApp(t, p.sender, appID)
            case Clear(appID) => LeaveApp(t, p.sender, appID)
            case Delete(appID) => RemoveApp(t, appID)
            case Update(appID, approval, clear) => SetPrograms(t, appID, approval, clear)
            case DeploySSC(_, _, _) => FinishApp(t, p.sender)
            case OptInSSC(_) => Ok(t)
  {
    hide RunTeal, LeaveApp, RemoveApp, SetPrograms, BeginApp, FinishApp, JoinApp;
    match p.kind
    case _ =>
  }
}
