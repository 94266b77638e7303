/** The programs a ledger holds: where they come from, and that a test they all pass is passed after every transaction. */
module LedgerTexts {
  import opened Values
  import opened Teal
  import opened TealFrames
  import opened Ledger
  import opened LedgerFrames
  import Parser

  /** A property of a program text under an application's identifier. */
  type Test = (nat, string) -> bool

  /** A text that passes as a new program, which starts under index 0, passes under every identifier. */
  ghost predicate NewIsHardest(ok: Test) {
    forall id: nat, text: string :: ok(0, text) ==> ok(id, text)
  }

  predicate AppTexts(apps: map<nat, App>, ok: Test) {
    forall id :: id in apps ==> ok(id, apps[id].approval) && ok(id, apps[id].clear)
  }

  /** Every program in the store passes the test. */
  predicate Texts(s: State, ok: Test) {
    forall a :: a in s.accounts ==> AppTexts(s.accounts[a].createdApps, ok)
  }

  /** Every program that the transaction brings passes the test. */
  predicate ParamTexts(p: Param, ok: Test) {
    && (p.kind.DeploySSC? ==> ok(0, p.kind.approval))
    && (p.kind.Update? ==> ok(0, p.kind.newApproval) && ok(0, p.kind.newClear))
    && (p.sign.LogicSignature? && p.sign.lsig.Some? ==> ok(0, p.sign.lsig.value.program))
  }

  lemma WeakerTexts(s: State, ok: Test, weaker: Test)
    requires Texts(s, ok) && forall id, text :: ok(id, text) ==> weaker(id, text)
    ensures Texts(s, weaker)
  {
    forall a | a in s.accounts
      ensures AppTexts(s.accounts[a].createdApps, weaker)
    {
      assert AppTexts(s.accounts[a].createdApps, ok);
    }
  }

  lemma WeakerParamTexts(p: Param, ok: Test, weaker: Test)
    requires ParamTexts(p, ok) && forall id, text :: ok(id, text) ==> weaker(id, text)
    ensures ParamTexts(p, weaker)
  {
  }

  // ---- Steps that bring no program ----

  lemma SameAppTexts(s: State, t: State, ok: Test)
    requires Texts(s, ok) && SameAppStates(s, t)
    ensures Texts(t, ok)
  {
    forall a | a in t.accounts
      ensures AppTexts(t.accounts[a].createdApps, ok)
    {
      assert AppTexts(s.accounts[a].createdApps, ok);
    }
  }

  lemma FrameTexts(s: State, t: State, ok: Test)
    requires Texts(s, ok) && TealFrame(s, t)
    ensures Texts(t, ok)
  {
    forall a, id | a in t.accounts && id in t.accounts[a].createdApps
      ensures ok(id, t.accounts[a].createdApps[id].approval) && ok(id, t.accounts[a].createdApps[id].clear)
    {
      assert SameAccount(s.accounts[a], t.accounts[a]) && AppTexts(s.accounts[a].createdApps, ok);
      assert SameApp(s.accounts[a].createdApps[id], t.accounts[a].createdApps[id]);
    }
  }

  lemma SignatureTexts(s: State, t: State, ok: Test)
    requires Texts(s, ok) && SignatureFrame(s, t)
    ensures Texts(t, ok)
  {
    SameAppTexts(s, s.(heap := t.heap, args := t.args), ok);
    FrameTexts(s.(heap := t.heap, args := t.args), t, ok);
  }

  lemma ReplaceTexts(s: State, a: Address, acc: Account, ok: Test)
    requires Texts(s, ok) && AppTexts(acc.createdApps, ok)
    ensures Texts(WithAccount(s, a, acc), ok)
  {
    hide AppTexts;
  }

  lemma AppPasses(s: State, appID: nat, ok: Test)
    requires Texts(s, ok) && GetApp(s, appID).Ok?
    ensures ok(appID, GetApp(s, appID).value.approval) && ok(appID, GetApp(s, appID).value.clear)
  {
    assert AppTexts(s.accounts[AppOwner(s, appID).value].createdApps, ok);
  }

  /** The identifier under which a transaction runs its program. */
  function RunID(k: Kind): nat
    requires IsAppKind(k)
  {
    match k
    case CallNoOp(appID) => appID
    case CloseOut(appID) => appID
    case Clear(appID) => appID
    case Delete(appID) => appID
    case Update(appID, _, _) => appID
    case DeploySSC(_, _, _) => 0
    case OptInSSC(appID) => appID
  }

  /** Whatever program a transaction runs is one of the application it names, or the one it brings. */
  lemma AppRunPasses(s: State, p: Param, ok: Test)
    requires Texts(s, ok) && ParamTexts(p, ok) && IsAppKind(p.kind) && AppRun(s, p).Some?
    ensures ok(RunID(p.kind), AppRun(s, p).value.1)
  {
    hide Texts, BeginApp;
    match p.kind
    case CallNoOp(appID) => AppPasses(s, appID, ok);
    case CloseOut(appID) => AppPasses(s, appID, ok);
    case Clear(appID) => AppPasses(s, appID, ok);
    case Delete(appID) => AppPasses(s, appID, ok);
    case Update(appID, _, _) => AppPasses(s, appID, ok);
    case DeploySSC(_, _, _) =>
    case OptInSSC(appID) => AppPasses(s, appID, ok);
  }

  // ---- Applications ----

  lemma LeaveTexts(s: State, a: Address, appID: nat, ok: Test)
    requires Texts(s, ok) && LeaveApp(s, a, appID).Ok?
    ensures Texts(LeaveApp(s, a, appID).value, ok)
  {
    ReplaceTexts(s, a, LeaveApp(s, a, appID).value.accounts[a], ok);
  }

  lemma RemoveTexts(s: State, appID: nat, ok: Test)
    requires Texts(s, ok) && RemoveApp(s, appID).Ok?
    ensures Texts(RemoveApp(s, appID).value, ok)
  {
    var a := AppOwner(s, appID).value;
    assert AppTexts(s.accounts[a].createdApps, ok);
    ReplaceTexts(s, a, RemoveApp(s, appID).value.accounts[a], ok);
  }

  lemma SetProgramsTexts(s: State, appID: nat, approval: string, clear: string, ok: Test)
    requires Texts(s, ok) && ok(appID, approval) && ok(appID, clear) && SetPrograms(s, appID, approval, clear).Ok?
    ensures Texts(SetPrograms(s, appID, approval, clear).value, ok)
  {
    var a := AppOwner(s, appID).value;
    assert AppTexts(s.accounts[a].createdApps, ok);
    ReplaceTexts(s, a, SetPrograms(s, appID, approval, clear).value.accounts[a], ok);
  }

  lemma BeginTexts(s: State, a: Address, k: Kind, clear: string, ok: Test)
    requires Texts(s, ok) && k.DeploySSC? && ok(0, k.approval) && ok(0, clear) && BeginApp(s, a, k, clear).Ok?
    ensures Texts(BeginApp(s, a, k, clear).value, ok)
  {
    assert AppTexts(s.accounts[a].createdApps, ok);
    ReplaceTexts(s, a, BeginApp(s, a, k, clear).value.accounts[a], ok);
  }

  lemma FinishTexts(s: State, a: Address, ok: Test)
    requires Texts(s, ok) && NewIsHardest(ok) && FinishApp(s, a).Ok?
    ensures Texts(FinishApp(s, a).value, ok)
  {
    assert AppTexts(s.accounts[a].createdApps, ok);
    AppPasses(s, 0, ok);
    ReplaceTexts(s, a, FinishApp(s, a).value.accounts[a], ok);
  }

  lemma JoinTexts(s: State, a: Address, appID: nat, ok: Test)
    requires Texts(s, ok) && JoinApp(s, a, appID).Ok?
    ensures Texts(JoinApp(s, a, appID).value, ok)
  {
    assert AppTexts(s.accounts[a].createdApps, ok);
    ReplaceTexts(s, a, JoinApp(s, a, appID).value.accounts[a], ok);
  }

  /** The state that the program of an application transaction starts on. */
  lemma AppRunTexts(s: State, p: Param, ok: Test)
    requires Texts(s, ok) && ParamTexts(p, ok) && IsAppKind(p.kind) && AppRun(s, p).Some?
    ensures Texts(AppRun(s, p).value.0, ok)
  {
    hide Texts, BeginApp, JoinApp;
    match p.kind
    case DeploySSC(approval, _, _) => BeginTexts(s, p.sender, p.kind, approval, ok);
    case OptInSSC(appID) => JoinTexts(s, p.sender, appID, ok);
    case _ =>
  }

  lemma AppKindTexts(s: State, p: Param, gtxs: seq<Txn>, chain: Chain, ok: Test)
    requires Texts(s, ok) && NewIsHardest(ok) && ParamTexts(p, ok) && IsAppKind(p.kind) && ApplyAppKind(s, p, gtxs, chain).Ok?
    ensures Texts(ApplyAppKind(s, p, gtxs, chain).value, ok)
  {
    hide Texts, AppRun, RunTeal, TealFrame, ApplyAppKind, LeaveApp, RemoveApp, SetPrograms, FinishApp;
    AppKindAfterRun(s, p, gtxs, chain);
    AppRunTexts(s, p, ok);
    var (s1, program) := AppRun(s, p).value;
    var t := Ran(s, p, gtxs, chain);
    RunTealFrame(s1, program, Parser.Application, p, gtxs, chain);
    FrameTexts(s1, t, ok);
    match p.kind
    case CallNoOp(_) =>
    case CloseOut(appID) => LeaveTexts(t, p.sender, appID, ok);
    case Clear(appID) => LeaveTexts(t, p.sender, appID, ok);
    case Delete(appID) => RemoveTexts(t, appID, ok);
    case Update(appID, approval, clear) => SetProgramsTexts(t, appID, approval, clear, ok);
    case DeploySSC(_, _, _) => FinishTexts(t, p.sender, ok);
    case OptInSSC(_) =>
  }

  // ---- Transactions ----

  lemma PrepareTexts(s: State, p: Param, gtxs: seq<Txn>, chain: Chain, ok: Test)
    requires Texts(s, ok) && Prepare(s, p, gtxs, chain).Ok?
    ensures Texts(Prepare(s, p, gtxs, chain).value, ok)
  {
    hide Texts, DeductFee, CheckSignature, SignatureFrame;
    var s1 := DeductFee(s, p.sender, p.txn.fee).value;
    FeeFrame(s, p.sender, p.txn.fee);
    OnlyAmountsKeeps(s, s1);
    SameAppTexts(s, s1, ok);
    CheckSignatureFrame(s1, p, gtxs, chain);
    SignatureTexts(s1, CheckSignature(s1, p, gtxs, chain).value, ok);
  }

  lemma ApplyTexts(s: State, p: Param, gtxs: seq<Txn>, chain: Chain, ok: Test)
    requires Texts(s, ok) && NewIsHardest(ok) && ParamTexts(p, ok) && Apply(s, p, gtxs, chain).Ok?
    ensures Texts(Apply(s, p, gtxs, chain).value, ok)
  {
    hide Texts, ParamTexts, TransferAlgos, AddAsset, ApplyAssetKind, ApplyAppKind, OnlyAmounts;
    var t := Apply(s, p, gtxs, chain).value;
    if p.kind.TransferAlgo? {
      PaymentFrame(s, p.sender, p.kind.to, p.kind.microAlgos, p.closeTo);
      OnlyAmountsKeeps(s, t);
      SameAppTexts(s, t, ok);
    } else if p.kind.DeployASA? {
      AddAssetFrame(s, p.sender, p.kind.name, chain.asaDefs[p.kind.name]);
      SameAppTexts(s, t, ok);
    } else if IsAssetKind(p.kind) {
      AssetKindFrame(s, p);
      SameAppTexts(s, t, ok);
    } else {
      AppKindTexts(s, p, gtxs, chain, ok);
    }
  }

  lemma TransactTexts(s: State, p: Param, gtxs: seq<Txn>, chain: Chain, ok: Test)
    requires Texts(s, ok) && NewIsHardest(ok) && ParamTexts(p, ok) && Transact(s, p, gtxs, chain).Ok?
    ensures Texts(Transact(s, p, gtxs, chain).value, ok)
  {
    hide Texts, ParamTexts, Prepare, Apply;
    PrepareTexts(s, p, gtxs, chain, ok);
    ApplyTexts(Prepare(s, p, gtxs, chain).value, p, gtxs, chain, ok);
  }
}
