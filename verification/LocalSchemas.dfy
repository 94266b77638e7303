/** An account's local state of an application always has the layout that the application asks for. */
module LocalSchemas {
  import opened Values
  import opened Teal
  import opened TealRun
  import opened TealFrames
  import opened Ledger
  import opened LedgerFrames
  import opened LedgerRuns
  import opened LedgerApps
  import opened MinBalances
  import Parser

  predicate AgreesAt(s: State, schema: Schema, id: nat) {
    && 1 <= id <= s.appCounter
    && (GetApp(s, id).Ok? ==> schema == GetApp(s, id).value.localSchema)
  }

  /** Local states belong to applications that exist or have existed, and have the schema of those that exist. */
  predicate LocalsAgree(s: State) {
    forall a, id :: a in s.accounts && id in s.accounts[a].appsLocalState ==>
      AgreesAt(s, s.accounts[a].appsLocalState[id].schema, id)
  }

  /** Every local state of the later store was in the earlier one, and the applications it can belong to kept their layout. */
  predicate FromLocals(s: State, t: State) {
    && s.appCounter <= t.appCounter && t.accounts.Keys == s.accounts.Keys
    && (forall a, id :: a in t.accounts && id in t.accounts[a].appsLocalState ==>
         id in s.accounts[a].appsLocalState && t.accounts[a].appsLocalState[id].schema == s.accounts[a].appsLocalState[id].schema)
    && (forall id :: 1 <= id <= s.appCounter && GetApp(t, id).Ok? ==> SameLayout(s, t, id))
  }

  predicate SameLayout(s: State, t: State, id: nat) {
    GetApp(s, id).Ok? && GetApp(t, id).Ok? && GetApp(t, id).value.localSchema == GetApp(s, id).value.localSchema
  }

  lemma FromLocalsAgree(s: State, t: State)
    requires LocalsAgree(s) && FromLocals(s, t)
    ensures LocalsAgree(t)
  {
    hide GetApp;
    forall a, id | a in t.accounts && id in t.accounts[a].appsLocalState
      ensures AgreesAt(t, t.accounts[a].appsLocalState[id].schema, id)
    {
      assert AgreesAt(s, s.accounts[a].appsLocalState[id].schema, id);
      if GetApp(t, id).Ok? {
        assert SameLayout(s, t, id);
      }
    }
  }

  lemma FrameFromLocals(s: State, t: State)
    requires TealFrame(s, t)
    ensures FromLocals(s, t)
  {
    forall a | a in s.accounts
      ensures SameAccount(s.accounts[a], t.accounts[a])
    {
    }
    forall id | 1 <= id <= s.appCounter && GetApp(t, id).Ok?
      ensures SameLayout(s, t, id)
    {
      var a := t.globalApps[id];
      assert SameApp(s.accounts[a].createdApps[id], t.accounts[a].createdApps[id]);
    }
  }

  /** Programs keep the layouts at every step. */
  lemma StepAgrees(op: Op, m: Machine, c: TealCtx)
    requires LocalsAgree(m.st)
    ensures LocalsAgree(StateAfter(Step(op, m, c)))
  {
    hide LocalsAgree, TealFrame, FromLocals, Step;
    StepFrame(op, m, c);
    FrameFromLocals(m.st, StateAfter(Step(op, m, c)));
    FromLocalsAgree(m.st, StateAfter(Step(op, m, c)));
  }

  lemma SignatureFromLocals(s: State, t: State)
    requires SignatureFrame(s, t)
    ensures FromLocals(s, t)
  {
    FrameFromLocals(s.(heap := t.heap, args := t.args), t);
  }

  lemma SameAppsFromLocals(s: State, t: State)
    requires SameAppStates(s, t)
    ensures FromLocals(s, t)
  {
  }

  lemma LeaveFromLocals(s: State, a: Address, appID: nat)
    requires LeaveApp(s, a, appID).Ok?
    ensures FromLocals(s, LeaveApp(s, a, appID).value)
  {
  }

  lemma RemoveFromLocals(s: State, appID: nat)
    requires RemoveApp(s, appID).Ok?
    ensures FromLocals(s, RemoveApp(s, appID).value)
  {
  }

  lemma ProgramsFromLocals(s: State, appID: nat, approval: string, clear: string)
    requires SetPrograms(s, appID, approval, clear).Ok?
    ensures FromLocals(s, SetPrograms(s, appID, approval, clear).value)
  {
  }

  lemma BeginFromLocals(s: State, a: Address, k: Kind, clear: string)
    requires k.DeploySSC? && BeginApp(s, a, k, clear).Ok?
    ensures FromLocals(s, BeginApp(s, a, k, clear).value)
  {
  }

  lemma FinishFromLocals(s: State, a: Address)
    requires FinishApp(s, a).Ok?
    ensures FromLocals(s, FinishApp(s, a).value)
  {
  }

  /** Opting in copies the application's own schema. */
  lemma JoinAgrees(s: State, a: Address, appID: nat)
    requires AppIndexOk(s) && LocalsAgree(s) && JoinApp(s, a, appID).Ok?
    ensures LocalsAgree(JoinApp(s, a, appID).value)
  {
    var t := JoinApp(s, a, appID).value;
    forall id
      ensures GetApp(t, id).Ok? ==> SameLayout(s, t, id)
    {
    }
    forall b, id | b in t.accounts && id in t.accounts[b].appsLocalState
      ensures AgreesAt(t, t.accounts[b].appsLocalState[id].schema, id)
    {
      if id in s.accounts[b].appsLocalState {
        assert AgreesAt(s, s.accounts[b].appsLocalState[id].schema, id);
      }
    }
  }

  lemma StartAgrees(s: State, p: Param)
    requires AppIndexOk(s) && LocalsAgree(s) && IsAppKind(p.kind) && AppRun(s, p).Some?
    ensures LocalsAgree(AppRun(s, p).value.0)
  {
    hide LocalsAgree, AppIndexOk, FromLocals, BeginApp, JoinApp;
    if p.kind.DeploySSC? {
      BeginFromLocals(s, p.sender, p.kind, p.kind.approval);
      FromLocalsAgree(s, AppRun(s, p).value.0);
    } else if p.kind.OptInSSC? {
      JoinAgrees(s, p.sender, p.kind.appID);
    }
  }

  lemma AppKindAgrees(s: State, p: Param, gtxs: seq<Txn>, chain: Chain)
    requires AppIndexOk(s) && LocalsAgree(s) && IsAppKind(p.kind) && ApplyAppKind(s, p, gtxs, chain).Ok?
    ensures LocalsAgree(ApplyAppKind(s, p, gtxs, chain).value)
  {
    hide LocalsAgree, FromLocals, AppIndexOk, ApplyAppKind, AppRun, RunTeal, LeaveApp, RemoveApp, SetPrograms, FinishApp;
    AppKindAfterRun(s, p, gtxs, chain);
    var s1, t, u := AppRun(s, p).value.0, Ran(s, p, gtxs, chain), ApplyAppKind(s, p, gtxs, chain).value;
    StartAgrees(s, p);
    RunTealFrame(s1, AppRun(s, p).value.1, Parser.Application, p, gtxs, chain);
    FrameFromLocals(s1, t);
    FromLocalsAgree(s1, t);
    match p.kind
    case CallNoOp(_) =>
    case OptInSSC(_) =>
    case CloseOut(appID) =>
      LeaveFromLocals(t, p.sender, appID);
      FromLocalsAgree(t, u);
    case Clear(appID) =>
      LeaveFromLocals(t, p.sender, appID);
      FromLocalsAgree(t, u);
    case Delete(appID) =>
      RemoveFromLocals(t, appID);
      FromLocalsAgree(t, u);
    case Update(appID, approval, clear) =>
      ProgramsFromLocals(t, appID, approval, clear);
      FromLocalsAgree(t, u);
    case DeploySSC(_, _, _) =>
      FinishFromLocals(t, p.sender);
      FromLocalsAgree(t, u);
  }

  lemma ApplyAgrees(s: State, p: Param, gtxs: seq<Txn>, chain: Chain)
    requires AppIndexOk(s) && LocalsAgree(s) && Apply(s, p, gtxs, chain).Ok?
    ensures LocalsAgree(Apply(s, p, gtxs, chain).value)
  {
    hide LocalsAgree, FromLocals, AppIndexOk, SameAppStates, TransferAlgos, AddAsset, ApplyAssetKind, ApplyAppKind;
    var t := Apply(s, p, gtxs, chain).value;
    if IsAppKind(p.kind) {
      AppKindAgrees(s, p, gtxs, chain);
    } else {
      if p.kind.TransferAlgo? {
        PaymentFrame(s, p.sender, p.kind.to, p.kind.microAlgos, p.closeTo);
        OnlyAmountsKeeps(s, t);
      } else if p.kind.DeployASA? {
        AddAssetFrame(s, p.sender, p.kind.name, chain.asaDefs[p.kind.name]);
      } else {
        AssetKindFrame(s, p);
      }
      SameAppsFromLocals(s, t);
      FromLocalsAgree(s, t);
    }
  }

  lemma PrepareAgrees(s: State, p: Param, gtxs: seq<Txn>, chain: Chain)
    requires LocalsAgree(s) && Prepare(s, p, gtxs, chain).Ok?
    ensures LocalsAgree(Prepare(s, p, gtxs, chain).value)
  {
    hide LocalsAgree, FromLocals, SameAppStates, DeductFee, CheckSignature, SignatureFrame;
    var s1 := DeductFee(s, p.sender, p.txn.fee).value;
    FeeFrame(s, p.sender, p.txn.fee);
    OnlyAmountsKeeps(s, s1);
    SameAppsFromLocals(s, s1);
    FromLocalsAgree(s, s1);
    CheckSignatureFrame(s1, p, gtxs, chain);
    SignatureFromLocals(s1, CheckSignature(s1, p, gtxs, chain).value);
    FromLocalsAgree(s1, CheckSignature(s1, p, gtxs, chain).value);
  }

  ghost predicate LocalInv(s: State) {
    LedgerInv(s) && LocalsAgree(s)
  }

  lemma TransactAgrees(s: State, p: Param, gtxs: seq<Txn>, chain: Chain)
    requires LocalInv(s) && Transact(s, p, gtxs, chain).Ok?
    ensures LocalInv(Transact(s, p, gtxs, chain).value)
  {
    hide LocalsAgree, AppIndexOk, Prepare, Apply;
    PrepareAgrees(s, p, gtxs, chain);
    PrepareKeepsApps(s, p, gtxs, chain);
    ApplyAgrees(Prepare(s, p, gtxs, chain).value, p, gtxs, chain);
    TransactKeepsLedger(s, p, gtxs, chain);
  }

  lemma FreshAgrees(s: State)
    requires Fresh(s)
    ensures LocalInv(s)
  {
    FreshLedger(s);
  }

  /** Over every run from fresh accounts, whoever opted in has a local state with the layout of the application's own schema, if
      the application still exists. */
  lemma LocalsAgreeOverRuns(s: State, calls: seq<Call>)
    requires Fresh(s)
    ensures LocalInv(Run(s, calls))
  {
    hide LedgerInv, LocalsAgree, SignatureFrame, Transact, FromLocals;
    FreshAgrees(s);
    var inv := (x: State) => LocalInv(x);
    forall x, y | SignatureFrame(x, y) && inv(x)
      ensures inv(y)
    {
      ArraysKeepLedger(x, y);
      SignatureFromLocals(x, y);
      FromLocalsAgree(x, y);
    }
    forall x, p, gtxs, chain
      ensures KeepsLaw(x, p, gtxs, chain, inv)
    {
      if inv(x) && Transact(x, p, gtxs, chain).Ok? {
        TransactAgrees(x, p, gtxs, chain);
      }
    }
    RunKeepsInvariant(s, calls, inv);
  }
}
