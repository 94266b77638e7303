/** The uint64 range over whole runs: balances, minimum balances, holdings, asset totals and stored integers. */
module RangeRuns {
  import opened Values
  import opened MapSums
  import opened Teal
  import opened TealRun
  import opened TealFrames
  import opened TealRange
  import opened Ledger
  import opened LedgerFrames
  import opened LedgerTexts
  import opened LedgerRuns
  import opened LedgerAssets
  import opened AssetConservation
  import opened MinBalances
  import opened AlgoConservation
  import opened SharedArrays
  import Parser

  // ---- What a run is given ----

  /** However it is parsed, the text has only operators that keep the range. */
  ghost predicate TextOk(text: string, env: Env) {
    forall mode, nargs: nat ::
      Parser.Parse(text, mode, nargs, env).Ok? ==> ProgramOk(Parser.Parse(text, mode, nargs, env).value.instrs)
  }

  ghost function RangeTest(env: Env): Test {
    (_: nat, text: string) => TextOk(text, env)
  }

  /** The transaction's numbers are in range, and so is every program it brings. */
  ghost predicate ParamOk(p: Param, env: Env) {
    TxnOk(p.txn) && ParamTexts(p, RangeTest(env))
  }

  ghost predicate ChainOk(chain: Chain) {
    && EnvOk(chain.env) && IsUint64(chain.round) && IsUint64(chain.timestamp)
    && forall name :: name in chain.asaDefs ==>
         IsUint64(chain.asaDefs[name].total) && IsUint64(chain.asaDefs[name].decimals)
  }

  ghost predicate GroupOk(g: Group, chain: Chain) {
    ChainOk(chain) && |g| <= MAX_GROUP && forall i :: 0 <= i < |g| ==> ParamOk(g[i], chain.env)
  }

  /** Every call that is not too large has a group in range, and all calls share their library functions. */
  ghost predicate CallsOk(calls: seq<Call>, env: Env) {
    forall c :: 0 <= c < |calls| && |calls[c].group| <= MAX_GROUP ==>
      calls[c].chain.env == env && GroupOk(calls[c].group, calls[c].chain)
  }

  function CtxOf(p: Param, gtxs: seq<Txn>, chain: Chain): TealCtx {
    TealCtx(p.txn, gtxs, chain.round, chain.timestamp, chain.env)
  }

  // ---- Running one program ----

  lemma RunTealInRange(s: State, program: string, mode: Parser.Mode, p: Param, gtxs: seq<Txn>, chain: Chain)
    requires StateOk(s) && TextOk(program, chain.env) && InputsOk(CtxOf(p, gtxs, chain))
    ensures StateOk(RunTeal(s, program, mode, p, gtxs, chain).st)
  {
    hide StateOk, InputsOk, RunFrom, Parser.Parse, Accepts;
    var parsed := Parser.Parse(program, mode, |s.args|, chain.env);
    if parsed.Ok? {
      var m, c := InitMachine(s), CtxOf(p, gtxs, chain);
      RunInRange(parsed.value.instrs, m, c);
    }
  }

  // ---- Fee and signature ----

  lemma FeeInRange(s: State, a: Address, fee: nat)
    requires StateOk(s) && DeductFee(s, a, fee).Ok?
    ensures StateOk(DeductFee(s, a, fee).value)
  {
    hide KvOk;
    var t := DeductFee(s, a, fee).value;
    FeeFrame(s, a, fee);
    forall b | b in t.accounts
      ensures AppsOk(t.accounts[b]) && NumbersOk(t.accounts[b])
    {
      assert NumbersOk(s.accounts[b]) && AppsOk(s.accounts[b]);
    }
  }

  lemma PrepareInRange(s: State, p: Param, gtxs: seq<Txn>, chain: Chain)
    requires StateOk(s) && ParamOk(p, chain.env) && InputsOk(CtxOf(p, gtxs, chain))
    requires Prepare(s, p, gtxs, chain).Ok?
    ensures StateOk(Prepare(s, p, gtxs, chain).value)
  {
    hide StateOk, InputsOk, DeductFee, RunTeal, TextOk;
    var s1 := DeductFee(s, p.sender, p.txn.fee).value;
    FeeInRange(s, p.sender, p.txn.fee);
    match p.sign
    case SecretKey =>
    case LogicSignature(lsig) =>
      ArgsInRange(s1, lsig.value.args);
      RunTealInRange(WithArgs(s1, lsig.value.args), lsig.value.program, Parser.Signature, p, gtxs, chain);
  }

  lemma ArgsInRange(s: State, args: seq<nat>)
    requires StateOk(s)
    ensures StateOk(WithArgs(s, args))
  {
    hide AppsOk, NumbersOk;
  }

  // ---- Upper bounds ----

  /** The bounds that are kept one account at a time; those of balances and holdings follow from conservation. */
  predicate AccountBounded(acc: Account) {
    && acc.minBalance <= MAX_UINT64 && AppsOk(acc)
    && forall id :: id in acc.createdAssets ==> IsUint64(acc.createdAssets[id].total) && IsUint64(acc.createdAssets[id].decimals)
  }

  /** What every transaction leaves. */
  predicate Bounded(s: State) {
    && (forall a :: a in s.accounts ==> AccountBounded(s.accounts[a]))
    && ArraysOk(s.heap.own) && ArraysOk(s.heap.shared)
  }

  lemma OkIsBounded(s: State)
    requires StateOk(s)
    ensures Bounded(s)
  {
    forall a | a in s.accounts
      ensures AccountBounded(s.accounts[a])
    {
      assert AppsOk(s.accounts[a]) && NumbersOk(s.accounts[a]);
    }
  }

  /** A change outside applications: the minimum balance grows only up to the balance, and definitions keep their numbers. */
  predicate AccountStep(x: Account, y: Account) {
    && (y.minBalance <= x.minBalance || y.minBalance <= x.amount) && y.amount == x.amount
    && y.createdApps == x.createdApps && y.appsLocalState == x.appsLocalState
    && forall id :: id in y.createdAssets ==>
         && id in x.createdAssets && y.createdAssets[id].total == x.createdAssets[id].total
         && y.createdAssets[id].decimals == x.createdAssets[id].decimals
  }

  predicate AssetStep(s: State, t: State) {
    && t.heap == s.heap && t.accounts.Keys == s.accounts.Keys
    && forall a :: a in s.accounts ==> AccountStep(s.accounts[a], t.accounts[a])
  }

  lemma AssetStepTransitive(s: State, t: State, u: State)
    requires AssetStep(s, t) && AssetStep(t, u)
    ensures AssetStep(s, u)
  {
    forall a | a in s.accounts
      ensures AccountStep(s.accounts[a], u.accounts[a])
    {
      assert AccountStep(s.accounts[a], t.accounts[a]) && AccountStep(t.accounts[a], u.accounts[a]);
    }
  }

  lemma ReplaceStep(s: State, a: Address, acc: Account)
    requires a in s.accounts && AccountStep(s.accounts[a], acc)
    ensures AssetStep(s, WithAccount(s, a, acc))
  {
  }

  lemma OptInStep(s: State, id: nat, a: Address)
    requires OptIntoASA(s, id, a).Ok?
    ensures AssetStep(s, OptIntoASA(s, id, a).value)
  {
    hide AssetStep;
    ReplaceStep(s, a, OptIntoASA(s, id, a).value.accounts[a]);
  }

  lemma AddUnitsStep(s: State, a: Address, id: nat, delta: int)
    requires Holds(s, a, id)
    ensures AssetStep(s, AddUnits(s, a, id, delta))
  {
    hide AssetStep;
    ReplaceStep(s, a, AddUnits(s, a, id, delta).accounts[a]);
  }

  lemma MoveUnitsStep(s: State, from: Address, to: Address, amount: nat, id: nat)
    requires MoveUnits(s, from, to, amount, id).Ok?
    ensures AssetStep(s, MoveUnits(s, from, to, amount, id).value)
  {
    hide AssetStep;
    var s1 := AddUnits(s, from, id, -(amount as int));
    AddUnitsStep(s, from, id, -(amount as int));
    AddUnitsStep(s1, to, id, amount);
    AssetStepTransitive(s, s1, AddUnits(s1, to, id, amount));
  }

  lemma CloseUnitsStep(s: State, from: Address, id: nat, closeTo: Address)
    requires Holds(s, from, id) && CloseUnits(s, from, id, closeTo).Ok?
    ensures AssetStep(s, CloseUnits(s, from, id, closeTo).value)
  {
    hide AssetStep;
    var amount := s.accounts[from].assets[id].amount;
    var s1 := AddUnits(s, closeTo, id, amount);
    AddUnitsStep(s, closeTo, id, amount);
    ReplaceStep(s1, from, AccountCloseAsset(s1.accounts[from], id));
    AssetStepTransitive(s, s1, WithAccount(s1, from, AccountCloseAsset(s1.accounts[from], id)));
  }

  lemma TransferStep(s: State, from: Address, to: Address, amount: nat, id: nat, closeTo: Address)
    requires TransferUnits(s, from, to, amount, id, closeTo).Ok?
    ensures AssetStep(s, TransferUnits(s, from, to, amount, id, closeTo).value)
  {
    hide AccountStep, OptIntoASA, MoveUnits, CloseUnits;
    var s1 := BeforeTransfer(s, from, to, amount, id).value;
    if amount == 0 && from == to {
      OptInStep(s, id, from);
    } else {
      NoStep(s);
    }
    var s2 := MoveUnits(s1, from, to, amount, id).value;
    MoveUnitsStep(s1, from, to, amount, id);
    AssetStepTransitive(s, s1, s2);
    if closeTo != "" {
      CloseUnitsStep(s2, from, id, closeTo);
      AssetStepTransitive(s, s2, CloseUnits(s2, from, id, closeTo).value);
    }
  }

  lemma NoStep(s: State)
    ensures AssetStep(s, s)
  {
  }

  lemma ModifyStep(s: State, sender: Address, id: nat, f: ModFields)
    requires Modify(s, sender, id, f).Ok?
    ensures AssetStep(s, Modify(s, sender, id, f).value)
  {
    hide AssetStep, SetRole;
    var c := s.assetDefs[id];
    ReplaceStep(s, c, Modify(s, sender, id, f).value.accounts[c]);
  }

  lemma FreezeStep(s: State, sender: Address, id: nat, target: Address, frozen: bool)
    requires Freeze(s, sender, id, target, frozen).Ok?
    ensures AssetStep(s, Freeze(s, sender, id, target, frozen).value)
  {
    hide AssetStep;
    ReplaceStep(s, target, Freeze(s, sender, id, target, frozen).value.accounts[target]);
  }

  lemma DestroyStep(s: State, sender: Address, id: nat)
    requires Destroy(s, sender, id).Ok?
    ensures AssetStep(s, Destroy(s, sender, id).value)
  {
    var c := s.assetDefs[id];
    var acc := AccountDestroyAsset(s.accounts[c], id).value;
    ReplaceStep(s, c, acc);
    DropStep(WithAccount(s, c, acc), id);
    AssetStepTransitive(s, WithAccount(s, c, acc), Destroy(s, sender, id).value);
  }

  lemma DropStep(s: State, id: nat)
    ensures AssetStep(s, DropHoldings(s, id))
  {
  }

  lemma AssetKindStep(s: State, p: Param)
    requires IsAssetKind(p.kind) && ApplyAssetKind(s, p).Ok?
    ensures AssetStep(s, ApplyAssetKind(s, p).value)
  {
    hide AssetStep, TransferUnits, Modify, Freeze, MoveUnits, Destroy, OptIntoASA;
    match p.kind
    case TransferAsset(to, amount, id) => TransferStep(s, p.sender, to, amount, id, p.closeTo);
    case ModifyAsset(id, f) => ModifyStep(s, p.sender, id, f);
    case FreezeAsset(id, target, frozen) => FreezeStep(s, p.sender, id, target, frozen);
    case RevokeAsset(id, recipient, target, amount) => MoveUnitsStep(s, target, recipient, amount, id);
    case DestroyAsset(id) => DestroyStep(s, p.sender, id);
    case OptInASA(id) => OptInStep(s, id, p.sender);
  }

  lemma AssetStepKept(s: State, t: State)
    requires StateOk(s) && AssetStep(s, t)
    ensures Bounded(t)
  {
    hide KvOk;
    forall a | a in t.accounts
      ensures AccountBounded(t.accounts[a])
    {
      assert AccountStep(s.accounts[a], t.accounts[a]) && NumbersOk(s.accounts[a]) && AppsOk(s.accounts[a]);
    }
  }

  lemma PaymentKept(s: State, t: State)
    requires StateOk(s) && OnlyAmounts(s, t)
    ensures Bounded(t)
  {
    hide KvOk;
    forall a | a in t.accounts
      ensures AccountBounded(t.accounts[a])
    {
      assert NumbersOk(s.accounts[a]) && AppsOk(s.accounts[a]);
    }
  }

  lemma ReplaceOk(s: State, a: Address, acc: Account)
    requires StateOk(s) && AppsOk(acc) && NumbersOk(acc)
    ensures StateOk(WithAccount(s, a, acc))
  {
    hide AppsOk, NumbersOk;
  }

  lemma ReplaceKept(s: State, a: Address, acc: Account)
    requires StateOk(s) && AccountBounded(acc)
    ensures Bounded(WithAccount(s, a, acc))
  {
    OkIsBounded(s);
    hide AccountBounded, StateOk;
  }

  lemma AccountOf(s: State, a: Address)
    requires StateOk(s) && a in s.accounts
    ensures AppsOk(s.accounts[a]) && NumbersOk(s.accounts[a]) && AccountBounded(s.accounts[a])
  {
    OkIsBounded(s);
  }

  lemma DeployKept(s: State, a: Address, name: string, d: AsaSpec)
    requires StateOk(s) && AddAsset(s, a, name, d).Ok? && IsUint64(d.total) && IsUint64(d.decimals)
    ensures Bounded(AddAsset(s, a, name, d).value)
  {
    hide StateOk, KvOk;
    AccountOf(s, a);
    ReplaceKept(s, a, AddAsset(s, a, name, d).value.accounts[a]);
  }

  // ---- Applications ----

  lemma LeaveAppKept(s: State, a: Address, appID: nat)
    requires StateOk(s) && LeaveApp(s, a, appID).Ok?
    ensures Bounded(LeaveApp(s, a, appID).value)
  {
    hide StateOk, Bounded, KvOk;
    AccountOf(s, a);
    ReplaceKept(s, a, LeaveApp(s, a, appID).value.accounts[a]);
  }

  lemma RemoveAppKept(s: State, appID: nat)
    requires StateOk(s) && RemoveApp(s, appID).Ok?
    ensures Bounded(RemoveApp(s, appID).value)
  {
    hide StateOk, KvOk;
    var a := AppOwner(s, appID).value;
    AccountOf(s, a);
    ReplaceKept(s, a, RemoveApp(s, appID).value.accounts[a]);
  }

  lemma SetProgramsKept(s: State, appID: nat, approval: string, clear: string)
    requires StateOk(s) && SetPrograms(s, appID, approval, clear).Ok?
    ensures Bounded(SetPrograms(s, appID, approval, clear).value)
  {
    hide StateOk, Bounded, KvOk;
    var a := AppOwner(s, appID).value;
    AccountOf(s, a);
    ReplaceKept(s, a, SetPrograms(s, appID, approval, clear).value.accounts[a]);
  }

  lemma NewAppInRange(acc: Account, a: Address, k: Kind, clear: string)
    requires AppsOk(acc) && NumbersOk(acc) && k.DeploySSC? && AccountAddApp(acc, a, 0, k, clear).Ok?
    ensures var after := AccountAddApp(acc, a, 0, k, clear).value;
            AppsOk(after) && (after.minBalance <= after.amount ==> NumbersOk(after))
  {
  }

  lemma BeginAppInRange(s: State, a: Address, k: Kind, clear: string)
    requires StateOk(s) && k.DeploySSC? && BeginApp(s, a, k, clear).Ok?
    ensures StateOk(BeginApp(s, a, k, clear).value)
  {
    hide AppsOk, NumbersOk, AccountAddApp;
    AccountOf(s, a);
    NewAppInRange(s.accounts[a], a, k, clear);
    ReplaceOk(s, a, AccountAddApp(s.accounts[a], a, 0, k, clear).value);
  }

  lemma FinishAppKept(s: State, a: Address)
    requires StateOk(s) && FinishApp(s, a).Ok?
    ensures Bounded(FinishApp(s, a).value)
  {
    hide KvOk;
    AccountOf(s, a);
    AccountOf(s, AppOwner(s, 0).value);
    ReplaceKept(s, a, FinishApp(s, a).value.accounts[a]);
  }

  lemma JoinAppInRange(s: State, a: Address, appID: nat)
    requires StateOk(s) && JoinApp(s, a, appID).Ok?
    ensures StateOk(JoinApp(s, a, appID).value)
  {
    hide StateOk;
    AccountOf(s, a);
    ReplaceOk(s, a, JoinApp(s, a, appID).value.accounts[a]);
  }

  lemma AppRunInRange(s: State, p: Param)
    requires StateOk(s) && IsAppKind(p.kind) && AppRun(s, p).Some?
    ensures StateOk(AppRun(s, p).value.0)
  {
    hide StateOk, BeginApp, JoinApp;
    match p.kind
    case DeploySSC(approval, _, _) => BeginAppInRange(s, p.sender, p.kind, approval);
    case OptInSSC(appID) => JoinAppInRange(s, p.sender, appID);
    case _ =>
  }

  lemma AppKindKept(s: State, p: Param, gtxs: seq<Txn>, chain: Chain)
    requires StateOk(s) && Texts(s, RangeTest(chain.env)) && ParamOk(p, chain.env) && InputsOk(CtxOf(p, gtxs, chain))
    requires IsAppKind(p.kind) && ApplyAppKind(s, p, gtxs, chain).Ok?
    ensures Bounded(ApplyAppKind(s, p, gtxs, chain).value)
  {
    hide StateOk, Bounded, Texts, ParamTexts, TxnOk, InputsOk, TextOk, AppRun, RunTeal, ApplyAppKind;
    hide LeaveApp, RemoveApp, SetPrograms, FinishApp;
    AppKindAfterRun(s, p, gtxs, chain);
    AppRunInRange(s, p);
    AppRunPasses(s, p, RangeTest(chain.env));
    var (s1, program) := AppRun(s, p).value;
    RunTealInRange(s1, program, Parser.Application, p, gtxs, chain);
    var t := Ran(s, p, gtxs, chain);
    OkIsBounded(t);
    match p.kind
    case CallNoOp(_) =>
    case CloseOut(appID) => LeaveAppKept(t, p.sender, appID);
    case Clear(appID) => LeaveAppKept(t, p.sender, appID);
    case Delete(appID) => RemoveAppKept(t, appID);
    case Update(appID, approval, clear) => SetProgramsKept(t, appID, approval, clear);
    case DeploySSC(_, _, _) => FinishAppKept(t, p.sender);
    case OptInSSC(_) =>
  }

  lemma ApplyKept(s: State, p: Param, gtxs: seq<Txn>, chain: Chain)
    requires StateOk(s) && Texts(s, RangeTest(chain.env)) && ParamOk(p, chain.env) && InputsOk(CtxOf(p, gtxs, chain))
    requires ChainOk(chain) && Apply(s, p, gtxs, chain).Ok?
    ensures Bounded(Apply(s, p, gtxs, chain).value)
  {
    hide StateOk, Bounded, Texts, InputsOk, ParamOk, TransferAlgos, AddAsset, ApplyAssetKind, ApplyAppKind, AssetStep, OnlyAmounts;
    if p.kind.TransferAlgo? {
      PaymentFrame(s, p.sender, p.kind.to, p.kind.microAlgos, p.closeTo);
      PaymentKept(s, Apply(s, p, gtxs, chain).value);
    } else if p.kind.DeployASA? {
      DeployKept(s, p.sender, p.kind.name, chain.asaDefs[p.kind.name]);
    } else if IsAssetKind(p.kind) {
      AssetKindStep(s, p);
      AssetStepKept(s, ApplyAssetKind(s, p).value);
    } else {
      AppKindKept(s, p, gtxs, chain);
    }
  }

  // ---- Transactions, groups, runs ----

  /** With the ledger's laws the bounds are complete: no balance exceeds the total, and no holding its asset's total. */
  lemma BoundsComplete(s: State)
    requires LedgerInv(s) && TotalAlgos(s) <= MAX_UINT64 && Bounded(s)
    ensures StateOk(s)
  {
    MapSumNonNegative(s.accounts, AmountOf);
    forall a | a in s.accounts
      ensures AppsOk(s.accounts[a]) && NumbersOk(s.accounts[a])
    {
      assert AccountBounded(s.accounts[a]) && AmountOf(s.accounts[a]) <= TotalAlgos(s);
      MinBalanceAtLeastBase(s, a);
      forall id | id in s.accounts[a].assets
        ensures IsUint64(s.accounts[a].assets[id].amount)
      {
        HoldingBounded(s, a, id);
      }
    }
  }

  lemma HoldingBounded(s: State, a: Address, id: nat)
    requires AssetInv(s) && Bounded(s) && Holds(s, a, id)
    ensures IsUint64(s.accounts[a].assets[id].amount)
  {
    var f := UnitsIn(id);
    forall b | b in s.accounts
      ensures f(s.accounts[b]) >= 0
    {
      assert id in s.accounts[b].assets ==> Holds(s, b, id);
    }
    MapSumNonNegative(s.accounts, f);
    assert Live(s, id) && Surplus(s, id) <= 0 && AccountBounded(s.accounts[s.assetDefs[id]]);
    assert f(s.accounts[a]) <= UnitsOf(s, id) <= TotalOf(s, id);
  }

  /** What every reachable store satisfies: the ledger's laws, every number a program can read or store is a uint64, and the
      programs it holds keep it so. */
  ghost predicate RangeInv(s: State, env: Env) {
    LedgerInv(s) && TotalAlgos(s) <= MAX_UINT64 && StateOk(s) && Texts(s, RangeTest(env))
  }

  /** Everything a group's programs read is in range. */
  ghost predicate GroupInputsOk(gtxs: seq<Txn>, chain: Chain) {
    ChainOk(chain) && |gtxs| <= MAX_GROUP && forall i :: 0 <= i < |gtxs| ==> TxnOk(gtxs[i])
  }

  lemma TotalNeverGrows(s: State, p: Param, gtxs: seq<Txn>, chain: Chain)
    requires LedgerInv(s) && Transact(s, p, gtxs, chain).Ok?
    ensures TotalAlgos(Transact(s, p, gtxs, chain).value) <= TotalAlgos(s)
  {
    hide LedgerInv, Prepare, Apply, Burned;
    PrepareTotal(s, p, gtxs, chain);
    ApplyTotal(Prepare(s, p, gtxs, chain).value, p, gtxs, chain);
    BurnedPositive(s, p, gtxs, chain);
  }

  lemma TransactInRange(s: State, p: Param, gtxs: seq<Txn>, chain: Chain)
    requires RangeInv(s, chain.env) && GroupInputsOk(gtxs, chain) && ParamOk(p, chain.env) && Transact(s, p, gtxs, chain).Ok?
    ensures RangeInv(Transact(s, p, gtxs, chain).value, chain.env)
  {
    hide LedgerInv, StateOk, Texts, ParamTexts, Bounded, Prepare, Apply, TextOk, TxnOk, EnvOk;
    var t := Transact(s, p, gtxs, chain).value;
    TransactKeepsLedger(s, p, gtxs, chain);
    TotalNeverGrows(s, p, gtxs, chain);
    PrepareInRange(s, p, gtxs, chain);
    PrepareTexts(s, p, gtxs, chain, RangeTest(chain.env));
    ApplyKept(Prepare(s, p, gtxs, chain).value, p, gtxs, chain);
    ApplyTexts(Prepare(s, p, gtxs, chain).value, p, gtxs, chain, RangeTest(chain.env));
    BoundsComplete(t);
  }

  lemma {:induction false} ProcessInRange(s: State, g: Group, i: nat, gtxs: seq<Txn>, chain: Chain)
    requires i <= |g| && RangeInv(s, chain.env) && GroupInputsOk(gtxs, chain) && GroupOk(g, chain)
    requires Process(s, g, i, gtxs, chain).Ok?
    ensures RangeInv(Process(s, g, i, gtxs, chain).value, chain.env)
    decreases |g| - i
  {
    hide RangeInv, GroupInputsOk, ParamOk, ChainOk, Transact;
    if i < |g| {
      TransactInRange(s, g[i], gtxs, chain);
      ProcessInRange(Transact(s, g[i], gtxs, chain).value, g, i + 1, gtxs, chain);
    }
  }

  lemma DetachedInRange(s: State)
    requires StateOk(s)
    ensures StateOk(Detached(s))
  {
    hide RefersOutside;
    var t, m, n := Detached(s), |s.heap.own|, |s.heap.shared|;
    if RefersOutside(s) {
      forall a | a in t.accounts
        ensures AppsOk(t.accounts[a]) && NumbersOk(t.accounts[a])
      {
        assert t.accounts[a] == DetachedAccount(s.accounts[a], m, n);
        assert AppsOk(s.accounts[a]) && NumbersOk(s.accounts[a]);
        DetachedAppsInRange(s.accounts[a], m, n);
      }
    }
  }

  lemma DetachedAppsInRange(acc: Account, m: nat, n: nat)
    requires AppsOk(acc) && NumbersOk(acc)
    ensures AppsOk(DetachedAccount(acc, m, n)) && NumbersOk(DetachedAccount(acc, m, n))
  {
  }

  lemma ArgsKeepRange(s: State, args: seq<nat>, env: Env)
    requires RangeInv(s, env)
    ensures RangeInv(WithArgs(s, args), env)
  {
    hide LedgerInv, StateOk, Texts, SignatureFrame;
    ArgsFrame(s, args);
    ArraysKeepRange(s, WithArgs(s, args), env);
    ArgsInRange(s, args);
  }

  /** Apart from the range of its own values, a state that differs in byte arrays and references only keeps everything. */
  lemma ArraysKeepRange(s: State, t: State, env: Env)
    requires RangeInv(s, env) && SignatureFrame(s, t)
    ensures LedgerInv(t) && TotalAlgos(t) <= MAX_UINT64 && Texts(t, RangeTest(env))
  {
    hide LedgerInv, StateOk, Texts;
    ArraysKeepLedger(s, t);
    SignatureKeepsLedger(s, t);
    SameAmountsTotal(s, t);
    SignatureTexts(s, t, RangeTest(env));
  }

  lemma OpenedInRange(s: State, env: Env)
    requires RangeInv(s, env)
    ensures RangeInv(Opened(s), env)
  {
    hide LedgerInv, StateOk, Texts, SignatureFrame, Detached;
    OpenedFrame(s);
    ArraysKeepRange(s, Opened(s), env);
    DetachedInRange(s);
    ArgsInRange(Detached(s), []);
  }

  /** A group that throws leaves the store among shared arrays of the same lengths. */
  lemma ThrowKeepsRange(s: State, call: Call, env: Env)
    requires RangeInv(s, env) && ExecuteTx(s, call.group, call.chain).Err?
    ensures RangeInv(After(s, call), env)
  {
    hide LedgerInv, Texts, SignatureFrame, ExecuteTx, LeftShared, AppsOk, NumbersOk;
    CallKeepsLengths(s, call);
    SharedFrame(s, LeftShared(s, call.group, call.chain));
    ArraysKeepRange(s, After(s, call), env);
  }

  lemma GroupInRange(s: State, call: Call)
    requires RangeInv(s, call.chain.env) && ExecuteTx(s, call.group, call.chain).Ok?
    requires |call.group| <= MAX_GROUP ==> GroupOk(call.group, call.chain)
    ensures RangeInv(ExecuteTx(s, call.group, call.chain).value, call.chain.env)
  {
    hide RangeInv, Process, ParamTexts, ChainOk, Opened;
    var g, chain := call.group, call.chain;
    CommittedIsSmall(s, call);
    forall i | 0 <= i < |Txns(g)|
      ensures TxnOk(Txns(g)[i])
    {
      assert ParamOk(g[i], chain.env);
    }
    OpenedInRange(s, chain.env);
    ProcessInRange(Opened(s), g, 0, Txns(g), chain);
    ArgsKeepRange(Process(Opened(s), g, 0, Txns(g), chain).value, [], chain.env);
  }

  lemma {:induction false} RangeKeptByRuns(s: State, calls: seq<Call>, env: Env)
    requires RangeInv(s, env) && CallsOk(calls, env)
    ensures RangeInv(Run(s, calls), env)
    decreases |calls|
  {
    hide RangeInv, ExecuteTx, GroupOk, LeftShared;
    if calls != [] {
      var front, last := calls[..|calls| - 1], calls[|calls| - 1];
      RangeKeptByRuns(s, front, env);
      if ExecuteTx(Run(s, front), last.group, last.chain).Ok? {
        CommittedIsSmall(Run(s, front), last);
        GroupInRange(Run(s, front), last);
      } else {
        ThrowKeepsRange(Run(s, front), last, env);
      }
    }
  }

  lemma CommittedIsSmall(s: State, call: Call)
    requires ExecuteTx(s, call.group, call.chain).Ok?
    ensures |call.group| <= MAX_GROUP
  {
  }

  /** Over every run from fresh accounts that together hold at most 2^64 - 1 microAlgos, whose programs have no `~` and no
      constant out of range: every balance, minimum balance, holding and asset total is a uint64, and so is every integer
      in application state. */
  lemma RangeOverRuns(s: State, calls: seq<Call>, env: Env)
    requires Fresh(s) && ArraysOk(s.heap.own) && ArraysOk(s.heap.shared) && TotalAlgos(s) <= MAX_UINT64 && CallsOk(calls, env)
    ensures StateOk(Run(s, calls))
  {
    hide CallsOk, LedgerInv;
    FreshLedger(s);
    FreshInRange(s);
    RangeKeptByRuns(s, calls, env);
  }

  lemma FreshInRange(s: State)
    requires Fresh(s) && ArraysOk(s.heap.own) && ArraysOk(s.heap.shared) && TotalAlgos(s) <= MAX_UINT64
    ensures StateOk(s)
  {
    FreshLedger(s);
    assert Bounded(s);
    BoundsComplete(s);
  }
}
