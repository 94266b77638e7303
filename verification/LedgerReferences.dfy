/** References over whole runs: stored references point to arrays that exist, a deep copy has the same contents, and what
    programs must not do for a store to stay free of shared arrays. */
module LedgerReferences {
  import opened Values
  import opened Teal
  import opened TealRun
  import opened TealFrames
  import opened TealReferences
  import opened Ledger
  import opened LedgerFrames
  import opened LedgerTexts
  import opened SharedArrays
  import opened DepthAtomicity
  import Parser

  // ---- Programs ----

  /** However it is parsed, the text is a program that pushes no shared array. */
  ghost predicate ClosedText(text: string, env: Env) {
    forall mode, nargs: nat ::
      Parser.Parse(text, mode, nargs, env).Ok? ==> ProgramClosed(Parser.Parse(text, mode, nargs, env).value.instrs, env)
  }

  /** The test for being closed, put to new programs and to those of the named applications. */
  ghost function ClosedTest(env: Env, named: set<nat>): Test {
    (id: nat, text: string) => id == 0 || id in named ==> ClosedText(text, env)
  }

  predicate GroupOwnsData(gtxs: seq<Txn>) {
    forall i :: 0 <= i < |gtxs| ==> TxnOwnsData(gtxs[i])
  }

  /** The signature's arguments are among the first `k` shared arrays. */
  predicate ArgsExist(p: Param, k: nat) {
    p.sign.LogicSignature? && p.sign.lsig.Some? ==>
      forall i :: 0 <= i < |p.sign.lsig.value.args| ==> p.sign.lsig.value.args[i] < k
  }

  /** Everything a transaction may do if the state is to keep references to the first `k` shared arrays only. */
  ghost predicate ParamHeld(p: Param, env: Env, k: nat, named: set<nat>) {
    && TxnOwnsData(p.txn)
    && (k > 0 ==> ArgsExist(p, k))
    && (k == 0 ==> Names(p, named) && ParamTexts(p, ClosedTest(env, named)))
  }

  lemma RunTealHeld(s: State, program: string, mode: Parser.Mode, p: Param, gtxs: seq<Txn>, chain: Chain, k: nat)
    requires StateHeld(s, k) && TxnOwnsData(p.txn) && GroupOwnsData(gtxs)
    requires k == 0 ==> ClosedText(program, chain.env)
    ensures StateHeld(RunTeal(s, program, mode, p, gtxs, chain).st, k)
  {
    hide StateHeld, TxnOwnsData, RunFrom, Parser.Parse, Accepts, ProgramClosed;
    var parsed := Parser.Parse(program, mode, |s.args|, chain.env);
    if parsed.Ok? {
      InitHeld(s, k);
      RunHeld(parsed.value.instrs, InitMachine(s), TealCtx(p.txn, gtxs, chain.round, chain.timestamp, chain.env), k);
    }
  }

  lemma InitHeld(s: State, k: nat)
    requires StateHeld(s, k)
    ensures MachineHeld(InitMachine(s), k)
  {
    hide StateHeld;
  }

  // ---- Ledger steps ----

  lemma SameStateHeld(s: State, t: State, k: nat)
    requires StateHeld(s, k) && SameAppStates(s, t) && SameArrays(s, t)
    ensures StateHeld(t, k)
  {
    forall a | a in t.accounts
      ensures AccountHeld(t.accounts[a], |t.heap.own|, k)
    {
      assert AccountHeld(s.accounts[a], |s.heap.own|, k);
    }
  }

  lemma OnlyAmountsHeld(s: State, t: State, k: nat)
    requires StateHeld(s, k) && OnlyAmounts(s, t)
    ensures StateHeld(t, k)
  {
    hide StateHeld;
    OnlyAmountsKeeps(s, t);
    SameStateHeld(s, t, k);
  }

  lemma ReplaceHeld(s: State, a: Address, acc: Account, k: nat)
    requires StateHeld(s, k) && AccountHeld(acc, |s.heap.own|, k)
    ensures StateHeld(WithAccount(s, a, acc), k)
  {
    hide AccountHeld;
  }

  lemma LeaveHeld(s: State, a: Address, appID: nat, k: nat)
    requires StateHeld(s, k) && LeaveApp(s, a, appID).Ok?
    ensures StateHeld(LeaveApp(s, a, appID).value, k)
  {
    assert AccountHeld(s.accounts[a], |s.heap.own|, k);
    ReplaceHeld(s, a, LeaveApp(s, a, appID).value.accounts[a], k);
  }

  lemma RemoveHeld(s: State, appID: nat, k: nat)
    requires StateHeld(s, k) && RemoveApp(s, appID).Ok?
    ensures StateHeld(RemoveApp(s, appID).value, k)
  {
    var a := AppOwner(s, appID).value;
    assert AccountHeld(s.accounts[a], |s.heap.own|, k);
    ReplaceHeld(s, a, RemoveApp(s, appID).value.accounts[a], k);
  }

  lemma SetProgramsHeld(s: State, appID: nat, approval: string, clear: string, k: nat)
    requires StateHeld(s, k) && SetPrograms(s, appID, approval, clear).Ok?
    ensures StateHeld(SetPrograms(s, appID, approval, clear).value, k)
  {
    var a := AppOwner(s, appID).value;
    assert AccountHeld(s.accounts[a], |s.heap.own|, k);
    ReplaceHeld(s, a, SetPrograms(s, appID, approval, clear).value.accounts[a], k);
  }

  lemma BeginHeld(s: State, a: Address, kind: Kind, clear: string, k: nat)
    requires StateHeld(s, k) && kind.DeploySSC? && BeginApp(s, a, kind, clear).Ok?
    ensures StateHeld(BeginApp(s, a, kind, clear).value, k)
  {
    assert AccountHeld(s.accounts[a], |s.heap.own|, k);
    ReplaceHeld(s, a, BeginApp(s, a, kind, clear).value.accounts[a], k);
  }

  lemma FinishHeld(s: State, a: Address, k: nat)
    requires StateHeld(s, k) && FinishApp(s, a).Ok?
    ensures StateHeld(FinishApp(s, a).value, k)
  {
    assert AccountHeld(s.accounts[a], |s.heap.own|, k);
    assert AccountHeld(s.accounts[AppOwner(s, 0).value], |s.heap.own|, k);
    ReplaceHeld(s, a, FinishApp(s, a).value.accounts[a], k);
  }

  lemma JoinHeld(s: State, a: Address, appID: nat, k: nat)
    requires StateHeld(s, k) && JoinApp(s, a, appID).Ok?
    ensures StateHeld(JoinApp(s, a, appID).value, k)
  {
    assert AccountHeld(s.accounts[a], |s.heap.own|, k);
    ReplaceHeld(s, a, JoinApp(s, a, appID).value.accounts[a], k);
  }

  /** The state that the program of an application transaction starts on. */
  lemma AppRunHeld(s: State, p: Param, k: nat)
    requires StateHeld(s, k) && IsAppKind(p.kind) && AppRun(s, p).Some?
    ensures StateHeld(AppRun(s, p).value.0, k)
  {
    hide StateHeld, BeginApp, JoinApp;
    match p.kind
    case DeploySSC(approval, _, _) => BeginHeld(s, p.sender, p.kind, approval, k);
    case OptInSSC(appID) => JoinHeld(s, p.sender, appID, k);
    case _ =>
  }

  lemma AppKindHeld(s: State, p: Param, gtxs: seq<Txn>, chain: Chain, k: nat, named: set<nat>)
    requires StateHeld(s, k) && ParamHeld(p, chain.env, k, named) && GroupOwnsData(gtxs)
    requires k == 0 ==> Texts(s, ClosedTest(chain.env, named))
    requires IsAppKind(p.kind) && ApplyAppKind(s, p, gtxs, chain).Ok?
    ensures StateHeld(ApplyAppKind(s, p, gtxs, chain).value, k)
  {
    hide StateHeld, Texts, ParamTexts, ClosedText, TxnOwnsData, ArgsExist, AppRun, RunTeal;
    hide ApplyAppKind, LeaveApp, RemoveApp, SetPrograms, FinishApp;
    AppKindAfterRun(s, p, gtxs, chain);
    AppRunHeld(s, p, k);
    if k == 0 {
      AppRunPasses(s, p, ClosedTest(chain.env, named));
    }
    var (s1, program) := AppRun(s, p).value;
    RunTealHeld(s1, program, Parser.Application, p, gtxs, chain, k);
    var t := Ran(s, p, gtxs, chain);
    match p.kind
    case CallNoOp(_) =>
    case CloseOut(appID) => LeaveHeld(t, p.sender, appID, k);
    case Clear(appID) => LeaveHeld(t, p.sender, appID, k);
    case Delete(appID) => RemoveHeld(t, appID, k);
    case Update(appID, approval, clear) => SetProgramsHeld(t, appID, approval, clear, k);
    case DeploySSC(_, _, _) => FinishHeld(t, p.sender, k);
    case OptInSSC(_) =>
  }

  // ---- Transactions and groups ----

  lemma ApplyHeld(s: State, p: Param, gtxs: seq<Txn>, chain: Chain, k: nat, named: set<nat>)
    requires StateHeld(s, k) && ParamHeld(p, chain.env, k, named) && GroupOwnsData(gtxs)
    requires k == 0 ==> Texts(s, ClosedTest(chain.env, named))
    requires Apply(s, p, gtxs, chain).Ok?
    ensures StateHeld(Apply(s, p, gtxs, chain).value, k)
  {
    hide StateHeld, ParamHeld, Texts, TransferAlgos, AddAsset, ApplyAssetKind, ApplyAppKind, OnlyAmounts;
    var t := Apply(s, p, gtxs, chain).value;
    if p.kind.TransferAlgo? {
      PaymentFrame(s, p.sender, p.kind.to, p.kind.microAlgos, p.closeTo);
      PaymentArrays(s, t);
      OnlyAmountsHeld(s, t, k);
    } else if p.kind.DeployASA? {
      AddAssetFrame(s, p.sender, p.kind.name, chain.asaDefs[p.kind.name]);
      DeployArrays(s, p.sender, p.kind.name, chain.asaDefs[p.kind.name]);
      SameStateHeld(s, t, k);
    } else if IsAssetKind(p.kind) {
      AssetKindFrame(s, p);
      AssetKindArrays(s, p);
      SameStateHeld(s, t, k);
    } else {
      AppKindHeld(s, p, gtxs, chain, k, named);
    }
  }

  lemma SignatureHeld(s: State, p: Param, gtxs: seq<Txn>, chain: Chain, k: nat, named: set<nat>)
    requires StateHeld(s, k) && ParamHeld(p, chain.env, k, named) && GroupOwnsData(gtxs)
    requires CheckSignature(s, p, gtxs, chain).Ok?
    ensures StateHeld(CheckSignature(s, p, gtxs, chain).value, k)
  {
    hide RunTeal, ClosedText, TxnOwnsData;
    match p.sign
    case SecretKey =>
    case LogicSignature(lsig) =>
      ArgsHeld(s, lsig.value.args, k);
      RunTealHeld(WithArgs(s, lsig.value.args), lsig.value.program, Parser.Signature, p, gtxs, chain, k);
  }

  lemma ArgsHeld(s: State, args: seq<nat>, k: nat)
    requires StateHeld(s, k) && (k > 0 ==> forall i :: 0 <= i < |args| ==> args[i] < k)
    ensures StateHeld(WithArgs(s, args), k)
  {
    hide AccountHeld;
  }

  lemma TransactHeld(s: State, p: Param, gtxs: seq<Txn>, chain: Chain, k: nat, named: set<nat>)
    requires StateHeld(s, k) && ParamHeld(p, chain.env, k, named) && GroupOwnsData(gtxs)
    requires k == 0 ==> Texts(s, ClosedTest(chain.env, named))
    requires Transact(s, p, gtxs, chain).Ok?
    ensures StateHeld(Transact(s, p, gtxs, chain).value, k)
  {
    hide StateHeld, ParamHeld, Texts, DeductFee, CheckSignature, Apply, OnlyAmounts;
    var s1 := DeductFee(s, p.sender, p.txn.fee).value;
    FeeFrame(s, p.sender, p.txn.fee);
    OnlyAmountsHeld(s, s1, k);
    SignatureHeld(s1, p, gtxs, chain, k, named);
    if k == 0 {
      PrepareTexts(s, p, gtxs, chain, ClosedTest(chain.env, named));
    }
    ApplyHeld(Prepare(s, p, gtxs, chain).value, p, gtxs, chain, k, named);
  }

  lemma {:induction false} ProcessHeld(
      s: State, g: Group, i: nat, gtxs: seq<Txn>, chain: Chain, k: nat, named: set<nat>)
    requires i <= |g| && StateHeld(s, k) && GroupOwnsData(gtxs)
    requires forall j :: 0 <= j < |g| ==> ParamHeld(g[j], chain.env, k, named)
    requires k == 0 ==> Texts(s, ClosedTest(chain.env, named))
    requires Process(s, g, i, gtxs, chain).Ok?
    ensures StateHeld(Process(s, g, i, gtxs, chain).value, k)
    decreases |g| - i
  {
    hide StateHeld, GroupOwnsData, Texts, ParamTexts, Transact, TxnOwnsData, ArgsExist, Names, ClosedText;
    if i < |g| {
      TransactHeld(s, g[i], gtxs, chain, k, named);
      if k == 0 {
        TransactTexts(s, g[i], gtxs, chain, ClosedTest(chain.env, named));
      }
      ProcessHeld(Transact(s, g[i], gtxs, chain).value, g, i + 1, gtxs, chain, k, named);
    }
  }

  // ---- The copy ----

  lemma DetachedAccountHeld(acc: Account, m: nat, n: nat)
    requires AccountHeld(acc, m, n)
    ensures AccountHeld(DetachedAccount(acc, m, n), m + n, 0)
  {
    var copy := DetachedAccount(acc, m, n);
    forall id | id in copy.createdApps
      ensures KvHeld(copy.createdApps[id].globals, m + n, 0)
    {
      assert KvHeld(acc.createdApps[id].globals, m, n);
    }
    forall id | id in copy.appsLocalState
      ensures KvHeld(copy.appsLocalState[id].kv, m + n, 0)
    {
      assert KvHeld(acc.appsLocalState[id].kv, m, n);
    }
  }

  lemma InsideIsClosed(acc: Account, m: nat, n: nat)
    requires AccountHeld(acc, m, n) && !AccountRefersOutside(acc, n)
    ensures AccountHeld(acc, m, 0)
  {
    forall id | id in acc.createdApps
      ensures KvHeld(acc.createdApps[id].globals, m, 0)
    {
      assert KvHeld(acc.createdApps[id].globals, m, n) && !KvRefersOutside(acc.createdApps[id].globals, n);
    }
    forall id | id in acc.appsLocalState
      ensures KvHeld(acc.appsLocalState[id].kv, m, 0)
    {
      assert KvHeld(acc.appsLocalState[id].kv, m, n) && !KvRefersOutside(acc.appsLocalState[id].kv, n);
    }
  }

  /** A deep copy refers to no shared array. */
  lemma OpenedIsClosed(s: State)
    requires StateHeld(s, |s.heap.shared|)
    ensures StateHeld(Opened(s), 0)
  {
    hide DetachedAccount, AccountRefersOutside, AccountHeld;
    var m, n := |s.heap.own|, |s.heap.shared|;
    forall a | a in Opened(s).accounts
      ensures AccountHeld(Opened(s).accounts[a], |Opened(s).heap.own|, 0)
    {
      if RefersOutside(s) {
        DetachedAccountHeld(s.accounts[a], m, n);
      } else {
        InsideIsClosed(s.accounts[a], m, n);
      }
    }
  }

  lemma ClosedRefersNowhere(s: State)
    requires StateHeld(s, 0)
    ensures !RefersOutside(s)
  {
    forall a | a in s.accounts
      ensures !AccountRefersOutside(s.accounts[a], |s.heap.shared|)
    {
      assert AccountHeld(s.accounts[a], |s.heap.own|, 0);
    }
  }

  /** A closed state without arguments is good for any number of shared arrays. */
  lemma ClosedIsHeld(s: State, k: nat)
    requires StateHeld(s, 0) && forall i :: 0 <= i < |s.args| ==> s.args[i] < k
    ensures StateHeld(s, k)
  {
    forall a | a in s.accounts
      ensures AccountHeld(s.accounts[a], |s.heap.own|, k)
    {
      assert AccountHeld(s.accounts[a], |s.heap.own|, 0);
    }
  }

  lemma KvHeldAt(s: State, x: Place, k: nat)
    requires StateHeld(s, k)
    ensures KvHeld(KvAt(s, x), |s.heap.own|, k)
  {
    if x.a in s.accounts {
      assert AccountHeld(s.accounts[x.a], |s.heap.own|, k);
    }
  }

  lemma OpenedKv(s: State, x: Place)
    ensures KvAt(Opened(s), x)
            == if RefersOutside(s) then DetachedKv(KvAt(s, x), |s.heap.own|, |s.heap.shared|) else KvAt(s, x)
  {
  }

  lemma DetachedContent(s: State, v: StackElem)
    requires ElemHeld(v, |s.heap.own|, |s.heap.shared|)
    ensures ContentOf(Alloc(s.heap, s.heap.shared), DetachedValue(v, |s.heap.own|, |s.heap.shared|)) == ContentOf(s.heap, v)
  {
  }

  /** A deep copy holds the same contents under the same keys. */
  lemma CopyHasSameContents(s: State)
    requires StateHeld(s, |s.heap.shared|)
    ensures SameContents(s, Opened(s))
  {
    hide StateHeld, RefersOutside, KvAt;
    var t := Opened(s);
    forall x: Place
      ensures Contents(t, x) == Contents(s, x)
    {
      OpenedKv(s, x);
      KvHeldAt(s, x, |s.heap.shared|);
      if RefersOutside(s) {
        forall key | key in KvAt(s, x)
          ensures ContentOf(t.heap, KvAt(t, x)[key]) == ContentOf(s.heap, KvAt(s, x)[key])
        {
          DetachedContent(s, KvAt(s, x)[key]);
        }
      }
    }
  }

  // ---- Calls and runs ----

  lemma SharedHeld(s: State, arrays: seq<Bytes>, k: nat)
    requires StateHeld(s, k)
    ensures StateHeld(WithShared(s, arrays), k)
  {
    hide AccountHeld;
  }

  lemma TxnsOwnData(g: Group)
    requires forall i :: 0 <= i < |g| ==> TxnOwnsData(g[i].txn)
    ensures GroupOwnsData(Txns(g))
  {
    hide TxnOwnsData;
  }

  /** The transaction's data is its own, and its arguments are arrays that exist. */
  predicate ParamExists(p: Param, k: nat) {
    TxnOwnsData(p.txn) && ArgsExist(p, k)
  }

  /** Committed or not, a call leaves only references to arrays that exist. */
  lemma CallHeld(s: State, call: Call, k: nat)
    requires 0 < k == |s.heap.shared| && StateHeld(s, k)
    requires forall i :: 0 <= i < |call.group| ==> ParamExists(call.group[i], k)
    ensures StateHeld(After(s, call), k) && |After(s, call).heap.shared| == k
  {
    hide StateHeld, Process, CheckGroup, LeftShared, Opened, TxnOwnsData, ArgsExist, Names, ClosedTest;
    CallKeepsLengths(s, call);
    var g := call.group;
    if ExecuteTx(s, g, call.chain).Ok? {
      OpenedIsClosed(s);
      OpenedHasNoArgs(s);
      ClosedIsHeld(Opened(s), k);
      TxnsOwnData(g);
      ProcessHeld(Opened(s), g, 0, Txns(g), call.chain, k, {});
      ArgsHeld(Process(Opened(s), g, 0, Txns(g), call.chain).value, [], k);
    } else {
      SharedHeld(s, LeftShared(s, g, call.chain), k);
    }
  }

  lemma OpenedHasNoArgs(s: State)
    ensures Opened(s).args == []
  {
  }

  lemma FreshHeld(s: State, k: nat)
    requires Fresh(s) && s.args == []
    ensures StateHeld(s, k)
  {
  }

  /** Over every run from fresh accounts, every stored reference points to an array that exists, so every copy that a group
      works on has the contents of the store. */
  lemma {:induction false} ReferencesExist(s: State, calls: seq<Call>)
    requires Fresh(s) && s.args == [] && |s.heap.shared| > 0
    requires forall c, i :: 0 <= c < |calls| && 0 <= i < |calls[c].group| ==> ParamExists(calls[c].group[i], |s.heap.shared|)
    ensures var t := Run(s, calls);
            && |t.heap.shared| == |s.heap.shared| && StateHeld(t, |t.heap.shared|)
            && SameContents(t, Opened(t)) && !RefersOutside(Opened(t))
    decreases |calls|
  {
    hide StateHeld, ParamExists, After, SameContents, Opened;
    if calls == [] {
      FreshHeld(s, |s.heap.shared|);
    } else {
      var front, last := calls[..|calls| - 1], calls[|calls| - 1];
      forall c, i | 0 <= c < |front| && 0 <= i < |front[c].group|
        ensures ParamExists(front[c].group[i], |s.heap.shared|)
      {
        assert ParamExists(calls[c].group[i], |s.heap.shared|);
      }
      ReferencesExist(s, front);
      CallHeld(Run(s, front), last, |s.heap.shared|);
    }
    CopyHasSameContents(Run(s, calls));
    OpenedIsClosed(Run(s, calls));
    ClosedRefersNowhere(Opened(Run(s, calls)));
  }

  /** A committed group none of whose programs pushes a shared array leaves a store that refers to none, whatever the store
      before it referred to. */
  lemma ClosedGroupDetaches(s: State, call: Call)
    requires StateHeld(s, |s.heap.shared|) && ExecuteTx(s, call.group, call.chain).Ok?
    requires Texts(s, ClosedTest(call.chain.env, NamedBy(call.group)))
    requires forall i :: 0 <= i < |call.group| ==>
               TxnOwnsData(call.group[i].txn) && ParamTexts(call.group[i], ClosedTest(call.chain.env, NamedBy(call.group)))
    ensures StateHeld(After(s, call), 0) && !RefersOutside(After(s, call))
  {
    hide StateHeld, Process, CheckGroup, Opened, TxnOwnsData, Names, ClosedTest, Texts, ParamTexts, RefersOutside;
    var g, env := call.group, call.chain.env;
    OpenedIsClosed(s);
    OpenedFrame(s);
    SignatureTexts(s, Opened(s), ClosedTest(env, NamedBy(g)));
    TxnsOwnData(g);
    forall i | 0 <= i < |g|
      ensures ParamHeld(g[i], env, 0, NamedBy(g))
    {
      NamesThem(g, i);
    }
    ProcessHeld(Opened(s), g, 0, Txns(g), call.chain, 0, NamedBy(g));
    ArgsHeld(Process(Opened(s), g, 0, Txns(g), call.chain).value, [], 0);
    ClosedRefersNowhere(After(s, call));
  }

  // ---- Runs of closed programs ----

  ghost function AllClosed(env: Env): Test {
    (_: nat, text: string) => ClosedText(text, env)
  }

  /** The call brings only programs that push no shared array. */
  ghost predicate CallClosed(call: Call, env: Env) {
    && call.chain.env == env
    && forall i :: 0 <= i < |call.group| ==> TxnOwnsData(call.group[i].txn) && ParamTexts(call.group[i], AllClosed(env))
  }

  lemma AllClosedIsClosed(s: State, env: Env, named: set<nat>)
    requires Texts(s, AllClosed(env))
    ensures Texts(s, ClosedTest(env, named))
  {
    hide ClosedText, Texts;
    WeakerTexts(s, AllClosed(env), ClosedTest(env, named));
  }

  lemma ParamClosed(p: Param, env: Env, named: set<nat>)
    requires ParamTexts(p, AllClosed(env))
    ensures ParamTexts(p, ClosedTest(env, named))
  {
    hide ClosedText;
    WeakerParamTexts(p, AllClosed(env), ClosedTest(env, named));
  }

  lemma {:induction false} ProcessAllClosed(s: State, g: Group, i: nat, gtxs: seq<Txn>, chain: Chain)
    requires i <= |g| && Texts(s, AllClosed(chain.env)) && Process(s, g, i, gtxs, chain).Ok?
    requires forall j :: 0 <= j < |g| ==> ParamTexts(g[j], AllClosed(chain.env))
    ensures Texts(Process(s, g, i, gtxs, chain).value, AllClosed(chain.env))
    decreases |g| - i
  {
    hide Texts, ParamTexts, ClosedText, Transact;
    if i < |g| {
      TransactTexts(s, g[i], gtxs, chain, AllClosed(chain.env));
      ProcessAllClosed(Transact(s, g[i], gtxs, chain).value, g, i + 1, gtxs, chain);
    }
  }

  lemma CallKeepsClosed(s: State, call: Call, env: Env)
    requires StateHeld(s, 0) && s.args == [] && Texts(s, AllClosed(env)) && CallClosed(call, env)
    ensures var t := After(s, call); StateHeld(t, 0) && t.args == [] && Texts(t, AllClosed(env))
  {
    hide StateHeld, Texts, ParamTexts, AllClosed, ClosedTest, TxnOwnsData, CheckGroup, Process, Opened, LeftShared;
    var g := call.group;
    if ExecuteTx(s, g, call.chain).Ok? {
      ClosedIsHeld(s, |s.heap.shared|);
      AllClosedIsClosed(s, env, NamedBy(g));
      forall i | 0 <= i < |g|
        ensures TxnOwnsData(g[i].txn) && ParamTexts(g[i], ClosedTest(env, NamedBy(g)))
      {
        ParamClosed(g[i], env, NamedBy(g));
      }
      ClosedGroupDetaches(s, call);
      OpenedFrame(s);
      SignatureTexts(s, Opened(s), AllClosed(env));
      ProcessAllClosed(Opened(s), g, 0, Txns(g), call.chain);
      var r := Process(Opened(s), g, 0, Txns(g), call.chain).value;
      ArgsFrame(r, []);
      SignatureTexts(r, WithArgs(r, []), AllClosed(env));
    } else {
      SharedHeld(s, LeftShared(s, g, call.chain), 0);
      SharedFrame(s, LeftShared(s, g, call.chain));
      SignatureTexts(s, After(s, call), AllClosed(env));
    }
  }

  lemma {:induction false} RunStaysClosed(s: State, calls: seq<Call>, env: Env)
    requires Fresh(s) && s.args == [] && forall c :: 0 <= c < |calls| ==> CallClosed(calls[c], env)
    ensures var t := Run(s, calls); StateHeld(t, 0) && t.args == [] && Texts(t, AllClosed(env))
    decreases |calls|
  {
    hide StateHeld, CallClosed, AllClosed, After;
    if calls == [] {
      FreshHeld(s, 0);
    } else {
      RunStaysClosed(s, calls[..|calls| - 1], env);
      CallKeepsClosed(Run(s, calls[..|calls| - 1]), calls[|calls| - 1], env);
    }
  }

  /** After every run from fresh accounts whose programs push no shared array, any group that throws, whatever its own programs
      do, leaves everything the store holds as it was, byte for byte. */
  lemma ClosedRunsRollBack(s: State, calls: seq<Call>, env: Env, last: Call)
    requires Fresh(s) && s.args == [] && forall c :: 0 <= c < |calls| ==> CallClosed(calls[c], env)
    requires ExecuteTx(Run(s, calls), last.group, last.chain).Err?
    ensures var t := Run(s, calls); After(t, last) == WithShared(t, After(t, last).heap.shared) && SameContents(t, After(t, last))
  {
    hide StateHeld, CallClosed, SameContents, ExecuteTx, RefersOutside, LeftShared;
    RunStaysClosed(s, calls, env);
    ClosedRefersNowhere(Run(s, calls));
    DetachedThrowRollsBack(Run(s, calls), last);
  }
}
