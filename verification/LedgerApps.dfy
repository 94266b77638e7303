/** Applications: the application index stays consistent, and the minimum balance is exactly what it pays for. */
module LedgerApps {
  import opened Values
  import opened MapSums
  import opened Teal
  import opened TealFrames
  import opened Ledger
  import opened LedgerFrames
  import Parser

  predicate OwnsApp(s: State, a: Address, id: nat) {
    a in s.accounts && id in s.accounts[a].createdApps
  }

  /** Application indices lie between `low` and the counter and agree with the accounts in both directions. */
  ghost predicate AppIndexFrom(s: State, low: nat) {
    && (forall id :: id in s.globalApps ==> low <= id <= s.appCounter && OwnsApp(s, s.globalApps[id], id))
    && (forall a, id :: OwnsApp(s, a, id) ==> id in s.globalApps && s.globalApps[id] == a)
  }

  /** Between groups index 0, which only an application being created has, is unused. */
  ghost predicate AppIndexOk(s: State) {
    AppIndexFrom(s, 1)
  }

  // ---- Minimum balance ----

  function AppCost(app: App): int {
    SchemaCost(app.globalSchema)
  }

  function LocalCost(l: LocalState): int {
    SchemaCost(l.schema)
  }

  /** What an account's holdings, created applications and opted-in applications require. */
  ghost function RequiredBalance(acc: Account): int {
    ACCOUNT_MIN_BALANCE + ASSET_CREATION_FEE * |acc.assets|
    + MapSum(acc.createdApps, AppCost) + MapSum(acc.appsLocalState, LocalCost)
  }

  ghost function Excess(acc: Account): int {
    acc.minBalance - RequiredBalance(acc)
  }

  ghost function ExcessOf(s: State, a: Address): int {
    if a in s.accounts then Excess(s.accounts[a]) else 0
  }

  lemma RequiredAtLeastBase(acc: Account)
    ensures RequiredBalance(acc) >= ACCOUNT_MIN_BALANCE
  {
    MapSumNonNegative(acc.createdApps, AppCost);
    MapSumNonNegative(acc.appsLocalState, LocalCost);
  }

  lemma SameAccountExcess(x: Account, y: Account)
    requires SameAccount(x, y)
    ensures Excess(y) == Excess(x)
  {
    MapSumCong(x.createdApps, AppCost, y.createdApps, AppCost);
    MapSumCong(x.appsLocalState, LocalCost, y.appsLocalState, LocalCost);
  }

  // ---- What each kind of step does to one account's excess ----

  lemma InsertSize<K, V>(m: map<K, V>, k: K, v: V)
    ensures |m[k := v]| == |m| + if k in m then 0 else 1
  {
    assert m[k := v].Keys == m.Keys + {k};
    if k in m {
      assert m.Keys + {k} == m.Keys;
    }
  }

  lemma RemoveSize<K, V>(m: map<K, V>, k: K)
    ensures |m - {k}| == |m| - if k in m then 1 else 0
  {
    assert (m - {k}).Keys == m.Keys - {k};
    if k !in m {
      assert m.Keys - {k} == m.Keys;
    }
  }

  lemma AddAssetExcess(acc: Account, a: Address, id: nat, name: string, d: AsaSpec)
    requires id !in acc.assets && AccountAddAsset(acc, a, id, name, d).Ok?
    ensures Excess(AccountAddAsset(acc, a, id, name, d).value) == Excess(acc)
  {
    InsertSize(acc.assets, id, Holding(d.total, a, false));
  }

  lemma OptInASAExcess(acc: Account, id: nat, h: Holding)
    requires AccountOptInASA(acc, id, h).Ok?
    ensures Excess(AccountOptInASA(acc, id, h).value) == Excess(acc)
  {
    InsertSize(acc.assets, id, h);
  }

  lemma CloseAssetExcess(acc: Account, id: nat)
    ensures Excess(AccountCloseAsset(acc, id)) == Excess(acc)
  {
    RemoveSize(acc.assets, id);
  }

  lemma DestroyAssetExcess(acc: Account, id: nat)
    requires AccountDestroyAsset(acc, id).Ok?
    ensures Excess(AccountDestroyAsset(acc, id).value) == Excess(acc)
  {
    RemoveSize(acc.assets, id);
  }

  /** A holding dropped from outside leaves its share of the minimum balance behind. */
  lemma DropHoldingExcess(acc: Account, id: nat)
    ensures Excess(acc.(assets := acc.assets - {id})) == Excess(acc) + if id in acc.assets then ASSET_CREATION_FEE else 0
  {
    RemoveSize(acc.assets, id);
  }

  lemma HoldingsOnlyExcess(x: Account, y: Account)
    requires y == x.(amount := y.amount, assets := y.assets, createdAssets := y.createdAssets) && y.assets.Keys == x.assets.Keys
    ensures Excess(y) == Excess(x)
  {
    assert |y.assets| == |y.assets.Keys| && |x.assets| == |x.assets.Keys|;
  }

  lemma AddAppExcess(acc: Account, id: nat, app: App)
    requires id !in acc.createdApps
    ensures Excess(acc.(minBalance := acc.minBalance + AppCost(app), createdApps := acc.createdApps[id := app])) == Excess(acc)
  {
    MapSumUpdate(acc.createdApps, AppCost, id, app);
  }

  lemma RemoveAppExcess(acc: Account, id: nat)
    requires id in acc.createdApps
    ensures Excess(acc.(minBalance := acc.minBalance - AppCost(acc.createdApps[id]), createdApps := acc.createdApps - {id}))
            == Excess(acc)
  {
    MapSumPick(acc.createdApps, AppCost, id);
  }

  lemma OptInAppExcess(acc: Account, id: nat, schema: Schema)
    requires AccountOptInApp(acc, id, schema).Ok?
    ensures Excess(AccountOptInApp(acc, id, schema).value) == Excess(acc)
  {
    if id !in acc.appsLocalState {
      MapSumUpdate(acc.appsLocalState, LocalCost, id, LocalState(map[], schema));
    }
  }

  lemma LeaveAppExcess(acc: Account, id: nat)
    requires id in acc.appsLocalState
    ensures Excess(acc.(minBalance := acc.minBalance - SchemaCost(acc.appsLocalState[id].schema),
                        appsLocalState := acc.appsLocalState - {id})) == Excess(acc)
  {
    MapSumPick(acc.appsLocalState, LocalCost, id);
  }

  // ---- Application steps keep the index and every account's excess ----

  ghost predicate SameExcess(s: State, t: State) {
    s.accounts.Keys == t.accounts.Keys && forall a :: a in s.accounts ==> Excess(t.accounts[a]) == Excess(s.accounts[a])
  }

  lemma ReplaceExcess(s: State, a: Address, acc: Account)
    requires a in s.accounts && Excess(acc) == Excess(s.accounts[a])
    ensures SameExcess(s, WithAccount(s, a, acc))
  {
  }

  lemma TealKeepsExcess(s: State, t: State)
    requires TealFrame(s, t)
    ensures SameExcess(s, t)
  {
    forall a | a in s.accounts
      ensures Excess(t.accounts[a]) == Excess(s.accounts[a])
    {
      SameAccountExcess(s.accounts[a], t.accounts[a]);
    }
  }

  lemma TealKeepsIndex(s: State, t: State, low: nat)
    requires TealFrame(s, t) && AppIndexFrom(s, low)
    ensures AppIndexFrom(t, low)
  {
    forall a, id
      ensures OwnsApp(s, a, id) <==> OwnsApp(t, a, id)
    {
      if a in s.accounts {
        assert SameAccount(s.accounts[a], t.accounts[a]);
      }
    }
  }

  /** Steps outside the applications keep the application index. */
  lemma SameAppStatesIndex(s: State, t: State)
    requires SameAppStates(s, t) && AppIndexOk(s)
    ensures AppIndexOk(t)
  {
    forall a, id | OwnsApp(t, a, id)
      ensures OwnsApp(s, a, id)
    {
    }
    forall id | id in t.globalApps
      ensures OwnsApp(t, t.globalApps[id], id)
    {
      assert OwnsApp(s, s.globalApps[id], id);
    }
  }

  lemma ReplaceKeepsIndex(s: State, a: Address, acc: Account)
    requires a in s.accounts && acc.createdApps.Keys == s.accounts[a].createdApps.Keys && AppIndexOk(s)
    ensures AppIndexOk(WithAccount(s, a, acc))
  {
    var t := WithAccount(s, a, acc);
    forall b, id
      ensures OwnsApp(t, b, id) <==> OwnsApp(s, b, id)
    {
      if b == a {
        assert id in acc.createdApps.Keys <==> id in s.accounts[a].createdApps.Keys;
      }
    }
  }

  /** The two facts every application step keeps. */
  ghost predicate AppsKept(s: State, t: State) {
    SameExcess(s, t) && AppIndexOk(t)
  }

  lemma ExcessTransitive(s: State, t: State, u: State)
    requires SameExcess(s, t) && SameExcess(t, u)
    ensures SameExcess(s, u)
  {
  }

  lemma JoinAppKeeps(s: State, a: Address, appID: nat)
    requires AppIndexOk(s) && JoinApp(s, a, appID).Ok?
    ensures AppsKept(s, JoinApp(s, a, appID).value)
  {
    var t := JoinApp(s, a, appID).value;
    OptInAppExcess(s.accounts[a], appID, GetApp(s, appID).value.localSchema);
    ReplaceExcess(s, a, t.accounts[a]);
    ReplaceKeepsIndex(s, a, t.accounts[a]);
  }

  lemma LeaveAppKeeps(s: State, a: Address, appID: nat)
    requires AppIndexOk(s) && LeaveApp(s, a, appID).Ok?
    ensures AppsKept(s, LeaveApp(s, a, appID).value)
  {
    var t := LeaveApp(s, a, appID).value;
    LeaveAppExcess(s.accounts[a], appID);
    ReplaceExcess(s, a, t.accounts[a]);
    ReplaceKeepsIndex(s, a, t.accounts[a]);
  }

  lemma RemoveAppKeeps(s: State, appID: nat)
    requires AppIndexOk(s) && RemoveApp(s, appID).Ok?
    ensures AppsKept(s, RemoveApp(s, appID).value)
  {
    hide Excess;
    var t, a := RemoveApp(s, appID).value, AppOwner(s, appID).value;
    RemoveAppExcess(s.accounts[a], appID);
    ReplaceExcess(s, a, t.accounts[a]);
    forall b, id
      ensures OwnsApp(t, b, id) <==> OwnsApp(s, b, id) && !(b == a && id == appID)
    {
    }
  }

  lemma SetProgramsKeeps(s: State, appID: nat, approval: string, clear: string)
    requires AppIndexOk(s) && SetPrograms(s, appID, approval, clear).Ok?
    ensures AppsKept(s, SetPrograms(s, appID, approval, clear).value)
  {
    var t, a := SetPrograms(s, appID, approval, clear).value, AppOwner(s, appID).value;
    MapSumCong(s.accounts[a].createdApps, AppCost, t.accounts[a].createdApps, AppCost);
    ReplaceExcess(s, a, t.accounts[a]);
    ReplaceKeepsIndex(s, a, t.accounts[a]);
  }

  lemma BeginAppExcess(s: State, a: Address, k: Kind, clear: string)
    requires k.DeploySSC? && BeginApp(s, a, k, clear).Ok? && !OwnsApp(s, a, 0)
    ensures SameExcess(s, BeginApp(s, a, k, clear).value)
  {
    AddAppExcess(s.accounts[a], 0, App(k.approval, clear, a, map[], k.globalSchema, k.localSchema));
    ReplaceExcess(s, a, BeginApp(s, a, k, clear).value.accounts[a]);
  }

  lemma BeginAppIndex(s: State, a: Address, k: Kind, clear: string)
    requires AppIndexOk(s) && k.DeploySSC? && BeginApp(s, a, k, clear).Ok?
    ensures var t := BeginApp(s, a, k, clear).value; AppIndexFrom(t, 0) && OwnsApp(t, a, 0)
  {
    var t := BeginApp(s, a, k, clear).value;
    forall b, id
      ensures OwnsApp(t, b, id) <==> OwnsApp(s, b, id) || (b == a && id == 0)
    {
    }
  }

  lemma RenameAppExcess(acc: Account, id: nat)
    requires 0 in acc.createdApps && id !in acc.createdApps
    ensures Excess(acc.(createdApps := (acc.createdApps - {0})[id := acc.createdApps[0]])) == Excess(acc)
  {
    MapSumPick(acc.createdApps, AppCost, 0);
    MapSumUpdate(acc.createdApps - {0}, AppCost, id, acc.createdApps[0]);
  }

  lemma RenameKeepsExcess(s: State, a: Address, id: nat)
    requires OwnsApp(s, a, 0) && !OwnsApp(s, a, id)
    ensures var acc := s.accounts[a];
            SameExcess(s, WithAccount(s, a, acc.(createdApps := (acc.createdApps - {0})[id := acc.createdApps[0]])))
  {
    var acc := s.accounts[a];
    RenameAppExcess(acc, id);
    ReplaceExcess(s, a, acc.(createdApps := (acc.createdApps - {0})[id := acc.createdApps[0]]));
  }

  lemma FinishAppExcess(s: State, a: Address)
    requires FinishApp(s, a).Ok? && OwnsApp(s, a, 0) && !OwnsApp(s, a, s.appCounter + 1)
    requires 0 in s.globalApps && s.globalApps[0] == a
    ensures SameExcess(s, FinishApp(s, a).value)
  {
    RenameKeepsExcess(s, a, s.appCounter + 1);
    FinishAppAccounts(s, a);
  }

  lemma FinishAppAccounts(s: State, a: Address)
    requires FinishApp(s, a).Ok? && OwnsApp(s, a, 0) && 0 in s.globalApps && s.globalApps[0] == a
    ensures var acc := s.accounts[a];
            FinishApp(s, a).value.accounts
            == s.accounts[a := acc.(createdApps := (acc.createdApps - {0})[s.appCounter + 1 := acc.createdApps[0]])]
  {
  }

  lemma FinishAppOwners(s: State, a: Address, b: Address, j: nat)
    requires AppIndexFrom(s, 0) && OwnsApp(s, a, 0) && FinishApp(s, a).Ok?
    ensures OwnsApp(FinishApp(s, a).value, b, j) <==> (OwnsApp(s, b, j) && j != 0) || (b == a && j == s.appCounter + 1)
  {
    assert OwnsApp(s, b, 0) ==> b == a;
  }

  lemma FinishAppIndex(s: State, a: Address)
    requires AppIndexFrom(s, 0) && OwnsApp(s, a, 0) && FinishApp(s, a).Ok?
    ensures AppIndexOk(FinishApp(s, a).value)
  {
    var t := FinishApp(s, a).value;
    forall b, j
      ensures OwnsApp(t, b, j) <==> (OwnsApp(s, b, j) && j != 0) || (b == a && j == s.appCounter + 1)
    {
      FinishAppOwners(s, a, b, j);
    }
  }

  // ---- Whole application transactions ----

  lemma RunAcceptedKeepsApps(s: State, program: string, mode: Parser.Mode, p: Param, gtxs: seq<Txn>, chain: Chain, low: nat)
    requires AppIndexFrom(s, low) && RunAccepted(s, program, mode, p, gtxs, chain).Ok?
    ensures var t := RunAccepted(s, program, mode, p, gtxs, chain).value;
            && SameExcess(s, t) && AppIndexFrom(t, low) && (forall a, id :: OwnsApp(s, a, id) ==> OwnsApp(t, a, id))
  {
    var t := RunAccepted(s, program, mode, p, gtxs, chain).value;
    RunAcceptedFrame(s, program, mode, p, gtxs, chain);
    TealKeepsExcess(s, t);
    TealKeepsIndex(s, t, low);
    forall a, id | OwnsApp(s, a, id)
      ensures OwnsApp(t, a, id)
    {
      assert SameAccount(s.accounts[a], t.accounts[a]);
    }
  }

  /** While an application is being created its program may run, and only then does it get its index. */
  lemma FinishAppKeeps(s: State, a: Address)
    requires AppIndexFrom(s, 0) && OwnsApp(s, a, 0) && FinishApp(s, a).Ok?
    ensures AppsKept(s, FinishApp(s, a).value)
  {
    assert !OwnsApp(s, a, s.appCounter + 1);
    FinishAppExcess(s, a);
    FinishAppIndex(s, a);
  }

  lemma AddAppKeeps(s: State, p: Param, gtxs: seq<Txn>, chain: Chain)
    requires AppIndexOk(s) && p.kind.DeploySSC? && AddApp(s, p, gtxs, chain).Ok?
    ensures AppsKept(s, AddApp(s, p, gtxs, chain).value)
  {
    var s1 := BeginApp(s, p.sender, p.kind, p.kind.approval).value;
    assert !OwnsApp(s, p.sender, 0);
    BeginAppExcess(s, p.sender, p.kind, p.kind.approval);
    BeginAppIndex(s, p.sender, p.kind, p.kind.approval);
    RunAcceptedKeepsApps(s1, p.kind.approval, Parser.Application, p, gtxs, chain, 0);
    var s2 := RunAccepted(s1, p.kind.approval, Parser.Application, p, gtxs, chain).value;
    FinishAppKeeps(s2, p.sender);
    ExcessTransitive(s, s1, s2);
    ExcessTransitive(s, s2, FinishApp(s2, p.sender).value);
  }

  lemma ClearAppKeeps(s: State, p: Param, appID: nat, gtxs: seq<Txn>, chain: Chain)
    requires AppIndexOk(s) && ClearApp(s, p, appID, gtxs, chain).Ok?
    ensures AppsKept(s, ClearApp(s, p, appID, gtxs, chain).value)
  {
    var program := GetApp(s, appID).value.clear;
    var t := RunTeal(s, program, Parser.Application, p, gtxs, chain).st;
    RunTealFrame(s, program, Parser.Application, p, gtxs, chain);
    TealKeepsExcess(s, t);
    TealKeepsIndex(s, t, 1);
    LeaveAppKeeps(t, p.sender, appID);
    ExcessTransitive(s, t, LeaveApp(t, p.sender, appID).value);
  }

  lemma CallAppKeeps(s: State, p: Param, appID: nat, gtxs: seq<Txn>, chain: Chain)
    requires AppIndexOk(s) && CallApp(s, p, appID, gtxs, chain).Ok?
    ensures AppsKept(s, CallApp(s, p, appID, gtxs, chain).value)
  {
    RunAcceptedKeepsApps(s, GetApp(s, appID).value.approval, Parser.Application, p, gtxs, chain, 1);
  }

  lemma OptInAppKeeps(s: State, p: Param, appID: nat, gtxs: seq<Txn>, chain: Chain)
    requires AppIndexOk(s) && OptInApp(s, p, appID, gtxs, chain).Ok?
    ensures AppsKept(s, OptInApp(s, p, appID, gtxs, chain).value)
  {
    var s1 := JoinApp(s, p.sender, appID).value;
    JoinAppKeeps(s, p.sender, appID);
    RunAcceptedKeepsApps(s1, GetApp(s, appID).value.approval, Parser.Application, p, gtxs, chain, 1);
    ExcessTransitive(s, s1, OptInApp(s, p, appID, gtxs, chain).value);
  }

  /** Every application transaction keeps the index and leaves no account's minimum balance off. */
  lemma AppKindKeeps(s: State, p: Param, gtxs: seq<Txn>, chain: Chain)
    requires AppIndexOk(s) && IsAppKind(p.kind) && ApplyAppKind(s, p, gtxs, chain).Ok?
    ensures AppsKept(s, ApplyAppKind(s, p, gtxs, chain).value)
  {
    hide LeaveApp, RemoveApp, SetPrograms, Ledger.ClearApp, AddApp, OptInApp, RunAccepted, Excess;
    match p.kind
    case CallNoOp(appID) => CallAppKeeps(s, p, appID, gtxs, chain);
    case CloseOut(appID) =>
      var s1 := CallApp(s, p, appID, gtxs, chain).value;
      CallAppKeeps(s, p, appID, gtxs, chain);
      LeaveAppKeeps(s1, p.sender, appID);
      ExcessTransitive(s, s1, LeaveApp(s1, p.sender, appID).value);
    case Clear(appID) => ClearAppKeeps(s, p, appID, gtxs, chain);
    case Delete(appID) =>
      var s1 := CallApp(s, p, appID, gtxs, chain).value;
      CallAppKeeps(s, p, appID, gtxs, chain);
      RemoveAppKeeps(s1, appID);
      ExcessTransitive(s, s1, RemoveApp(s1, appID).value);
    case Update(appID, approval, clear) =>
      var s1 := CallApp(s, p, appID, gtxs, chain).value;
      CallAppKeeps(s, p, appID, gtxs, chain);
      SetProgramsKeeps(s1, appID, approval, clear);
      ExcessTransitive(s, s1, SetPrograms(s1, appID, approval, clear).value);
    case DeploySSC(_, _, _) => AddAppKeeps(s, p, gtxs, chain);
    case OptInSSC(appID) => OptInAppKeeps(s, p, appID, gtxs, chain);
  }
}
