/** The context a transaction group works in: methods that update the accounts of a copied store in place. */
module Contexts {
  import opened Values
  import opened Teal
  import opened TealRun
  import opened Ledger
  import opened Stores
  import opened Interpreters
  import Parser

  const EMPTY_TXN := Txn(0, 0, 0, "", None, None, None, None, map[], map[])

  class Ctx {
    const state: Store
    const gtxs: seq<Txn>
    const chain: Chain
    var tx: Txn
    var args: seq<nat>

    ghost predicate Valid()
      reads state`accounts, state.accounts.Values
    {
      state.Valid()
    }

    ghost function Abs(): State
      reads this`args, state, state.shared, state.accounts.Values
    {
      state.Abs(args)
    }

    constructor (state: Store, gtxs: seq<Txn>, chain: Chain)
      ensures this.state == state && this.gtxs == gtxs && this.chain == chain && args == []
    {
      this.state, this.gtxs, this.chain, args := state, gtxs, chain, [];
      tx := if gtxs == [] then EMPTY_TXN else gtxs[0];
    }

    lemma SharedOfAbs()
      ensures Abs().heap.shared == state.shared.arrays
    {
    }

    // ---- Lookups and checks ----

    method GetAccount(a: Address) returns (o: Outcome, acc: AccountStore?)
      ensures o == Ensure(a in state.accounts, AccountDoesNotExist)
      ensures o == Pass ==> a in state.accounts && acc == state.accounts[a]
    {
      if a !in state.accounts {
        return Throw(AccountDoesNotExist), null;
      }
      return Pass, state.accounts[a];
    }

    method AssertAccBalAboveMin(a: Address) returns (o: Outcome)
      requires a in state.accounts
      ensures o == OutcomeOf(AboveMin(Abs(), a))
    {
      var acc := state.accounts[a];
      return Ensure(acc.amount >= acc.minBalance, InsufficientBalance);
    }

    method GetAssetHolding(id: nat, a: Address) returns (o: Outcome, h: Holding)
      ensures Agrees(GetHolding(Abs(), id, a), o, h)
    {
      h := Holding(0, "", false);
      var acc :- GetAccount(a);
      :- Ensure(id in acc.assets, AsaNotOptIn);
      return Pass, acc.assets[id];
    }

    method AssertAssetNotFrozen(id: nat, a: Address) returns (o: Outcome)
      ensures o == OutcomeOf(NotFrozen(Abs(), id, a))
    {
      var h :- GetAssetHolding(id, a);
      return Ensure(!h.frozen, AccountAssetFrozen);
    }

    method GetAssetAccount(id: nat) returns (o: Outcome, c: Address)
      ensures Agrees(AssetCreator(Abs(), id), o, c)
    {
      c := "";
      :- Ensure(id in state.assetDefs, AssetNotFound);
      c := state.assetDefs[id];
      o := Ensure(c in state.accounts, AccountDoesNotExist);
    }

    method GetAssetDef(id: nat) returns (o: Outcome, c: Address, d: Option<AssetDef>)
      ensures o == OutcomeOf(Ledger.GetAssetDef(Abs(), id))
      ensures o == Pass ==> AssetCreator(Abs(), id) == Ok(c) && d == Some(Ledger.GetAssetDef(Abs(), id).value)
    {
      d := None;
      c :- GetAssetAccount(id);
      var defs := state.accounts[c].createdAssets;
      :- Ensure(id in defs, AssetNotFound);
      return Pass, c, Some(defs[id]);
    }

    // ---- Payments ----

    /** Adds to one account's balance. */
    method AddAmount(a: Address, delta: int)
      requires Valid() && a in state.accounts
      modifies state.accounts.Values
      ensures Valid() && Abs() == Credit(old(Abs()), a, delta)
    {
      var acc := state.accounts[a];
      acc.amount := acc.amount + delta;
      state.Replaced(a);
    }

    method DeductFee(sender: Address, fee: nat) returns (o: Outcome)
      requires Valid()
      modifies state.accounts.Values
      ensures Valid() && Agrees(Ledger.DeductFee(old(Abs()), sender, fee), o, Abs())
    {
      hide Store.Accounts;
      state.SameKeys();
      var _ :- GetAccount(sender);
      AddAmount(sender, -(fee as int));
      o := AssertAccBalAboveMin(sender);
    }

    method ZeroAmount(a: Address)
      requires Valid() && a in state.accounts
      modifies state.accounts.Values
      ensures Valid() && Abs() == WithAccount(old(Abs()), a, old(Abs()).accounts[a].(amount := 0))
    {
      state.accounts[a].amount := 0;
      state.Replaced(a);
    }

    method CloseAlgos(from: Address, closeTo: Address) returns (o: Outcome)
      requires Valid() && from in state.accounts
      modifies state.accounts.Values
      ensures Valid()
      ensures var s := old(Abs());
              if closeTo !in s.accounts then o == Throw(AccountDoesNotExist)
              else var s2 := Credit(s, closeTo, s.accounts[from].amount);
                   o == Pass && Abs() == WithAccount(s2, from, s2.accounts[from].(amount := 0))
    {
      hide Store.Accounts;
      state.SameKeys();
      state.ValueAt(from);
      var fromAccount := state.accounts[from];
      var _ :- GetAccount(closeTo);
      AddAmount(closeTo, fromAccount.amount);
      ZeroAmount(from);
      return Pass;
    }

    method PayAlgos(from: Address, to: Address, amount: nat)
      requires Valid() && from in state.accounts && to in state.accounts
      modifies state.accounts.Values
      ensures Valid() && Abs() == Credit(Credit(old(Abs()), from, -(amount as int)), to, amount)
    {
      hide Store.Accounts;
      AddAmount(from, -(amount as int));
      AddAmount(to, amount);
    }

    method TransferAlgo(from: Address, to: Address, amount: nat, closeTo: Address) returns (o: Outcome)
      requires Valid()
      modifies state.accounts.Values
      ensures Valid() && Agrees(TransferAlgos(old(Abs()), from, to, amount, closeTo), o, Abs())
    {
      hide Store.Accounts;
      state.SameKeys();
      var _ :- GetAccount(from);
      var _ :- GetAccount(to);
      PayAlgos(from, to, amount);
      :- AssertAccBalAboveMin(from);
      if closeTo == "" {
        return Pass;
      }
      o := CloseAlgos(from, closeTo);
    }

    // ---- Assets ----

    /** The account part of asset creation, and the check of the raised minimum balance. */
    method CreateAsset(a: Address, id: nat, name: string, d: AsaSpec) returns (o: Outcome)
      requires Valid() && a in state.accounts
      modifies state.accounts.Values
      ensures Valid()
      ensures match AccountAddAsset(old(Abs()).accounts[a], a, id, name, d)
              case Ok(acc) =>
                o == Ensure(acc.amount >= acc.minBalance, InsufficientBalance) && Abs() == WithAccount(old(Abs()), a, acc)
              case Err(e) => o == Throw(e)
    {
      label before:
      :- state.accounts[a].AddAsset(id, name, d);
      state.Replaced@before(a);
      o := AssertAccBalAboveMin(a);
    }

    method CountAsset()
      requires Valid()
      modifies state`assetCounter
      ensures Valid() && Abs() == old(Abs()).(assetCounter := old(state.assetCounter) + 1)
    {
      state.assetCounter := state.assetCounter + 1;
    }

    method SetAssetCreator(id: nat, a: Address)
      requires Valid()
      modifies state`assetDefs
      ensures Valid() && Abs() == old(Abs()).(assetDefs := old(state.assetDefs)[id := a])
    {
      state.assetDefs := state.assetDefs[id := a];
    }

    method RegisterAsset(a: Address, id: nat, name: string, d: AsaSpec) returns (o: Outcome)
      requires Valid() && a in state.accounts
      modifies state`assetDefs, state.accounts.Values
      ensures Valid()
      ensures match AccountAddAsset(old(Abs()).accounts[a], a, id, name, d)
              case Ok(acc) =>
                && o == Ensure(acc.amount >= acc.minBalance, InsufficientBalance)
                && (o == Pass ==> Abs() == WithAccount(old(Abs()), a, acc).(assetDefs := old(state.assetDefs)[id := a]))
              case Err(e) => o == Throw(e)
    {
      o := Pass;
      :- CreateAsset(a, id, name, d);
      SetAssetCreator(id, a);
      return Pass;
    }

    /** Asset creation in one step, for a creator that exists. */
    static function AssetAdded(s: State, a: Address, name: string, d: AsaSpec): Result<State>
      requires a in s.accounts
    {
      var id := s.assetCounter + 1;
      var acc :- AccountAddAsset(s.accounts[a], a, id, name, d);
      if acc.amount < acc.minBalance then Err(InsufficientBalance)
      else Ok(s.(accounts := s.accounts[a := acc], assetCounter := id, assetDefs := s.assetDefs[id := a]))
    }

    static lemma AddAssetInOneStep(s: State, a: Address, name: string, d: AsaSpec)
      requires a in s.accounts
      ensures Ledger.AddAsset(s, a, name, d) == AssetAdded(s, a, name, d)
    {
    }

    method AddAssetTo(a: Address, name: string, d: AsaSpec) returns (o: Outcome)
      requires Valid() && a in state.accounts
      modifies state`assetCounter, state`assetDefs, state.accounts.Values
      ensures Valid() && Agrees(AssetAdded(old(Abs()), a, name, d), o, Abs())
    {
      hide Store.Accounts;
      CountAsset();
      o := RegisterAsset(a, state.assetCounter, name, d);
    }

    /** Creates an asset from a loaded definition, under the next index. */
    method AddAsset(name: string, from: Address, d: AsaSpec) returns (o: Outcome)
      requires Valid()
      modifies state`assetCounter, state`assetDefs, state.accounts.Values
      ensures Valid() && Agrees(Ledger.AddAsset(old(Abs()), from, name, d), o, Abs())
    {
      o := Pass;
      :- Ensure(from in state.accounts, AccountDoesNotExist);
      AddAssetInOneStep(Abs(), from, name, d);
      o := AddAssetTo(from, name, d);
    }

    method JoinAsset(a: Address, id: nat, h: Holding) returns (o: Outcome)
      requires Valid() && a in state.accounts
      modifies state.accounts.Values
      ensures Valid()
      ensures match AccountOptInASA(old(Abs()).accounts[a], id, h)
              case Ok(acc) =>
                o == Ensure(acc.amount >= acc.minBalance, InsufficientBalance) && Abs() == WithAccount(old(Abs()), a, acc)
              case Err(e) => o == Throw(e)
    {
      label before:
      :- state.accounts[a].OptInToASA(id, h);
      state.Replaced@before(a);
      o := AssertAccBalAboveMin(a);
    }

    method OptIntoASA(id: nat, a: Address) returns (o: Outcome)
      requires Valid()
      modifies state.accounts.Values
      ensures Valid() && Agrees(Ledger.OptIntoASA(old(Abs()), id, a), o, Abs())
    {
      var _, d :- GetAssetDef(id);
      :- Ensure(a in state.accounts, AccountDoesNotExist);
      o := JoinAsset(a, id, Holding(0, d.value.creator, d.value.defaultFrozen));
    }

    method AddToHolding(a: Address, id: nat, delta: int)
      requires Valid() && a in state.accounts && id in state.accounts[a].assets
      modifies state.accounts.Values
      ensures Valid() && Abs() == AddUnits(old(Abs()), a, id, delta)
    {
      state.accounts[a].MoveUnits(id, delta);
      state.Replaced(a);
    }

    method ShiftUnits(from: Address, to: Address, amount: nat, id: nat)
      requires Valid() && from in state.accounts && to in state.accounts
      requires id in state.accounts[from].assets && id in state.accounts[to].assets
      modifies state.accounts.Values
      ensures Valid() && Abs() == AddUnits(AddUnits(old(Abs()), from, id, -(amount as int)), to, id, amount)
    {
      hide Store.Accounts;
      state.ValueAt(to);
      AddToHolding(from, id, -(amount as int));
      state.ValueAt(to);
      AddToHolding(to, id, amount);
    }

    /** The part that a transfer and a revocation share. */
    method MoveUnits(from: Address, to: Address, amount: nat, id: nat) returns (o: Outcome)
      requires Valid()
      modifies state.accounts.Values
      ensures Valid() && Agrees(Ledger.MoveUnits(old(Abs()), from, to, amount, id), o, Abs())
    {
      var fromHolding :- GetAssetHolding(id, from);
      var _ :- GetAssetHolding(id, to);
      :- Ensure(fromHolding.amount - amount >= 0, InsufficientAssets);
      ShiftUnits(from, to, amount, id);
      return Pass;
    }

    method CheckTransfer(from: Address, to: Address, amount: nat, id: nat) returns (o: Outcome)
      requires Valid()
      modifies state.accounts.Values
      ensures Valid() && Agrees(BeforeTransfer(old(Abs()), from, to, amount, id), o, Abs())
    {
      if amount == 0 && from == to {
        o := OptIntoASA(id, from);
      } else if amount != 0 {
        o := Pass;
        :- AssertAssetNotFrozen(id, from);
        o := AssertAssetNotFrozen(id, to);
      } else {
        o := Pass;
      }
    }

    method CloseUnits(from: Address, id: nat, closeTo: Address) returns (o: Outcome)
      requires Valid() && from in state.accounts && id in state.accounts[from].assets
      modifies state.accounts.Values
      ensures Valid() && Agrees(Ledger.CloseUnits(old(Abs()), from, id, closeTo), o, Abs())
    {
      var fromAccount := state.accounts[from];
      :- Ensure(from != fromAccount.assets[id].creator, CannotCloseByCreator);
      :- AssertAssetNotFrozen(id, closeTo);
      AddToHolding(closeTo, id, fromAccount.assets[id].amount);
      label before:
      fromAccount.CloseAsset(id);
      state.Replaced@before(from);
      return Pass;
    }

    method TransferAsset(from: Address, to: Address, amount: nat, id: nat, closeTo: Address) returns (o: Outcome)
      requires Valid()
      modifies state.accounts.Values
      ensures Valid() && Agrees(TransferUnits(old(Abs()), from, to, amount, id, closeTo), o, Abs())
    {
      o := Pass;
      hide Store.Accounts, Ledger.MoveUnits, BeforeTransfer, Ledger.CloseUnits;
      :- CheckTransfer(from, to, amount, id);
      :- MoveUnits(from, to, amount, id);
      if closeTo == "" {
        return Pass;
      }
      var _ :- GetAssetHolding(id, from);
      state.SameKeys();
      state.ValueAt(from);
      o := CloseUnits(from, id, closeTo);
    }

    method ModifyAsset(sender: Address, id: nat, fields: ModFields) returns (o: Outcome)
      requires Valid()
      modifies state.accounts.Values
      ensures Valid() && Agrees(Modify(old(Abs()), sender, id, fields), o, Abs())
    {
      var c, d :- GetAssetDef(id);
      :- Ensure(d.value.manager == sender, ManagerError);
      label before:
      :- state.accounts[c].ModifyAsset(id, fields);
      state.Replaced@before(c);
      return Pass;
    }

    method FreezeAsset(sender: Address, id: nat, target: Address, frozen: bool) returns (o: Outcome)
      requires Valid()
      modifies state.accounts.Values
      ensures Valid() && Agrees(Freeze(old(Abs()), sender, id, target, frozen), o, Abs())
    {
      var _, d :- GetAssetDef(id);
      :- Ensure(d.value.freeze == sender, FreezeError);
      var acc :- GetAccount(target);
      label before:
      :- acc.SetFreezeState(id, frozen);
      state.Replaced@before(target);
      return Pass;
    }

    method RevokeAsset(sender: Address, id: nat, recipient: Address, target: Address, amount: nat, closeTo: Address)
      returns (o: Outcome)
      requires Valid()
      modifies state.accounts.Values
      ensures Valid() && Agrees(Revoke(old(Abs()), sender, id, recipient, target, amount, closeTo), o, Abs())
    {
      var _, d :- GetAssetDef(id);
      :- Ensure(d.value.clawback == sender, ClawbackError);
      :- Ensure(closeTo == "", CannotCloseByClawback);
      o := MoveUnits(target, recipient, amount, id);
    }

    method DeleteHolding(a: Address, id: nat)
      requires Valid() && a in state.accounts
      modifies state.accounts.Values
      ensures Valid()
      ensures state.Accounts() == var acc := old(state.Accounts()[a]); old(state.Accounts())[a := acc.(assets := acc.assets - {id})]
    {
      var acc := state.accounts[a];
      acc.assets := acc.assets - {id};
      state.Replaced(a);
    }

    /** Deletes a holding from every account, one account at a time. */
    method DeleteHoldings(id: nat)
      requires Valid()
      modifies state.accounts.Values
      ensures Valid() && Abs() == DropHoldings(old(Abs()), id)
    {
      hide Store.Accounts;
      state.SameKeys();
      ghost var before := state.Accounts();
      var left := state.accounts.Keys;
      while left != {}
        invariant Valid() && left <= state.accounts.Keys
        invariant state.Accounts() ==
                  map a | a in before :: if a in left then before[a] else before[a].(assets := before[a].assets - {id})
        decreases |left|
      {
        var a :| a in left;
        left := left - {a};
        state.SameKeys();
        DeleteHolding(a, id);
      }
      assert state.Accounts() == DropHoldings(old(Abs()), id).accounts;
    }

    method DestroyAsset(sender: Address, id: nat) returns (o: Outcome)
      requires Valid()
      modifies state.accounts.Values
      ensures Valid() && Agrees(Destroy(old(Abs()), sender, id), o, Abs())
    {
      var c, d :- GetAssetDef(id);
      :- Ensure(d.value.manager == sender, ManagerError);
      label before:
      :- state.accounts[c].DestroyAsset(id);
      state.Replaced@before(c);
      DeleteHoldings(id);
      return Pass;
    }

    // ---- Applications ----

    /** Runs a program in this context; the state is left as the run leaves it even when the program fails. */
    method Run(program: string, mode: Parser.Mode, ghost p: Param) returns (o: Outcome)
      requires Valid() && tx == p.txn
      modifies state`heap, state.shared, state.accounts.Values
      ensures Valid()
      ensures RunTeal(old(Abs()), program, mode, p, gtxs, chain) == Verdict(Abs(), ErrorOf(o))
    {
      hide Store.Accounts;
      var interpreter := new Interpreter(state, args, TealCtx(tx, gtxs, chain.round, chain.timestamp, chain.env));
      o := interpreter.Execute(program, mode);
    }

    method RunApproved(program: string, mode: Parser.Mode, ghost p: Param) returns (o: Outcome)
      requires Valid() && tx == p.txn
      modifies state`heap, state.shared, state.accounts.Values
      ensures Valid() && Agrees(RunAccepted(old(Abs()), program, mode, p, gtxs, chain), o, Abs())
      ensures state.shared.arrays == RunTeal(old(Abs()), program, mode, p, gtxs, chain).st.heap.shared
    {
      o := Run(program, mode, p);
    }

    method FindApp(appID: nat) returns (o: Outcome, a: Address, app: Option<App>)
      ensures Agrees(AppOwner(Abs(), appID), o, a)
      ensures o == Pass ==>
                && a in state.accounts && appID in state.accounts[a].createdApps
                && app == Some(state.accounts[a].createdApps[appID]) && GetApp(Abs(), appID) == Ok(app.value)
    {
      a, app := "", None;
      :- Ensure(appID in state.globalApps, AppNotFound);
      a := state.globalApps[appID];
      :- Ensure(a in state.accounts, AccountDoesNotExist);
      :- Ensure(appID in state.accounts[a].createdApps, AppNotFound);
      return Pass, a, Some(state.accounts[a].createdApps[appID]);
    }

    method CreateApp(a: Address, appID: nat, k: Kind, clear: string) returns (o: Outcome)
      requires Valid() && a in state.accounts && k.DeploySSC?
      modifies state.accounts.Values
      ensures Valid()
      ensures match AccountAddApp(old(Abs()).accounts[a], a, appID, k, clear)
              case Ok(acc) =>
                o == Ensure(acc.amount >= acc.minBalance, InsufficientBalance) && Abs() == WithAccount(old(Abs()), a, acc)
              case Err(e) => o == Throw(e)
    {
      label before:
      :- state.accounts[a].AddApp(appID, k, clear);
      state.Replaced@before(a);
      o := AssertAccBalAboveMin(a);
    }

    method IndexApp(id: nat, a: Address)
      requires Valid()
      modifies state`globalApps
      ensures Valid() && Abs() == old(Abs()).(globalApps := old(state.globalApps)[id := a])
    {
      state.globalApps := state.globalApps[id := a];
    }

    /** Stores the new application under index 0, where its program runs. */
    method BeginApp(a: Address, k: Kind, clear: string) returns (o: Outcome)
      requires Valid() && k.DeploySSC?
      modifies state`globalApps, state.accounts.Values
      ensures Valid() && Agrees(Ledger.BeginApp(old(Abs()), a, k, clear), o, Abs())
    {
      if a !in state.accounts {
        return Throw(AccountDoesNotExist);
      }
      :- Ensure(k.approval != "", InvalidApprovalProgram);
      :- Ensure(clear != "", InvalidClearProgram);
      :- CreateApp(a, 0, k, clear);
      IndexApp(0, a);
      return Pass;
    }

    method RenameApp(a: Address, id: nat, app: App)
      requires Valid() && a in state.accounts
      modifies state.accounts.Values
      ensures Valid()
      ensures var acc := old(Abs()).accounts[a];
              Abs() == WithAccount(old(Abs()), a, acc.(createdApps := (acc.createdApps - {0})[id := app]))
    {
      var senderAcc := state.accounts[a];
      senderAcc.createdApps := (senderAcc.createdApps - {0})[id := app];
      state.Replaced(a);
    }

    method NextIndex(a: Address)
      requires Valid()
      modifies state`globalApps, state`appCounter
      ensures Valid()
      ensures var id := old(state.appCounter) + 1;
              Abs() == old(Abs()).(globalApps := old(state.globalApps)[id := a] - {0}, appCounter := id)
    {
      state.appCounter := state.appCounter + 1;
      state.globalApps := state.globalApps[state.appCounter := a] - {0};
    }

    method MoveApp(a: Address, app: App)
      requires Valid() && a in state.accounts
      modifies state`globalApps, state`appCounter, state.accounts.Values
      ensures Valid()
      ensures var acc, id := old(Abs()).accounts[a], old(state.appCounter) + 1;
              Abs() == WithAccount(old(Abs()), a, acc.(createdApps := (acc.createdApps - {0})[id := app]))
                       .(globalApps := old(state.globalApps)[id := a] - {0}, appCounter := id)
    {
      NextIndex(a);
      RenameApp(a, state.appCounter, app);
    }

    /** Moves the application that has been approved from index 0 to the next index. */
    method FinishApp(a: Address) returns (o: Outcome)
      requires Valid()
      modifies state`globalApps, state`appCounter, state.accounts.Values
      ensures Valid() && Agrees(Ledger.FinishApp(old(Abs()), a), o, Abs())
    {
      o := Pass;
      :- Ensure(a in state.accounts, AccountDoesNotExist);
      var _, app :- FindApp(0);
      MoveApp(a, app.value);
      return Pass;
    }

    method AddApp(p: Param) returns (o: Outcome)
      requires Valid() && tx == p.txn && p.kind.DeploySSC?
      modifies state`globalApps, state`appCounter, state`heap, state.shared, state.accounts.Values
      ensures Valid() && Agrees(Ledger.AddApp(old(Abs()), p, gtxs, chain), o, Abs())
      ensures state.shared.arrays == SharedAfterRun(AppRun(old(Abs()), p), Parser.Application, old(Abs()), p, gtxs, chain)
    {
      o := Pass;
      hide Ctx.Abs, Store.Abs, Ledger.BeginApp, RunTeal, Ledger.FinishApp;
      SharedOfAbs();
      :- BeginApp(p.sender, p.kind, p.kind.approval);
      :- RunApproved(p.kind.approval, Parser.Application, p);
      o := FinishApp(p.sender);
    }

    method JoinAccount(a: Address, appID: nat, schema: Schema) returns (o: Outcome)
      requires Valid() && a in state.accounts
      modifies state.accounts.Values
      ensures Valid()
      ensures match AccountOptInApp(old(Abs()).accounts[a], appID, schema)
              case Ok(acc) =>
                o == Ensure(acc.amount >= acc.minBalance, InsufficientBalance) && Abs() == WithAccount(old(Abs()), a, acc)
              case Err(e) => o == Throw(e)
    {
      label before:
      :- state.accounts[a].OptInToApp(appID, schema);
      state.Replaced@before(a);
      o := AssertAccBalAboveMin(a);
    }

    method JoinApp(a: Address, appID: nat) returns (o: Outcome)
      requires Valid()
      modifies state.accounts.Values
      ensures Valid() && Agrees(Ledger.JoinApp(old(Abs()), a, appID), o, Abs())
    {
      var _, app :- FindApp(appID);
      :- Ensure(a in state.accounts, AccountDoesNotExist);
      o := JoinAccount(a, appID, app.value.localSchema);
    }

    /** The minimum balance grows before the program runs. */
    method OptInToApp(p: Param, appID: nat) returns (o: Outcome)
      requires Valid() && tx == p.txn
      modifies state`heap, state.shared, state.accounts.Values
      ensures Valid() && Agrees(OptInApp(old(Abs()), p, appID, gtxs, chain), o, Abs())
      ensures state.shared.arrays ==
              SharedAfterRun(JoinRun(old(Abs()), p.sender, appID), Parser.Application, old(Abs()), p, gtxs, chain)
    {
      var _, app :- FindApp(appID);
      :- JoinApp(p.sender, appID);
      o := RunApproved(app.value.approval, Parser.Application, p);
    }

    method CloseLocal(a: Address, appID: nat) returns (o: Outcome)
      requires Valid() && a in state.accounts
      modifies state.accounts.Values
      ensures Valid()
      ensures var acc := old(Abs()).accounts[a];
              if appID !in acc.appsLocalState then o == Throw(AppNotFound)
              else
                && o == Pass
                && Abs() == WithAccount(old(Abs()), a,
                     acc.(minBalance := acc.minBalance - SchemaCost(acc.appsLocalState[appID].schema),
                          appsLocalState := acc.appsLocalState - {appID}))
    {
      o := state.accounts[a].CloseApp(appID);
      state.Replaced(a);
    }

    method CloseApp(a: Address, appID: nat) returns (o: Outcome)
      requires Valid()
      modifies state.accounts.Values
      ensures Valid() && Agrees(LeaveApp(old(Abs()), a, appID), o, Abs())
    {
      o := Pass;
      hide Store.Accounts;
      state.SameKeys();
      :- Ensure(a in state.accounts, AccountDoesNotExist);
      var _, _ :- FindApp(appID);
      o := CloseLocal(a, appID);
    }

    method DeleteCreated(a: Address, appID: nat)
      requires Valid() && a in state.accounts && appID in state.accounts[a].createdApps
      modifies state.accounts.Values
      ensures Valid()
      ensures var acc := old(Abs()).accounts[a];
              Abs() == WithAccount(old(Abs()), a,
                acc.(minBalance := acc.minBalance - SchemaCost(acc.createdApps[appID].globalSchema),
                     createdApps := acc.createdApps - {appID}))
    {
      var _ := state.accounts[a].DeleteApp(appID);
      state.Replaced(a);
    }

    method DropIndex(appID: nat)
      requires Valid()
      modifies state`globalApps
      ensures Valid() && Abs() == old(Abs()).(globalApps := old(state.globalApps) - {appID})
    {
      state.globalApps := state.globalApps - {appID};
    }

    method DeleteApp(appID: nat) returns (o: Outcome)
      requires Valid()
      modifies state`globalApps, state.accounts.Values
      ensures Valid() && Agrees(RemoveApp(old(Abs()), appID), o, Abs())
    {
      o := Pass;
      hide Store.Accounts;
      state.SameKeys();
      :- Ensure(appID in state.globalApps, AppNotFound);
      var a := state.globalApps[appID];
      :- Ensure(a in state.accounts, AccountDoesNotExist);
      state.ValueAt(a);
      :- Ensure(appID in state.accounts[a].createdApps, AppNotFound);
      DeleteCreated(a, appID);
      DropIndex(appID);
      return Pass;
    }

    method CallApp(p: Param, appID: nat) returns (o: Outcome)
      requires Valid() && tx == p.txn
      modifies state`heap, state.shared, state.accounts.Values
      ensures Valid() && Agrees(Ledger.CallApp(old(Abs()), p, appID, gtxs, chain), o, Abs())
      ensures state.shared.arrays == SharedAfterRun(ApprovalRun(old(Abs()), appID), Parser.Application, old(Abs()), p, gtxs, chain)
    {
      var _, app :- FindApp(appID);
      o := RunApproved(app.value.approval, Parser.Application, p);
    }

    method SetPrograms(appID: nat, approval: string, clear: string) returns (o: Outcome)
      requires Valid()
      modifies state.accounts.Values
      ensures Valid() && Agrees(Ledger.SetPrograms(old(Abs()), appID, approval, clear), o, Abs())
    {
      var a, app :- FindApp(appID);
      var acc := state.accounts[a];
      acc.createdApps := acc.createdApps[appID := app.value.(approval := approval, clear := clear)];
      state.Replaced(a);
      return Pass;
    }

    method UpdateApp(p: Param) returns (o: Outcome)
      requires Valid() && tx == p.txn && p.kind.Update?
      modifies state`heap, state.shared, state.accounts.Values
      ensures Valid() && Agrees(Ledger.UpdateApp(old(Abs()), p, gtxs, chain), o, Abs())
      ensures state.shared.arrays == SharedAfterRun(AppRun(old(Abs()), p), Parser.Application, old(Abs()), p, gtxs, chain)
    {
      o := Pass;
      hide Ctx.Abs, Store.Abs, Ledger.CallApp, Ledger.SetPrograms, ApprovalRun, RunTeal;
      SharedOfAbs();
      :- Ensure(p.kind.newApproval != "", InvalidApprovalProgram);
      :- Ensure(p.kind.newClear != "", InvalidClearProgram);
      :- CallApp(p, p.kind.appID);
      o := SetPrograms(p.kind.appID, p.kind.newApproval, p.kind.newClear);
    }

    /** The verdict of the clear program is ignored: the account leaves either way. */
    method ClearApp(p: Param, appID: nat) returns (o: Outcome)
      requires Valid() && tx == p.txn
      modifies state`heap, state.shared, state.accounts.Values
      ensures Valid() && Agrees(Ledger.ClearApp(old(Abs()), p, appID, gtxs, chain), o, Abs())
      ensures state.shared.arrays == SharedAfterRun(ClearRun(old(Abs()), appID), Parser.Application, old(Abs()), p, gtxs, chain)
    {
      hide Store.Accounts, RunTeal, LeaveApp;
      var _, app :- FindApp(appID);
      var _ := Run(app.value.clear, Parser.Application, p);
      o := CloseApp(p.sender, appID);
    }

    // ---- Transactions ----

    /** The argument arrays stay the caller's. */
    method SetArgs(values: seq<nat>)
      requires Valid()
      modifies this`args
      ensures Valid() && Abs() == WithArgs(old(Abs()), values)
    {
      args := values;
    }

    /** Verifies a logic signature and runs its program, with the transaction at `idx` as the current one. */
    method ValidateLsigAndRun(lsig: Option<Lsig>, ghost p: Param) returns (o: Outcome)
      requires Valid() && tx == p.txn && p.sign == LogicSignature(lsig)
      modifies this`args, state`heap, state.shared, state.accounts.Values
      ensures Valid() && Agrees(CheckSignature(old(Abs()), p, gtxs, chain), o, Abs())
      ensures state.shared.arrays == SharedAfterRun(SignatureRun(old(Abs()), p), Parser.Signature, old(Abs()), p, gtxs, chain)
    {
      o := Pass;
      :- Ensure(lsig.Some?, LsigNotFound);
      SetArgs(lsig.value.args);
      :- Ensure(lsig.value.verified, LsigValidationFailed);
      :- Ensure(lsig.value.program != "", InvalidProgram);
      o := RunApproved(lsig.value.program, Parser.Signature, p);
    }

    method ProcessAssetKind(p: Param) returns (o: Outcome)
      requires Valid() && IsAssetKind(p.kind)
      modifies state.accounts.Values
      ensures Valid() && Agrees(ApplyAssetKind(old(Abs()), p), o, Abs())
    {
      match p.kind {
        case TransferAsset(to, amount, id) => o := TransferAsset(p.sender, to, amount, id, p.closeTo);
        case ModifyAsset(id, fields) => o := ModifyAsset(p.sender, id, fields);
        case FreezeAsset(id, target, frozen) => o := FreezeAsset(p.sender, id, target, frozen);
        case RevokeAsset(id, recipient, target, amount) => o := RevokeAsset(p.sender, id, recipient, target, amount, p.closeTo);
        case DestroyAsset(id) => o := DestroyAsset(p.sender, id);
        case OptInASA(id) => o := OptIntoASA(id, p.sender);
      }
    }

    method ProcessAppKind(p: Param) returns (o: Outcome)
      requires Valid() && tx == p.txn && IsAppKind(p.kind)
      modifies state`globalApps, state`appCounter, state`heap, state.shared, state.accounts.Values
      ensures Valid() && Agrees(ApplyAppKind(old(Abs()), p, gtxs, chain), o, Abs())
      ensures state.shared.arrays == SharedAfterRun(AppRun(old(Abs()), p), Parser.Application, old(Abs()), p, gtxs, chain)
    {
      hide Ctx.Abs, Store.Abs, Ledger.CallApp, LeaveApp, RemoveApp, Ledger.AddApp, Ledger.UpdateApp, Ledger.ClearApp, OptInApp;
      hide SharedAfterRun, ApprovalRun, ClearRun, JoinRun;
      match p.kind {
        case CallNoOp(appID) => o := CallApp(p, appID);
        case CloseOut(appID) =>
          :- CallApp(p, appID);
          o := CloseApp(p.sender, appID);
        case Clear(appID) => o := ClearApp(p, appID);
        case Delete(appID) =>
          :- CallApp(p, appID);
          o := DeleteApp(appID);
        case Update(_, _, _) => o := UpdateApp(p);
        case DeploySSC(_, _, _) => o := AddApp(p);
        case OptInSSC(appID) => o := OptInToApp(p, appID);
      }
    }

    method DeployASA(name: string, sender: Address) returns (o: Outcome)
      requires Valid()
      modifies state`assetDefs, state`assetCounter, state.accounts.Values
      ensures Valid()
      ensures if name in chain.asaDefs then Agrees(Ledger.AddAsset(old(Abs()), sender, name, chain.asaDefs[name]), o, Abs())
              else o == Throw(AsaDefNotFound)
    {
      o := Pass;
      :- Ensure(name in chain.asaDefs, AsaDefNotFound);
      o := AddAsset(name, sender, chain.asaDefs[name]);
    }

    /** Kinds that run no program. */
    method ProcessPlainKind(p: Param, idx: nat) returns (o: Outcome)
      requires Valid() && idx < |gtxs| && !IsAppKind(p.kind)
      modifies this`tx, state`assetDefs, state`assetCounter, state.accounts.Values
      ensures Valid() && Agrees(Apply(old(Abs()), p, gtxs, chain), o, Abs())
    {
      hide Ctx.Abs, Store.Abs, ApplyAppKind, ApplyAssetKind, TransferAlgos, Ledger.AddAsset;
      if p.kind.TransferAlgo? {
        o := TransferAlgo(p.sender, p.kind.to, p.kind.microAlgos, p.closeTo);
      } else if p.kind.DeployASA? {
        tx := gtxs[idx];
        o := DeployASA(p.kind.name, p.sender);
      } else {
        o := ProcessAssetKind(p);
      }
    }

    /** The transaction at position `idx` of the group, after its fee and signature. */
    method ProcessKind(p: Param, idx: nat) returns (o: Outcome)
      requires Valid() && idx < |gtxs| && gtxs[idx] == p.txn
      modifies this`tx, state`globalApps, state`assetDefs, state`appCounter, state`assetCounter
      modifies state`heap, state.shared, state.accounts.Values
      ensures Valid() && Agrees(Apply(old(Abs()), p, gtxs, chain), o, Abs())
      ensures state.shared.arrays == ApplyShared(old(Abs()), p, gtxs, chain)
    {
      hide Ctx.Abs, Store.Abs, ApplyAppKind, ApplyAssetKind, TransferAlgos, Ledger.AddAsset, SharedAfterRun, AppRun;
      SharedOfAbs();
      if IsAppKind(p.kind) {
        tx := gtxs[idx];
        o := ProcessAppKind(p);
      } else {
        o := ProcessPlainKind(p, idx);
      }
    }

    method ProcessSign(p: Param, idx: nat) returns (o: Outcome)
      requires Valid() && idx < |gtxs| && gtxs[idx] == p.txn
      modifies this`tx, this`args, state`heap, state.shared, state.accounts.Values
      ensures Valid() && Agrees(CheckSignature(old(Abs()), p, gtxs, chain), o, Abs())
      ensures state.shared.arrays == SharedAfterRun(SignatureRun(old(Abs()), p), Parser.Signature, old(Abs()), p, gtxs, chain)
    {
      hide Store.Accounts;
      if p.sign.SecretKey? {
        return Pass;
      }
      tx := gtxs[idx];
      :- ValidateLsigAndRun(p.sign.lsig, p);
      tx := gtxs[0];
      return Pass;
    }

    /** Fee and logic signature. */
    method PrepareTransaction(p: Param, idx: nat) returns (o: Outcome)
      requires Valid() && idx < |gtxs| && gtxs[idx] == p.txn
      modifies this`tx, this`args, state`heap, state.shared, state.accounts.Values
      ensures Valid() && Agrees(Prepare(old(Abs()), p, gtxs, chain), o, Abs())
      ensures o.Throw? ==> state.shared.arrays == TransactShared(old(Abs()), p, gtxs, chain)
    {
      o := Pass;
      hide Ctx.Abs, Store.Abs, Ledger.DeductFee, CheckSignature, SharedAfterRun, SignatureRun;
      SharedOfAbs();
      :- DeductFee(p.sender, gtxs[idx].fee);
      o := ProcessSign(p, idx);
    }

    method ProcessTransaction(p: Param, idx: nat) returns (o: Outcome)
      requires Valid() && idx < |gtxs| && gtxs[idx] == p.txn
      modifies this`tx, this`args
      modifies state`globalApps, state`assetDefs, state`appCounter, state`assetCounter
      modifies state`heap, state.shared, state.accounts.Values
      ensures Valid() && Agrees(Transact(old(Abs()), p, gtxs, chain), o, Abs())
      ensures state.shared.arrays == TransactShared(old(Abs()), p, gtxs, chain)
    {
      o := Pass;
      hide Ctx.Abs, Store.Abs, Prepare, Apply, TransactShared, ApplyShared;
      ghost var s := Abs();
      :- PrepareTransaction(p, idx);
      SharedOfKind(s, p, gtxs, chain);
      o := ProcessKind(p, idx);
    }

    /** Once fee and signature have passed, the kind decides what becomes of the shared arrays. */
    static lemma SharedOfKind(s: State, p: Param, gtxs: seq<Txn>, chain: Chain)
      requires Prepare(s, p, gtxs, chain).Ok?
      ensures TransactShared(s, p, gtxs, chain) == ApplyShared(Prepare(s, p, gtxs, chain).value, p, gtxs, chain)
    {
      hide Ledger.DeductFee, CheckSignature, ApplyShared;
    }

    static lemma ProcessStep(s: State, g: Group, i: nat, gtxs: seq<Txn>, chain: Chain)
      requires i < |g|
      ensures Process(s, g, i, gtxs, chain) ==
              match Transact(s, g[i], gtxs, chain)
              case Err(e) => Err(e)
              case Ok(s1) => Process(s1, g, i + 1, gtxs, chain)
      ensures ProcessShared(s, g, i, gtxs, chain) ==
              match Transact(s, g[i], gtxs, chain)
              case Err(_) => TransactShared(s, g[i], gtxs, chain)
              case Ok(s1) => ProcessShared(s1, g, i + 1, gtxs, chain)
    {
      hide Transact, TransactShared;
    }

    static lemma ProcessEnd(s: State, g: Group, gtxs: seq<Txn>, chain: Chain)
      ensures Process(s, g, |g|, gtxs, chain) == Ok(s) && ProcessShared(s, g, |g|, gtxs, chain) == s.heap.shared
    {
    }

    /** Executes the transactions of a group in order; the first error ends the group. */
    method ProcessTransactions(g: Group) returns (o: Outcome)
      requires Valid() && gtxs == Txns(g)
      modifies this`tx, this`args
      modifies state`globalApps, state`assetDefs, state`appCounter, state`assetCounter
      modifies state`heap, state.shared, state.accounts.Values
      ensures Valid() && Agrees(Process(old(Abs()), g, 0, gtxs, chain), o, Abs())
      ensures state.shared.arrays == ProcessShared(old(Abs()), g, 0, gtxs, chain)
    {
      hide Ctx.Abs, Store.Abs, Transact, TransactShared, Process, ProcessShared;
      ghost var goal, left := Process(Abs(), g, 0, gtxs, chain), ProcessShared(Abs(), g, 0, gtxs, chain);
      var idx := 0;
      while idx < |g|
        invariant 0 <= idx <= |g| && Valid()
        invariant Process(Abs(), g, idx, gtxs, chain) == goal && ProcessShared(Abs(), g, idx, gtxs, chain) == left
      {
        ghost var r := Transact(Abs(), g[idx], gtxs, chain);
        ProcessStep(Abs(), g, idx, gtxs, chain);
        :- ProcessTransaction(g[idx], idx);
        assert r == Ok(Abs());
        idx := idx + 1;
      }
      ProcessEnd(Abs(), g, gtxs, chain);
      SharedOfAbs();
      return Pass;
    }
  }
}
