/** The ledger: what each transaction does to the state, and how groups of transactions execute. */
module Ledger {
  import opened Values
  import opened Teal
  import opened TealRun
  import Parser

  /** The arguments are arrays of the caller, passed as references: their places among the shared arrays. */
  datatype Lsig = Lsig(program: string, args: seq<nat>, verified: bool)

  datatype Sign = SecretKey | LogicSignature(lsig: Option<Lsig>)

  datatype Kind =
    | TransferAlgo(to: Address, microAlgos: nat)
    | TransferAsset(to: Address, amount: nat, assetID: nat)
    | ModifyAsset(assetID: nat, modFields: ModFields)
    | FreezeAsset(assetID: nat, target: Address, frozen: bool)
    | RevokeAsset(assetID: nat, recipient: Address, target: Address, amount: nat)
    | DestroyAsset(assetID: nat)
    | CallNoOp(appID: nat) | CloseOut(appID: nat) | Clear(appID: nat) | Delete(appID: nat)
    | Update(appID: nat, newApproval: string, newClear: string)
    | DeployASA(name: string)
    | DeploySSC(approval: string, localSchema: Schema, globalSchema: Schema)
    | OptInASA(assetID: nat) | OptInSSC(appID: nat)

  /** One transaction: its parameters and its encoded form. An empty `closeTo` means no close-out. */
  datatype Param = Param(sender: Address, sign: Sign, closeTo: Address, kind: Kind, txn: Txn)

  /** What surrounds the ledger: library functions, the round, and the loaded asset definitions. */
  datatype Chain = Chain(env: Env, round: int, timestamp: int, asaDefs: map<string, AsaSpec>)

  type Group = seq<Param>

  // ---- Accounts ----

  function WithAccount(s: State, a: Address, acc: Account): State {
    s.(accounts := s.accounts[a := acc])
  }

  function Credit(s: State, a: Address, delta: int): State
    requires a in s.accounts
  {
    WithAccount(s, a, s.accounts[a].(amount := s.accounts[a].amount + delta))
  }

  function AddUnits(s: State, a: Address, id: nat, delta: int): State
    requires a in s.accounts && id in s.accounts[a].assets
  {
    var h := s.accounts[a].assets[id];
    WithAccount(s, a, s.accounts[a].(assets := s.accounts[a].assets[id := h.(amount := h.amount + delta)]))
  }

  function HasAccount(s: State, a: Address): Result<bool> {
    Require(a in s.accounts, AccountDoesNotExist)
  }

  function AboveMin(s: State, a: Address): Result<bool>
    requires a in s.accounts
  {
    Require(s.accounts[a].amount >= s.accounts[a].minBalance, InsufficientBalance)
  }

  function DeductFee(s: State, a: Address, fee: nat): Result<State> {
    var _ :- HasAccount(s, a);
    var s1 := Credit(s, a, -(fee as int));
    var _ :- AboveMin(s1, a);
    Ok(s1)
  }

  /** Payment; a close-out then moves whatever the sender has left and zeroes the sender. */
  function TransferAlgos(s: State, from: Address, to: Address, amount: nat, closeTo: Address): Result<State> {
    var _ :- HasAccount(s, from);
    var _ :- HasAccount(s, to);
    var s1 := Credit(Credit(s, from, -(amount as int)), to, amount);
    var _ :- AboveMin(s1, from);
    if closeTo == "" then Ok(s1)
    else
      var _ :- HasAccount(s1, closeTo);
      var s2 := Credit(s1, closeTo, s1.accounts[from].amount);
      Ok(WithAccount(s2, from, s2.accounts[from].(amount := 0)))
  }

  // ---- Assets ----

  function AssetCreator(s: State, id: nat): Result<Address> {
    var _ :- Require(id in s.assetDefs, AssetNotFound);
    var _ :- HasAccount(s, s.assetDefs[id]);
    Ok(s.assetDefs[id])
  }

  function GetAssetDef(s: State, id: nat): Result<AssetDef> {
    var c :- AssetCreator(s, id);
    var _ :- Require(id in s.accounts[c].createdAssets, AssetNotFound);
    Ok(s.accounts[c].createdAssets[id])
  }

  function GetHolding(s: State, id: nat, a: Address): Result<Holding> {
    var _ :- HasAccount(s, a);
    var _ :- Require(id in s.accounts[a].assets, AsaNotOptIn);
    Ok(s.accounts[a].assets[id])
  }

  function NotFrozen(s: State, id: nat, a: Address): Result<bool> {
    var h :- GetHolding(s, id, a);
    Require(!h.frozen, AccountAssetFrozen)
  }

  function OrEmpty(a: Option<Address>): Address {
    if a.Some? then a.value else ""
  }

  function NewAsset(creator: Address, name: string, d: AsaSpec): AssetDef {
    AssetDef(creator, d.total, d.decimals, d.defaultFrozen, d.unitName, name, d.url, d.metadataHash,
             OrEmpty(d.manager), OrEmpty(d.reserve), OrEmpty(d.freeze), OrEmpty(d.clawback))
  }

  /** Account part of asset creation: the creator holds every unit, unfrozen. */
  function AccountAddAsset(acc: Account, a: Address, id: nat, name: string, d: AsaSpec): Result<Account> {
    var _ :- Require(|acc.createdAssets| != MAX_ACCOUNT_ASSETS, MaxLimitAssets);
    Ok(acc.(minBalance := acc.minBalance + ASSET_CREATION_FEE,
            createdAssets := acc.createdAssets[id := NewAsset(a, name, d)],
            assets := acc.assets[id := Holding(d.total, a, false)]))
  }

  function AddAsset(s: State, a: Address, name: string, d: AsaSpec): Result<State> {
    var _ :- HasAccount(s, a);
    var id := s.assetCounter + 1;
    var acc :- AccountAddAsset(s.accounts[a], a, id, name, d);
    var s1 := WithAccount(s, a, acc).(assetCounter := id);
    var _ :- AboveMin(s1, a);
    Ok(s1.(assetDefs := s1.assetDefs[id := a]))
  }

  /** Account part of an asset opt-in; opting in again changes nothing. */
  function AccountOptInASA(acc: Account, id: nat, h: Holding): Result<Account> {
    if id in acc.assets then Ok(acc)
    else
      var _ :- Require(|acc.createdAssets| + |acc.assets| != MAX_ACCOUNT_ASSETS, MaxLimitAssets);
      Ok(acc.(minBalance := acc.minBalance + ASSET_CREATION_FEE, assets := acc.assets[id := h]))
  }

  function OptIntoASA(s: State, id: nat, a: Address): Result<State> {
    var d :- GetAssetDef(s, id);
    var _ :- HasAccount(s, a);
    var acc :- AccountOptInASA(s.accounts[a], id, Holding(0, d.creator, d.defaultFrozen));
    var s1 := WithAccount(s, a, acc);
    var _ :- AboveMin(s1, a);
    Ok(s1)
  }

  function AccountCloseAsset(acc: Account, id: nat): Account {
    if id in acc.assets then acc.(minBalance := acc.minBalance - ASSET_CREATION_FEE, assets := acc.assets - {id}) else acc
  }

  /** The checks before units move: a zero transfer to oneself is an opt-in, a non-zero one needs both ends unfrozen. */
  function BeforeTransfer(s: State, from: Address, to: Address, amount: nat, id: nat): Result<State> {
    if amount == 0 && from == to then OptIntoASA(s, id, from)
    else if amount != 0 then
      var _ :- NotFrozen(s, id, from);
      var _ :- NotFrozen(s, id, to);
      Ok(s)
    else Ok(s)
  }

  function MoveUnits(s: State, from: Address, to: Address, amount: nat, id: nat): Result<State> {
    var h :- GetHolding(s, id, from);
    var _ :- GetHolding(s, id, to);
    var _ :- Require(h.amount - amount >= 0, InsufficientAssets);
    Ok(AddUnits(AddUnits(s, from, id, -(amount as int)), to, id, amount))
  }

  /** The close-out part of an asset transfer: the rest goes to `closeTo` and the sender's holding is removed. */
  function CloseUnits(s: State, from: Address, id: nat, closeTo: Address): Result<State>
    requires from in s.accounts && id in s.accounts[from].assets
  {
    var _ :- Require(from != s.accounts[from].assets[id].creator, CannotCloseByCreator);
    var _ :- NotFrozen(s, id, closeTo);
    var s1 := AddUnits(s, closeTo, id, s.accounts[from].assets[id].amount);
    Ok(WithAccount(s1, from, AccountCloseAsset(s1.accounts[from], id)))
  }

  /** An asset transfer without its close-out part. */
  function CheckAndMove(s: State, from: Address, to: Address, amount: nat, id: nat): Result<State> {
    var s1 :- BeforeTransfer(s, from, to, amount, id);
    MoveUnits(s1, from, to, amount, id)
  }

  function TransferUnits(s: State, from: Address, to: Address, amount: nat, id: nat, closeTo: Address): Result<State> {
    var s1 :- CheckAndMove(s, from, to, amount, id);
    if closeTo == "" then Ok(s1)
    else
      var _ :- GetHolding(s1, id, from);
      CloseUnits(s1, from, id, closeTo)
  }

  datatype Role = Manager | Reserve | Freezer | Clawback

  function RoleOf(d: AssetDef, r: Role): Address {
    match r
    case Manager => d.manager
    case Reserve => d.reserve
    case Freezer => d.freeze
    case Clawback => d.clawback
  }

  predicate IsDefined(value: Option<string>) {
    value.Some? && value.value != ""
  }

  /** One role of a modification: a blank role cannot be set, a set one takes any given value. */
  function SetRole(custom: Option<string>, current: string): Result<string> {
    if IsDefined(custom) && current == "" then Err(BlankAddressError)
    else if custom.Some? && current != "" then Ok(custom.value)
    else Ok(current)
  }

  function SetRoles(f: ModFields, d: AssetDef): Result<AssetDef> {
    var manager :- SetRole(f.manager, d.manager);
    var reserve :- SetRole(f.reserve, d.reserve);
    var freeze :- SetRole(f.freeze, d.freeze);
    var clawback :- SetRole(f.clawback, d.clawback);
    Ok(d.(manager := manager, reserve := reserve, freeze := freeze, clawback := clawback))
  }

  function Modify(s: State, sender: Address, id: nat, f: ModFields): Result<State> {
    var d :- GetAssetDef(s, id);
    var _ :- Require(d.manager == sender, ManagerError);
    var d1 :- SetRoles(f, d);
    var c := s.assetDefs[id];
    Ok(WithAccount(s, c, s.accounts[c].(createdAssets := s.accounts[c].createdAssets[id := d1])))
  }

  function Freeze(s: State, sender: Address, id: nat, target: Address, frozen: bool): Result<State> {
    var d :- GetAssetDef(s, id);
    var _ :- Require(d.freeze == sender, FreezeError);
    var h :- GetHolding(s, id, target);
    Ok(WithAccount(s, target, s.accounts[target].(assets := s.accounts[target].assets[id := h.(frozen := frozen)])))
  }

  function Revoke(s: State, sender: Address, id: nat, recipient: Address, target: Address, amount: nat, closeTo: Address): Result<State> {
    var d :- GetAssetDef(s, id);
    var _ :- Require(d.clawback == sender, ClawbackError);
    var _ :- Require(closeTo == "", CannotCloseByClawback);
    MoveUnits(s, target, recipient, amount, id)
  }

  function AccountDestroyAsset(acc: Account, id: nat): Result<Account> {
    var _ :- Require(id in acc.assets && id in acc.createdAssets, AssetNotFound);
    var _ :- Require(acc.assets[id].amount == acc.createdAssets[id].total, AssetTotalError);
    Ok(acc.(minBalance := acc.minBalance - ASSET_CREATION_FEE,
            createdAssets := acc.createdAssets - {id}, assets := acc.assets - {id}))
  }

  /** Deletes the holding from every account, without touching the minimum balances. */
  function DropHoldings(s: State, id: nat): State {
    s.(accounts := map a | a in s.accounts :: s.accounts[a].(assets := s.accounts[a].assets - {id}))
  }

  function Destroy(s: State, sender: Address, id: nat): Result<State> {
    var d :- GetAssetDef(s, id);
    var _ :- Require(d.manager == sender, ManagerError);
    var c := s.assetDefs[id];
    var acc :- AccountDestroyAsset(s.accounts[c], id);
    Ok(DropHoldings(WithAccount(s, c, acc), id))
  }

  // ---- Applications ----

  /** Runs a program against the state; the state is left as the run leaves it even when it fails. */
  function RunTeal(s: State, program: string, mode: Parser.Mode, p: Param, gtxs: seq<Txn>, chain: Chain): Verdict {
    match Parser.Parse(program, mode, |s.args|, chain.env)
    case Err(e) => Verdict(s, Some(e))
    case Ok(parsed) =>
      var c := TealCtx(p.txn, gtxs, chain.round, chain.timestamp, chain.env);
      Judge(RunFrom(parsed.instrs, 0, InitMachine(s), StepperOf(c)))
  }

  function RunAccepted(s: State, program: string, mode: Parser.Mode, p: Param, gtxs: seq<Txn>, chain: Chain): Result<State> {
    var v := RunTeal(s, program, mode, p, gtxs, chain);
    if v.error.None? then Ok(v.st) else Err(v.error.value)
  }

  function GetApp(s: State, appID: nat): Result<App> {
    var a :- AppOwner(s, appID);
    Ok(s.accounts[a].createdApps[appID])
  }

  function AccountAddApp(acc: Account, a: Address, appID: nat, k: Kind, clear: string): Result<Account>
    requires k.DeploySSC?
  {
    var _ :- Require(|acc.createdApps| != MAX_ACCOUNT_APPS, MaxLimitApps);
    var app := App(k.approval, clear, a, map[], k.globalSchema, k.localSchema);
    Ok(acc.(minBalance := acc.minBalance + SchemaCost(k.globalSchema), createdApps := acc.createdApps[appID := app]))
  }

  /** Creation first stores the application under index 0, which is what its program sees. */
  function BeginApp(s: State, a: Address, k: Kind, clear: string): Result<State>
    requires k.DeploySSC?
  {
    var _ :- HasAccount(s, a);
    var _ :- Require(k.approval != "", InvalidApprovalProgram);
    var _ :- Require(clear != "", InvalidClearProgram);
    var acc :- AccountAddApp(s.accounts[a], a, 0, k, clear);
    var s1 := WithAccount(s, a, acc);
    var _ :- AboveMin(s1, a);
    Ok(s1.(globalApps := s1.globalApps[0 := a]))
  }

  /** After the program accepted, the application moves to the next free index. */
  function FinishApp(s: State, a: Address): Result<State> {
    var _ :- HasAccount(s, a);
    var id := s.appCounter + 1;
    var app :- GetApp(s, 0); // storing the new index first does not change what index 0 denotes
    var acc := s.accounts[a];
    Ok(WithAccount(s, a, acc.(createdApps := (acc.createdApps - {0})[id := app]))
       .(globalApps := s.globalApps[id := a] - {0}, appCounter := id))
  }

  function AddApp(s: State, p: Param, gtxs: seq<Txn>, chain: Chain): Result<State>
    requires p.kind.DeploySSC?
  {
    var s1 :- BeginApp(s, p.sender, p.kind, p.kind.approval);
    var s2 :- RunAccepted(s1, p.kind.approval, Parser.Application, p, gtxs, chain);
    FinishApp(s2, p.sender)
  }

  /** Account part of an application opt-in; opting in again changes nothing. */
  function AccountOptInApp(acc: Account, appID: nat, schema: Schema): Result<Account> {
    if appID in acc.appsLocalState then Ok(acc)
    else
      var _ :- Require(|acc.appsLocalState| != MAX_ACCOUNT_APPS, MaxLimitOptIn);
      Ok(acc.(minBalance := acc.minBalance + SchemaCost(schema),
              appsLocalState := acc.appsLocalState[appID := LocalState(map[], schema)]))
  }

  function JoinApp(s: State, a: Address, appID: nat): Result<State> {
    var app :- GetApp(s, appID);
    var _ :- HasAccount(s, a);
    var acc :- AccountOptInApp(s.accounts[a], appID, app.localSchema);
    var s1 := WithAccount(s, a, acc);
    var _ :- AboveMin(s1, a);
    Ok(s1)
  }

  function OptInApp(s: State, p: Param, appID: nat, gtxs: seq<Txn>, chain: Chain): Result<State> {
    var app :- GetApp(s, appID);
    var s1 :- JoinApp(s, p.sender, appID);
    RunAccepted(s1, app.approval, Parser.Application, p, gtxs, chain)
  }

  function LeaveApp(s: State, a: Address, appID: nat): Result<State> {
    var _ :- HasAccount(s, a);
    var _ :- GetApp(s, appID);
    var acc := s.accounts[a];
    var _ :- Require(appID in acc.appsLocalState, AppNotFound);
    Ok(WithAccount(s, a, acc.(minBalance := acc.minBalance - SchemaCost(acc.appsLocalState[appID].schema),
                              appsLocalState := acc.appsLocalState - {appID})))
  }

  function RemoveApp(s: State, appID: nat): Result<State> {
    var a :- AppOwner(s, appID);
    var acc := s.accounts[a];
    Ok(WithAccount(s, a, acc.(minBalance := acc.minBalance - SchemaCost(acc.createdApps[appID].globalSchema),
                              createdApps := acc.createdApps - {appID}))
       .(globalApps := s.globalApps - {appID}))
  }

  function CallApp(s: State, p: Param, appID: nat, gtxs: seq<Txn>, chain: Chain): Result<State> {
    var app :- GetApp(s, appID);
    RunAccepted(s, app.approval, Parser.Application, p, gtxs, chain)
  }

  function SetPrograms(s: State, appID: nat, approval: string, clear: string): Result<State> {
    var a :- AppOwner(s, appID);
    var acc := s.accounts[a];
    Ok(WithAccount(s, a, acc.(createdApps := acc.createdApps[appID := acc.createdApps[appID].(approval := approval, clear := clear)])))
  }

  function UpdateApp(s: State, p: Param, gtxs: seq<Txn>, chain: Chain): Result<State>
    requires p.kind.Update?
  {
    var _ :- Require(p.kind.newApproval != "", InvalidApprovalProgram);
    var _ :- Require(p.kind.newClear != "", InvalidClearProgram);
    var s1 :- CallApp(s, p, p.kind.appID, gtxs, chain);
    SetPrograms(s1, p.kind.appID, p.kind.newApproval, p.kind.newClear)
  }

  /** A failing clear program does not stop the account from leaving; its writes stay. */
  function ClearApp(s: State, p: Param, appID: nat, gtxs: seq<Txn>, chain: Chain): Result<State> {
    var app :- GetApp(s, appID);
    LeaveApp(RunTeal(s, app.clear, Parser.Application, p, gtxs, chain).st, p.sender, appID)
  }

  // ---- Transactions and groups ----

  function WithArgs(s: State, args: seq<nat>): State {
    s.(args := args)
  }

  function CheckSignature(s: State, p: Param, gtxs: seq<Txn>, chain: Chain): Result<State> {
    match p.sign
    case SecretKey => Ok(s)
    case LogicSignature(lsig) =>
      var _ :- Require(lsig.Some?, LsigNotFound);
      var s1 := WithArgs(s, lsig.value.args);
      var _ :- Require(lsig.value.verified, LsigValidationFailed);
      var _ :- Require(lsig.value.program != "", InvalidProgram);
      RunAccepted(s1, lsig.value.program, Parser.Signature, p, gtxs, chain)
  }

  function ApplyAssetKind(s: State, p: Param): Result<State>
    requires IsAssetKind(p.kind)
  {
    match p.kind
    case TransferAsset(to, amount, id) => TransferUnits(s, p.sender, to, amount, id, p.closeTo)
    case ModifyAsset(id, fields) => Modify(s, p.sender, id, fields)
    case FreezeAsset(id, target, frozen) => Freeze(s, p.sender, id, target, frozen)
    case RevokeAsset(id, recipient, target, amount) => Revoke(s, p.sender, id, recipient, target, amount, p.closeTo)
    case DestroyAsset(id) => Destroy(s, p.sender, id)
    case OptInASA(id) => OptIntoASA(s, id, p.sender)
  }

  predicate IsAssetKind(k: Kind) {
    k.TransferAsset? || k.ModifyAsset? || k.FreezeAsset? || k.RevokeAsset? || k.DestroyAsset? || k.OptInASA?
  }

  predicate IsAppKind(k: Kind) {
    k.CallNoOp? || k.CloseOut? || k.Clear? || k.Delete? || k.Update? || k.DeploySSC? || k.OptInSSC?
  }

  function ApplyAppKind(s: State, p: Param, gtxs: seq<Txn>, chain: Chain): Result<State>
    requires IsAppKind(p.kind)
  {
    match p.kind
    case CallNoOp(appID) => CallApp(s, p, appID, gtxs, chain)
    case CloseOut(appID) =>
      var s1 :- CallApp(s, p, appID, gtxs, chain);
      LeaveApp(s1, p.sender, appID)
    case Clear(appID) => ClearApp(s, p, appID, gtxs, chain)
    case Delete(appID) =>
      var s1 :- CallApp(s, p, appID, gtxs, chain);
      RemoveApp(s1, appID)
    case Update(_, _, _) => UpdateApp(s, p, gtxs, chain)
    case DeploySSC(_, _, _) => AddApp(s, p, gtxs, chain)
    case OptInSSC(appID) => OptInApp(s, p, appID, gtxs, chain)
  }

  function Apply(s: State, p: Param, gtxs: seq<Txn>, chain: Chain): Result<State> {
    if p.kind.TransferAlgo? then TransferAlgos(s, p.sender, p.kind.to, p.kind.microAlgos, p.closeTo)
    else if p.kind.DeployASA? then
      if p.kind.name in chain.asaDefs then AddAsset(s, p.sender, p.kind.name, chain.asaDefs[p.kind.name]) else Err(AsaDefNotFound)
    else if IsAssetKind(p.kind) then ApplyAssetKind(s, p)
    else ApplyAppKind(s, p, gtxs, chain)
  }

  /** What happens before the transaction itself: the fee, then the signature's program. */
  function Prepare(s: State, p: Param, gtxs: seq<Txn>, chain: Chain): Result<State> {
    var s1 :- DeductFee(s, p.sender, p.txn.fee);
    CheckSignature(s1, p, gtxs, chain)
  }

  /** One transaction of a group. */
  function Transact(s: State, p: Param, gtxs: seq<Txn>, chain: Chain): Result<State> {
    var s1 :- Prepare(s, p, gtxs, chain);
    Apply(s1, p, gtxs, chain)
  }

  function Txns(g: Group): seq<Txn> {
    seq(|g|, i requires 0 <= i < |g| => g[i].txn)
  }

  /** Transactions from position `i` on, in order; the first failure fails the group. */
  function Process(s: State, g: Group, i: nat, gtxs: seq<Txn>, chain: Chain): Result<State>
    requires i <= |g|
    decreases |g| - i
  {
    if i == |g| then Ok(s)
    else
      var s1 :- Transact(s, g[i], gtxs, chain);
      Process(s1, g, i + 1, gtxs, chain)
  }

  predicate Encodable(p: Param, chain: Chain) {
    p.kind.DeployASA? ==> p.kind.name in chain.asaDefs
  }

  predicate ValidRound(tx: Txn, round: int) {
    tx.fv < round < tx.lv
  }

  /** Checks made before any transaction of the group runs. */
  function CheckGroup(g: Group, chain: Chain): Result<bool> {
    var _ :- Require(|g| <= MAX_GROUP, GroupTooLarge);
    var _ :- Require(forall i :: 0 <= i < |g| ==> Encodable(g[i], chain), AsaDefNotFound);
    Require(forall i :: 0 <= i < |g| ==> ValidRound(g[i].txn, chain.round), InvalidRound)
  }

  // ---- Stored values ----

  /** A key-value map of the ledger: an account's local state of an application, or an application's global state. */
  datatype Place = Local(a: Address, id: nat) | Globals(a: Address, id: nat)

  /** The map at a place, empty if there is none. */
  function KvAt(s: State, x: Place): StateMap {
    if x.a !in s.accounts then map[]
    else match x
      case Local(a, id) => if id in s.accounts[a].appsLocalState then s.accounts[a].appsLocalState[id].kv else map[]
      case Globals(a, id) => if id in s.accounts[a].createdApps then s.accounts[a].createdApps[id].globals else map[]
  }

  // ---- The copy a group works on ----

  /** Whether a value is one of the first `n` shared arrays. */
  predicate IsOutside(v: StackElem, n: nat) {
    v.Ref? && v.r.Shared? && v.r.i < n
  }

  predicate KvRefersOutside(kv: StateMap, n: nat) {
    exists k :: k in kv && IsOutside(kv[k], n)
  }

  predicate AccountRefersOutside(acc: Account, n: nat) {
    || (exists id :: id in acc.appsLocalState && KvRefersOutside(acc.appsLocalState[id].kv, n))
    || (exists id :: id in acc.createdApps && KvRefersOutside(acc.createdApps[id].globals, n))
  }

  /** Some stored value is a shared array, put there by a program that had a reference to it. */
  predicate RefersOutside(s: State) {
    exists a :: a in s.accounts && AccountRefersOutside(s.accounts[a], |s.heap.shared|)
  }

  /** The value with the first `n` shared arrays replaced by the own arrays from place `m` on. */
  function DetachedValue(v: StackElem, m: nat, n: nat): StackElem {
    if IsOutside(v, n) then Ref(Own(m + v.r.i)) else v
  }

  function DetachedKv(kv: StateMap, m: nat, n: nat): StateMap {
    map k | k in kv :: DetachedValue(kv[k], m, n)
  }

  function DetachedAccount(acc: Account, m: nat, n: nat): Account {
    acc.(appsLocalState := map id | id in acc.appsLocalState ::
           acc.appsLocalState[id].(kv := DetachedKv(acc.appsLocalState[id].kv, m, n)),
         createdApps := map id | id in acc.createdApps ::
           acc.createdApps[id].(globals := DetachedKv(acc.createdApps[id].globals, m, n)))
  }

  /** A deep copy: it refers to no shared array, because those that stored values refer to are copied too. Values that are
      one array stay one array. */
  function Detached(s: State): State {
    if !RefersOutside(s) then s
    else
      var m, n := |s.heap.own|, |s.heap.shared|;
      s.(accounts := map a | a in s.accounts :: DetachedAccount(s.accounts[a], m, n), heap := Alloc(s.heap, s.heap.shared))
  }

  /** What a group starts from: a deep copy of the store, and no signature arguments yet. */
  function Opened(s: State): State {
    WithArgs(Detached(s), [])
  }

  /** Executes a group on a copy of the store and returns the store to commit, or the error of the failing transaction. */
  function ExecuteTx(s: State, g: Group, chain: Chain): Result<State> {
    var _ :- CheckGroup(g, chain);
    var s1 :- Process(Opened(s), g, 0, Txns(g), chain);
    Ok(WithArgs(s1, []))
  }

  // ---- What a group does to the shared arrays, whether it commits or not ----

  /** The program an application transaction runs, and the state it runs on, if it gets that far. */
  function AppRun(s: State, p: Param): Option<(State, string)>
    requires IsAppKind(p.kind)
  {
    match p.kind
    case CallNoOp(appID) => ApprovalRun(s, appID)
    case CloseOut(appID) => ApprovalRun(s, appID)
    case Clear(appID) => ClearRun(s, appID)
    case Delete(appID) => ApprovalRun(s, appID)
    case Update(appID, approval, clear) => if approval == "" || clear == "" then None else ApprovalRun(s, appID)
    case DeploySSC(approval, _, _) =>
      (match BeginApp(s, p.sender, p.kind, approval) case Err(_) => None case Ok(s1) => Some((s1, approval)))
    case OptInSSC(appID) => JoinRun(s, p.sender, appID)
  }

  function ClearRun(s: State, appID: nat): Option<(State, string)> {
    match GetApp(s, appID) case Err(_) => None case Ok(app) => Some((s, app.clear))
  }

  function JoinRun(s: State, a: Address, appID: nat): Option<(State, string)> {
    match JoinApp(s, a, appID) case Err(_) => None case Ok(s1) => Some((s1, GetApp(s, appID).value.approval))
  }

  function ApprovalRun(s: State, appID: nat): Option<(State, string)> {
    match GetApp(s, appID) case Err(_) => None case Ok(app) => Some((s, app.approval))
  }

  function SharedAfterRun(
      run: Option<(State, string)>, mode: Parser.Mode, s: State, p: Param, gtxs: seq<Txn>, chain: Chain): seq<Bytes>
  {
    match run
    case None => s.heap.shared
    case Some((s1, program)) => RunTeal(s1, program, mode, p, gtxs, chain).st.heap.shared
  }

  function SignatureRun(s: State, p: Param): Option<(State, string)> {
    if p.sign.SecretKey? || p.sign.lsig.None? then None
    else
      var lsig := p.sign.lsig.value;
      if !lsig.verified || lsig.program == "" then None else Some((WithArgs(s, lsig.args), lsig.program))
  }

  /** The shared arrays after a transaction that succeeds or fails. */
  function TransactShared(s: State, p: Param, gtxs: seq<Txn>, chain: Chain): seq<Bytes> {
    match DeductFee(s, p.sender, p.txn.fee)
    case Err(_) => s.heap.shared
    case Ok(s1) =>
      match CheckSignature(s1, p, gtxs, chain)
      case Err(_) => SharedAfterRun(SignatureRun(s1, p), Parser.Signature, s1, p, gtxs, chain)
      case Ok(s2) => ApplyShared(s2, p, gtxs, chain)
  }

  function ApplyShared(s: State, p: Param, gtxs: seq<Txn>, chain: Chain): seq<Bytes> {
    if IsAppKind(p.kind) then SharedAfterRun(AppRun(s, p), Parser.Application, s, p, gtxs, chain) else s.heap.shared
  }

  function ProcessShared(s: State, g: Group, i: nat, gtxs: seq<Txn>, chain: Chain): seq<Bytes>
    requires i <= |g|
    decreases |g| - i
  {
    if i == |g| then s.heap.shared
    else match Transact(s, g[i], gtxs, chain)
      case Err(_) => TransactShared(s, g[i], gtxs, chain)
      case Ok(s1) => ProcessShared(s1, g, i + 1, gtxs, chain)
  }

  /** The shared arrays after a group. No rollback reaches them: they are not part of the copy. */
  function LeftShared(s: State, g: Group, chain: Chain): seq<Bytes> {
    if CheckGroup(g, chain).Err? then s.heap.shared else ProcessShared(Opened(s), g, 0, Txns(g), chain)
  }

  function WithShared(s: State, arrays: seq<Bytes>): State {
    s.(heap := s.heap.(shared := arrays))
  }

  // ---- Runs ----

  datatype Call = Call(group: Group, chain: Chain)

  /** The store after a call: what the group commits, or the old store among the shared arrays that the group leaves. */
  function After(s: State, call: Call): State {
    match ExecuteTx(s, call.group, call.chain)
    case Ok(t) => t
    case Err(_) => WithShared(s, LeftShared(s, call.group, call.chain))
  }

  /** The store after a sequence of calls. */
  function Run(s: State, calls: seq<Call>): State
    decreases |calls|
  {
    if calls == [] then s else After(Run(s, calls[..|calls| - 1]), calls[|calls| - 1])
  }

  /** Only fresh accounts: no assets, no applications, the base minimum balance. */
  predicate Fresh(s: State) {
    && (forall a :: a in s.accounts ==> s.accounts[a] == FreshAccount(s.accounts[a].amount) && s.accounts[a].amount >= 0)
    && s.globalApps == map[] && s.assetDefs == map[] && s.appCounter == 0 && s.assetCounter == 0
    && "" !in s.accounts
  }
}
