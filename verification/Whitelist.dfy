/** The permissions contract of the permissioned token: whitelisting, close-outs, and what its counter counts. */
module WhitelistContract {
  import opened Values
  import opened Stores
  import opened ContractStates

  const MANAGER := Ascii("manager")
  const MAX_TOKENS := Ascii("max_tokens")
  const COUNT := Ascii("whitelist_count")
  const WHITELISTED := Ascii("whitelisted")

  predicate BasicChecks(t: CallTxn) {
    t.noRekey && t.noClose
  }

  predicate IsManager(s: AppState, t: CallTxn) {
    Array(t.senderKey) == GlobalGet(s, MANAGER)
  }

  function Deploy(globalSchema: Schema, localSchema: Schema, manager: Bytes, t: CallTxn): Result<AppState> {
    var _ :- Check(BasicChecks(t));
    var s1 :- GlobalPut(AppState(map[], map[], globalSchema, localSchema), MAX_TOKENS, Integer(100));
    var s2 :- GlobalPut(s1, COUNT, Integer(0));
    GlobalPut(s2, MANAGER, Array(manager))
  }

  function ChangeManager(s: AppState, t: CallTxn): Result<AppState> {
    var _ :- Check(|t.accounts| == 1 && |t.accountKeys| == 1 && BasicChecks(t) && IsManager(s, t));
    GlobalPut(s, MANAGER, Array(t.accountKeys[0]))
  }

  /** The counter is raised before the account is marked; an account that has not opted in makes the whole call fail. */
  function AddWhitelist(s: AppState, t: CallTxn): Result<AppState> {
    var _ :- Check(|t.accounts| == 1 && BasicChecks(t) && IsManager(s, t));
    var status :- AsNum(LocalGet(s, t.accounts[0], WHITELISTED));
    if status != 0 then Ok(s)
    else
      var count :- Increment(GlobalGet(s, COUNT));
      var s1 :- GlobalPut(s, COUNT, count);
      LocalPut(s1, t.accounts[0], WHITELISTED, Integer(1))
  }

  function HandleCloseOut(s: AppState, t: CallTxn): Result<AppState> {
    var _ :- Check(|t.args| == 0 && BasicChecks(t));
    var status :- AsNum(LocalGet(s, t.sender, WHITELISTED));
    if status == 1 then
      var count :- Decrement(GlobalGet(s, COUNT));
      GlobalPut(s, COUNT, count)
    else Ok(s)
  }

  /** Reads only: both ends must be whitelisted, and the receiver must not hold too much. */
  function TransferToken(s: AppState, t: CallTxn): Result<AppState> {
    var limit :- AsNum(GlobalGet(s, MAX_TOKENS));
    var _ :- Check(|t.group| >= 2 && t.group[1].assetTransfer && |t.accounts| >= 2 && |t.accountKeys| >= 2);
    var _ :- Check(t.accountKeys[0] == t.group[1].assetSender && t.accountKeys[1] == t.group[1].receiver && t.holding <= limit);
    var _ :- Check(LocalGet(s, t.accounts[0], WHITELISTED) == Integer(1) && LocalGet(s, t.accounts[1], WHITELISTED) == Integer(1));
    Ok(s)
  }

  function Approve(s: AppState, e: Event): Result<AppState> {
    var t := e.txn;
    match e.completion
    case CloseOut => HandleCloseOut(s, t)
    case OptIn => if |t.args| == 0 && BasicChecks(t) then Ok(s) else Err(RejectedByLogic)
    case _ =>
      if |t.args| == 0 then Err(IndexOutOfBound)
      else if t.args[0] == Ascii("change_permissions_manager") then ChangeManager(s, t)
      else if t.args[0] == Ascii("add_whitelist") then AddWhitelist(s, t)
      else if t.args[0] == Ascii("transfer") then TransferToken(s, t)
      else Err(EncounteredErr)
  }

  // ---- What the counter counts ----

  function Count(s: AppState): int {
    if GlobalGet(s, COUNT).Integer? then GlobalGet(s, COUNT).n else 0
  }

  function Listed(s: AppState): set<Address> {
    With(s.locals, WHITELISTED, Integer(1))
  }

  /** A whitelisted account that leaves by a clear call stays counted. */
  function Cleared(s: AppState, e: Event): int {
    Bit(Transact(Approve, s, e).Ok? && e.completion == Clear && e.txn.sender in Listed(s))
  }

  predicate ListInv(s: AppState) {
    && GlobalGet(s, COUNT).Integer? && Fits(s.globals, s.globalSchema) && COUNT in s.globals
    && forall a :: a in s.locals ==> Get(s.locals[a], WHITELISTED) in {Integer(0), Integer(1)}
  }

  function Excess(s: AppState): int {
    Count(s) - |Listed(s)|
  }

  lemma KeysDiffer()
    ensures |MANAGER| == 7 && |MAX_TOKENS| == 10 && |COUNT| == 15
  {
  }

  /** Adding an account that is not marked raises the counter by one and marks that account; adding one that is changes
      nothing. No other value changes either way, and adding the account again changes nothing. */
  lemma AddEffect(s: AppState, t: CallTxn)
    requires AddWhitelist(s, t).Ok?
    ensures var s', a := AddWhitelist(s, t).value, t.accounts[0];
            && (if LocalGet(s, a, WHITELISTED) == Integer(0) then
                  && Count(s') == Count(s) + 1 && a !in Listed(s) && Listed(s') == Listed(s) + {a}
                else s' == s)
            && (forall k :: k != COUNT ==> GlobalGet(s', k) == GlobalGet(s, k))
            && (forall k :: k != WHITELISTED ==> LocalGet(s', a, k) == LocalGet(s, a, k))
            && s'.locals - {a} == s.locals - {a} && s'.locals.Keys == s.locals.Keys
            && AddWhitelist(s', t) == Ok(s')
  {
    KeysDiffer();
    var s', a := AddWhitelist(s, t).value, t.accounts[0];
    if LocalGet(s, a, WHITELISTED) == Integer(0) {
      forall b
        ensures b in Listed(s') <==> b in Listed(s) || b == a
      {
      }
      assert s'.locals - {a} == s.locals - {a};
    }
  }

  lemma AddKeeps(s: AppState, t: CallTxn)
    requires ListInv(s) && AddWhitelist(s, t).Ok?
    ensures ListInv(AddWhitelist(s, t).value) && Excess(AddWhitelist(s, t).value) == Excess(s)
  {
    var a := t.accounts[0];
    if LocalGet(s, a, WHITELISTED) == Integer(0) {
      var kv := s.locals[a][WHITELISTED := Integer(1)];
      CountUpdate(s.locals, a, kv, WHITELISTED, Integer(1));
      assert Get(kv, WHITELISTED) == Integer(1);
    }
  }

  lemma CloseOutKeeps(s: AppState, e: Event)
    requires ListInv(s) && HandleCloseOut(s, e.txn).Ok? && Leave(HandleCloseOut(s, e.txn).value, e.txn.sender).Ok?
    ensures var t := Leave(HandleCloseOut(s, e.txn).value, e.txn.sender).value; ListInv(t) && Excess(t) == Excess(s)
  {
    CountRemove(s.locals, e.txn.sender, WHITELISTED, Integer(1));
  }

  lemma StepKeeps(s: AppState, e: Event)
    requires ListInv(s)
    ensures ListInv(Step(Approve, s, e)) && Excess(Step(Approve, s, e)) == Excess(s) + Cleared(s, e)
  {
    KeysDiffer();
    if Transact(Approve, s, e).Ok? {
      match e.completion
      case NoOp =>
        if e.txn.args[0] == Ascii("add_whitelist") && e.txn.args[0] != Ascii("change_permissions_manager") {
          AddKeeps(s, e.txn);
        }
      case CloseOut => CloseOutKeeps(s, e);
      case Clear => CountRemove(s.locals, e.txn.sender, WHITELISTED, Integer(1));
      case OptIn =>
        if e.txn.sender !in s.locals {
          CountUpdate(s.locals, e.txn.sender, map[], WHITELISTED, Integer(1));
        }
    }
  }

  lemma DeployedState(globalSchema: Schema, localSchema: Schema, manager: Bytes, t: CallTxn)
    requires Deploy(globalSchema, localSchema, manager, t).Ok?
    ensures var s := Deploy(globalSchema, localSchema, manager, t).value; ListInv(s) && Excess(s) == 0
  {
    KeysDiffer();
    assert Listed(Deploy(globalSchema, localSchema, manager, t).value) == {};
  }

  /** Over every run from deployment the counter is the number of whitelisted opted-in accounts plus the number of
      whitelisted accounts that have left by a clear call, whoever has been manager in between. */
  lemma CounterCountsWhitelist(
      globalSchema: Schema, localSchema: Schema, manager: Bytes, deployment: CallTxn, es: seq<Event>)
    requires Deploy(globalSchema, localSchema, manager, deployment).Ok?
    ensures var s := Deploy(globalSchema, localSchema, manager, deployment).value;
            var t, gone := Run(Approve, s, es), Sum(Approve, s, es, Cleared);
            ListInv(t) && Count(t) == |Listed(t)| + gone && gone >= 0
  {
    var s := Deploy(globalSchema, localSchema, manager, deployment).value;
    DeployedState(globalSchema, localSchema, manager, deployment);
    forall x, e
      ensures StepLaw(Approve, x, e, ListInv, Excess, Cleared)
    {
      if ListInv(x) {
        StepKeeps(x, e);
      }
    }
    RunLaw(Approve, s, es, ListInv, Excess, Cleared);
    SumNonNegative(Approve, s, es, Cleared);
  }

  lemma CloseOutSucceeds(s: AppState, e: Event)
    requires ListInv(s) && Excess(s) >= 0
    requires e.completion == CloseOut && |e.txn.args| == 0 && BasicChecks(e.txn) && e.txn.sender in s.locals
    ensures Transact(Approve, s, e).Ok?
  {
    if LocalGet(s, e.txn.sender, WHITELISTED) == Integer(1) {
      assert e.txn.sender in Listed(s);
      ReplacedNumFits(s.globals, COUNT, Count(s) - 1, s.globalSchema);
    }
  }

  /** The decrement never underflows: in every reachable state a close-out call that passes the contract's own checks
      succeeds for every opted-in account. */
  lemma CloseOutAlwaysSucceeds(
      globalSchema: Schema, localSchema: Schema, manager: Bytes, deployment: CallTxn, es: seq<Event>, e: Event)
    requires Deploy(globalSchema, localSchema, manager, deployment).Ok?
    requires e.completion == CloseOut && |e.txn.args| == 0 && BasicChecks(e.txn)
    requires e.txn.sender in Run(Approve, Deploy(globalSchema, localSchema, manager, deployment).value, es).locals
    ensures Transact(Approve, Run(Approve, Deploy(globalSchema, localSchema, manager, deployment).value, es), e).Ok?
  {
    CounterCountsWhitelist(globalSchema, localSchema, manager, deployment, es);
    CloseOutSucceeds(Run(Approve, Deploy(globalSchema, localSchema, manager, deployment).value, es), e);
  }

  // ---- The programs as steps on the stored state ----

  method AddToWhitelist(app: AppStore, t: CallTxn) returns (o: Outcome)
    modifies app
    ensures Agrees(AddWhitelist(old(app.State()), t), o, app.State())
  {
    o := Pass;
    :- Ensure(|t.accounts| == 1 && BasicChecks(t) && IsManager(app.State(), t), RejectedByLogic);
    var status := AsNum(LocalGet(app.State(), t.accounts[0], WHITELISTED));
    :- OutcomeOf(status);
    if status.value != 0 {
      return Pass;
    }
    var count := Increment(GlobalGet(app.State(), COUNT));
    :- OutcomeOf(count);
    :- app.Put(COUNT, count.value);
    o := app.PutLocal(t.accounts[0], WHITELISTED, Integer(1));
  }

  method OnCloseOut(app: AppStore, t: CallTxn) returns (o: Outcome)
    modifies app
    ensures Agrees(HandleCloseOut(old(app.State()), t), o, app.State())
  {
    o := Pass;
    :- Ensure(|t.args| == 0 && BasicChecks(t), RejectedByLogic);
    var status := AsNum(LocalGet(app.State(), t.sender, WHITELISTED));
    :- OutcomeOf(status);
    if status.value == 1 {
      var count := Decrement(GlobalGet(app.State(), COUNT));
      :- OutcomeOf(count);
      :- app.Put(COUNT, count.value);
    }
    return Pass;
  }
}
