/** Application state as a stateful contract sees it, and the life cycle of the calls that change it. */
module ContractStates {
  import opened Values
  import opened Stores

  type Kv = map<Bytes, Content>

  /** Global state, and the local state of every account that has opted in. */
  datatype AppState = AppState(globals: Kv, locals: map<Address, Kv>, globalSchema: Schema, localSchema: Schema)

  datatype GroupTxn = GroupTxn(assetTransfer: bool, assetSender: Bytes, receiver: Bytes, asset: int, amount: int)

  /** What a call's programs read: keys are the public keys of the addresses, `holding` the asset balance they look up. */
  datatype CallTxn = CallTxn(
    sender: Address, senderKey: Bytes, args: seq<Bytes>, accounts: seq<Address>, accountKeys: seq<Bytes>,
    noRekey: bool, noClose: bool, round: int, group: seq<GroupTxn>, holding: int)

  datatype Completion = NoOp | OptIn | CloseOut | Clear

  datatype Event = Event(completion: Completion, txn: CallTxn)

  function Ascii(s: string): (b: Bytes)
    ensures |b| == |s|
  {
    seq(|s|, i requires 0 <= i < |s| => s[i] as int % 256)
  }

  // ---- State access ----

  /** An absent key reads as zero. */
  function Get(kv: Kv, key: Bytes): Content {
    if key in kv then kv[key] else Integer(0)
  }

  function GlobalGet(s: AppState, key: Bytes): Content {
    Get(s.globals, key)
  }

  function LocalGet(s: AppState, a: Address, key: Bytes): Content {
    if a in s.locals then Get(s.locals[a], key) else Integer(0)
  }

  function AsNum(v: Content): Result<int> {
    if v.Integer? then Ok(v.n) else Err(InvalidType)
  }

  function Increment(v: Content): Result<Content> {
    var n :- AsNum(v);
    if n + 1 > MAX_UINT64 then Err(Uint64Overflow) else Ok(Integer(n + 1))
  }

  function Decrement(v: Content): Result<Content> {
    var n :- AsNum(v);
    if n - 1 < 0 then Err(Uint64Underflow) else Ok(Integer(n - 1))
  }

  function Fits(kv: Kv, schema: Schema): bool {
    |set k | k in kv && kv[k].Integer?| <= schema.numUint && |set k | k in kv && kv[k].Array?| <= schema.numByteSlice
  }

  function GlobalPut(s: AppState, key: Bytes, v: Content): Result<AppState> {
    var globals := s.globals[key := v];
    if Fits(globals, s.globalSchema) then Ok(s.(globals := globals)) else Err(InvalidSchema)
  }

  /** Overwriting an integer with an integer cannot break a schema. */
  lemma ReplacedNumFits(kv: Kv, key: Bytes, n: int, schema: Schema)
    requires key in kv && kv[key].Integer? && Fits(kv, schema)
    ensures Fits(kv[key := Integer(n)], schema)
  {
    var now := kv[key := Integer(n)];
    assert (set k | k in now && now[k].Integer?) == (set k | k in kv && kv[k].Integer?);
    assert (set k | k in now && now[k].Array?) == (set k | k in kv && kv[k].Array?);
  }

  function LocalPut(s: AppState, a: Address, key: Bytes, v: Content): Result<AppState> {
    if a !in s.locals then Err(AppNotFound)
    else
      var kv := s.locals[a][key := v];
      if Fits(kv, s.localSchema) then Ok(s.(locals := s.locals[a := kv])) else Err(InvalidSchema)
  }

  function LocalDel(s: AppState, a: Address, key: Bytes): AppState {
    if a !in s.locals then s else s.(locals := s.locals[a := s.locals[a] - {key}])
  }

  function Check(cond: bool): Result<bool> {
    if cond then Ok(true) else Err(RejectedByLogic)
  }

  // ---- Life cycle ----

  type Approval = (AppState, Event) -> Result<AppState>

  function Join(s: AppState, a: Address): AppState {
    if a in s.locals then s else s.(locals := s.locals[a := map[]])
  }

  function Leave(s: AppState, a: Address): Result<AppState> {
    if a in s.locals then Ok(s.(locals := s.locals - {a})) else Err(AppNotFound)
  }

  /** An opt-in joins before the program runs, a close-out leaves after it; the clear programs approve everything. */
  function Transact(f: Approval, s: AppState, e: Event): Result<AppState> {
    match e.completion
    case NoOp => f(s, e)
    case OptIn => f(Join(s, e.txn.sender), e)
    case CloseOut =>
      var s1 :- f(s, e);
      Leave(s1, e.txn.sender)
    case Clear => Leave(s, e.txn.sender)
  }

  /** A rejected call changes nothing. */
  function Step(f: Approval, s: AppState, e: Event): AppState {
    var r := Transact(f, s, e);
    if r.Ok? then r.value else s
  }

  function Run(f: Approval, s: AppState, es: seq<Event>): AppState {
    if es == [] then s else Step(f, Run(f, s, es[..|es| - 1]), es[|es| - 1])
  }

  /** Sum of a measure over the events of a run, each seen with the state before it. */
  function Sum(f: Approval, s: AppState, es: seq<Event>, w: (AppState, Event) -> int): int {
    if es == [] then 0
    else
      var front := es[..|es| - 1];
      Sum(f, s, front, w) + w(Run(f, s, front), es[|es| - 1])
  }

  ghost predicate StepLaw(f: Approval, s: AppState, e: Event, inv: AppState -> bool, phi: AppState -> int, w: (AppState, Event) -> int) {
    inv(s) ==> inv(Step(f, s, e)) && phi(Step(f, s, e)) == phi(s) + w(s, e)
  }

  lemma {:induction false} RunLaw(
      f: Approval, s: AppState, es: seq<Event>, inv: AppState -> bool, phi: AppState -> int, w: (AppState, Event) -> int)
    requires inv(s) && forall x, e :: StepLaw(f, x, e, inv, phi, w)
    ensures inv(Run(f, s, es)) && phi(Run(f, s, es)) == phi(s) + Sum(f, s, es, w)
  {
    if es != [] {
      var front := es[..|es| - 1];
      RunLaw(f, s, front, inv, phi, w);
      assert StepLaw(f, Run(f, s, front), es[|es| - 1], inv, phi, w);
    }
  }

  lemma {:induction false} SumNonNegative(f: Approval, s: AppState, es: seq<Event>, w: (AppState, Event) -> int)
    requires forall x, e :: w(x, e) >= 0
    ensures Sum(f, s, es, w) >= 0
  {
    if es != [] {
      SumNonNegative(f, s, es[..|es| - 1], w);
    }
  }

  // ---- Counting accounts by a local value ----

  /** The opted-in accounts whose local `key` is `v`. */
  function With(locals: map<Address, Kv>, key: Bytes, v: Content): set<Address> {
    set a | a in locals && Get(locals[a], key) == v
  }

  function Bit(b: bool): int {
    if b then 1 else 0
  }

  lemma WithoutOne(s: set<Address>, a: Address)
    ensures |s - {a}| == |s| - Bit(a in s)
  {
    if a !in s {
      assert s - {a} == s;
    }
  }

  lemma WithElsewhere(locals: map<Address, Kv>, a: Address, kv: Kv, key: Bytes, v: Content)
    ensures With(locals[a := kv], key, v) - {a} == With(locals, key, v) - {a}
    ensures a in With(locals[a := kv], key, v) <==> Get(kv, key) == v
  {
    hide Get;
  }

  lemma CountUpdate(locals: map<Address, Kv>, a: Address, kv: Kv, key: Bytes, v: Content)
    ensures |With(locals[a := kv], key, v)| == |With(locals, key, v)| - Bit(a in With(locals, key, v)) + Bit(Get(kv, key) == v)
  {
    hide With;
    var before, after := With(locals, key, v), With(locals[a := kv], key, v);
    WithoutOne(before, a);
    WithoutOne(after, a);
    WithElsewhere(locals, a, kv, key, v);
  }

  lemma CountRemove(locals: map<Address, Kv>, a: Address, key: Bytes, v: Content)
    ensures |With(locals - {a}, key, v)| == |With(locals, key, v)| - Bit(a in With(locals, key, v))
  {
    assert With(locals - {a}, key, v) == With(locals, key, v) - {a};
  }

  // ---- The state as an object ----

  /** The state a program updates in place, step by step. */
  class AppStore {
    var globals: Kv
    var locals: map<Address, Kv>
    const globalSchema: Schema
    const localSchema: Schema

    function State(): AppState
      reads this
    {
      AppState(globals, locals, globalSchema, localSchema)
    }

    constructor (s: AppState)
      ensures State() == s
    {
      globals, locals, globalSchema, localSchema := s.globals, s.locals, s.globalSchema, s.localSchema;
    }

    method Put(key: Bytes, v: Content) returns (o: Outcome)
      modifies this`globals
      ensures Agrees(GlobalPut(old(State()), key, v), o, State())
    {
      globals := globals[key := v];
      return Ensure(Fits(globals, globalSchema), InvalidSchema);
    }

    method PutLocal(a: Address, key: Bytes, v: Content) returns (o: Outcome)
      modifies this`locals
      ensures Agrees(LocalPut(old(State()), a, key, v), o, State())
    {
      o := Pass;
      :- Ensure(a in locals, AppNotFound);
      locals := locals[a := locals[a][key := v]];
      return Ensure(Fits(locals[a], localSchema), InvalidSchema);
    }

    method DeleteLocal(a: Address, key: Bytes)
      modifies this`locals
      ensures State() == LocalDel(old(State()), a, key)
    {
      if a in locals {
        locals := locals[a := locals[a] - {key}];
      }
    }
  }
}
