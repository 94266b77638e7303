/** Arrays shared by the store, by programs and by callers: no rollback reaches them. What a group does to them, and when a
    group that throws still changes what the store holds. */
module SharedArrays {
  import opened Values
  import opened Bits
  import opened Teal
  import opened TealRun
  import opened TealFrames
  import opened Ledger
  import opened LedgerFrames
  import opened LedgerTexts
  import Parser

  // ---- One operator ----

  /** The operators that write into an array that exists. */
  predicate WritesArrays(op: Op) {
    op == Value(OnBits(SetBit)) || op == Value(OnBits(SetByte))
  }

  predicate SharedStays(s: State, r: Result<Machine>) {
    r.Ok? ==> r.value.st.heap.shared == s.heap.shared
  }

  lemma ArithKeepsShared(op: ArithOp, m: Machine)
    ensures SharedStays(m.st, StepArith(op, m))
  {
  }

  lemma BytesKeepShared(op: BytesOp, m: Machine, env: Env)
    ensures SharedStays(m.st, StepBytes(op, m, env))
  {
  }

  lemma ReadBitsKeepShared(op: BitsOp, m: Machine)
    requires op.GetBit? || op.GetByte?
    ensures SharedStays(m.st, StepBits(op, m))
  {
  }

  lemma StackKeepsShared(op: StackOp, m: Machine)
    ensures SharedStays(m.st, StepStack(op, m))
  {
  }

  lemma ConstKeepsShared(op: ConstOp, m: Machine)
    ensures SharedStays(m.st, StepConst(op, m))
  {
  }

  lemma ValueKeepsShared(op: ValueOp, m: Machine, env: Env)
    requires !WritesArrays(Value(op))
    ensures SharedStays(m.st, StepValue(op, m, env))
  {
    hide StepArith, StepBytes, StepBits, StepStack, StepConst;
    match op
    case OnInts(o) => ArithKeepsShared(o, m);
    case OnBytes(o) => BytesKeepShared(o, m, env);
    case OnBits(o) => ReadBitsKeepShared(o, m);
    case OnStack(o) => StackKeepsShared(o, m);
    case Const(o) => ConstKeepsShared(o, m);
  }

  lemma FieldKeepsShared(m: Machine, v: FieldValue)
    ensures SharedStays(m.st, PushField(m, v))
  {
  }

  lemma TxnKeepsShared(op: TxnOp, m: Machine, c: TealCtx)
    ensures SharedStays(m.st, StepTxn(op, m, c))
  {
  }

  lemma AppReadKeepsShared(op: AppReadOp, m: Machine, c: TealCtx)
    ensures SharedStays(m.st, StepAppRead(op, m, c))
  {
  }

  lemma ReadKeepsShared(op: ReadOp, m: Machine, c: TealCtx)
    ensures SharedStays(m.st, StepRead(op, m, c))
  {
    hide StepTxn, StepAppRead, PushField, GlobalFieldValue;
    match op
    case ReadTxn(o) => TxnKeepsShared(o, m, c);
    case ReadApp(o) => AppReadKeepsShared(o, m, c);
    case Global(g) =>
      var v := GlobalFieldValue(g, m.st, c);
      if v.Ok? {
        FieldKeepsShared(m, v.value);
      }
  }

  lemma AssetParamsKeepsShared(f: ParamField, m: Machine, c: TealCtx)
    ensures StateAfter(StepAssetParams(f, m, c)).heap.shared == m.st.heap.shared
  {
    hide PushField, FindAssetDef, ParamValue;
    if |m.stack| >= 1 && Peek(m, 0).Int? && c.tx.apas.Some? && InBounds(Peek(m, 0).n, |c.tx.apas.value|) {
      match FindAssetDef(m.st, c.tx.apas.value[Peek(m, 0).n])
      case Err(_) =>
      case Ok(None) =>
      case Ok(Some(d)) => FieldKeepsShared(Drop(m, 1), ParamValue(d, f, c.env));
    }
  }

  /** Every other operator leaves the shared arrays alone. */
  lemma StepKeepsShared(op: Op, m: Machine, c: TealCtx)
    requires !WritesArrays(op)
    ensures StateAfter(Step(op, m, c)).heap.shared == m.st.heap.shared
  {
    hide StepValue, StepRead, StepAssetParams;
    match op
    case Value(o) => ValueKeepsShared(o, m, c.env);
    case Read(o) => ReadKeepsShared(o, m, c);
    case AssetParamsGet(f) => AssetParamsKeepsShared(f, m, c);
    case _ =>
  }

  predicate SameLengths(x: seq<Bytes>, y: seq<Bytes>) {
    |x| == |y| && forall i :: 0 <= i < |x| ==> |y[i]| == |x[i]|
  }

  lemma WriteKeepsLengths(op: BitsOp, m: Machine)
    ensures StepBits(op, m).Ok? ==> SameLengths(m.st.heap.shared, StepBits(op, m).value.st.heap.shared)
  {
  }

  /** A write stays within its array: no operator changes how many shared arrays there are, or how long they are. */
  lemma StepKeepsLengths(op: Op, m: Machine, c: TealCtx)
    ensures SameLengths(m.st.heap.shared, StateAfter(Step(op, m, c)).heap.shared)
  {
    if WritesArrays(op) {
      WriteKeepsLengths(op.value.bits, m);
    } else {
      StepKeepsShared(op, m, c);
    }
  }

  // ---- Programs, transactions and groups ----

  /** A property of the shared arrays. */
  type ArraysInv = seq<Bytes> -> bool

  ghost predicate OpKeeps(op: Op, inv: ArraysInv) {
    forall m: Machine, c: TealCtx :: inv(m.st.heap.shared) ==> inv(StateAfter(Step(op, m, c)).heap.shared)
  }

  ghost predicate ProgramKeeps(p: Program, inv: ArraysInv) {
    forall k :: 0 <= k < |p| ==> OpKeeps(p[k].op, inv)
  }

  /** However it is parsed, the text has only operators that keep the property. */
  ghost predicate TextKeeps(text: string, env: Env, inv: ArraysInv) {
    forall mode, nargs: nat ::
      Parser.Parse(text, mode, nargs, env).Ok? ==> ProgramKeeps(Parser.Parse(text, mode, nargs, env).value.instrs, inv)
  }

  lemma RunKeepsArrays(p: Program, m: Machine, c: TealCtx, inv: ArraysInv)
    requires ProgramKeeps(p, inv) && inv(m.st.heap.shared)
    ensures inv(StateOf(RunFrom(p, 0, m, StepperOf(c))).heap.shared)
  {
    hide Step;
    var minv, final := (x: Machine) => inv(x.st.heap.shared), (st: State) => inv(st.heap.shared);
    var f := StepperOf(c);
    forall k, m1 | 0 <= k < |p| && minv(m1)
      ensures StepKeeps(f(p[k].op, m1), minv, final)
    {
      assert OpKeeps(p[k].op, inv) && f(p[k].op, m1) == Step(p[k].op, m1, c);
      assert inv(StateAfter(Step(p[k].op, m1, c)).heap.shared);
    }
    RunInvariant(p, 0, m, f, minv, final);
  }

  lemma RunTealKeepsArrays(
      s: State, program: string, mode: Parser.Mode, p: Param, gtxs: seq<Txn>, chain: Chain, inv: ArraysInv)
    requires TextKeeps(program, chain.env, inv) && inv(s.heap.shared)
    ensures inv(RunTeal(s, program, mode, p, gtxs, chain).st.heap.shared)
  {
    hide Parser.Parse, RunFrom, ProgramKeeps, Accepts;
    var parsed := Parser.Parse(program, mode, |s.args|, chain.env);
    if parsed.Ok? {
      var c := TealCtx(p.txn, gtxs, chain.round, chain.timestamp, chain.env);
      RunKeepsArrays(parsed.value.instrs, InitMachine(s), c, inv);
    }
  }

  /** The test for keeping the property, put to new programs and to those of the named applications. */
  ghost function Keeper(env: Env, inv: ArraysInv, named: set<nat>): Test {
    (id: nat, text: string) => id == 0 || id in named ==> TextKeeps(text, env, inv)
  }

  /** The applications that a transaction names are among these. */
  predicate Names(p: Param, named: set<nat>) {
    IsAppKind(p.kind) && !p.kind.DeploySSC? ==> RunID(p.kind) in named
  }

  /** The transaction is about named applications, and every program it brings keeps the property. */
  ghost predicate ParamKeeps(p: Param, env: Env, inv: ArraysInv, named: set<nat>) {
    Names(p, named) && ParamTexts(p, Keeper(env, inv, named))
  }

  lemma SharedAfterRunKeeps(
      run: Option<(State, string)>, mode: Parser.Mode, s: State, p: Param, gtxs: seq<Txn>, chain: Chain, inv: ArraysInv)
    requires inv(s.heap.shared)
    requires run.Some? ==> run.value.0.heap.shared == s.heap.shared && TextKeeps(run.value.1, chain.env, inv)
    ensures inv(SharedAfterRun(run, mode, s, p, gtxs, chain))
  {
    hide RunTeal, TextKeeps;
    if run.Some? {
      RunTealKeepsArrays(run.value.0, run.value.1, mode, p, gtxs, chain, inv);
    }
  }

  lemma AppRunShared(s: State, p: Param)
    requires IsAppKind(p.kind) && AppRun(s, p).Some?
    ensures AppRun(s, p).value.0.heap.shared == s.heap.shared
  {
  }

  lemma ApplyKeepsArrays(s: State, p: Param, gtxs: seq<Txn>, chain: Chain, inv: ArraysInv, named: set<nat>)
    requires Texts(s, Keeper(chain.env, inv, named)) && ParamKeeps(p, chain.env, inv, named) && inv(s.heap.shared)
    ensures inv(ApplyShared(s, p, gtxs, chain))
  {
    hide AppRun, TextKeeps, Texts, ParamTexts, SharedAfterRun;
    if IsAppKind(p.kind) {
      if AppRun(s, p).Some? {
        AppRunPasses(s, p, Keeper(chain.env, inv, named));
        AppRunShared(s, p);
      }
      SharedAfterRunKeeps(AppRun(s, p), Parser.Application, s, p, gtxs, chain, inv);
    }
  }

  lemma SignatureShared(s: State, p: Param, gtxs: seq<Txn>, chain: Chain)
    requires CheckSignature(s, p, gtxs, chain).Ok?
    ensures CheckSignature(s, p, gtxs, chain).value.heap.shared
            == SharedAfterRun(SignatureRun(s, p), Parser.Signature, s, p, gtxs, chain)
  {
    hide RunTeal;
  }

  lemma SignatureKeepsArrays(s: State, p: Param, gtxs: seq<Txn>, chain: Chain, inv: ArraysInv, named: set<nat>)
    requires ParamKeeps(p, chain.env, inv, named) && inv(s.heap.shared)
    ensures inv(SharedAfterRun(SignatureRun(s, p), Parser.Signature, s, p, gtxs, chain))
  {
    hide TextKeeps, SharedAfterRun;
    SharedAfterRunKeeps(SignatureRun(s, p), Parser.Signature, s, p, gtxs, chain, inv);
  }

  lemma FeeShared(s: State, a: Address, fee: nat)
    ensures DeductFee(s, a, fee).Ok? ==> DeductFee(s, a, fee).value.heap.shared == s.heap.shared
  {
  }

  lemma TransactKeepsArrays(s: State, p: Param, gtxs: seq<Txn>, chain: Chain, inv: ArraysInv, named: set<nat>)
    requires Texts(s, Keeper(chain.env, inv, named)) && ParamKeeps(p, chain.env, inv, named) && inv(s.heap.shared)
    ensures inv(TransactShared(s, p, gtxs, chain))
  {
    hide DeductFee, CheckSignature, ApplyShared, SharedAfterRun, SignatureRun, Texts, ParamTexts, TextKeeps;
    FeeShared(s, p.sender, p.txn.fee);
    if DeductFee(s, p.sender, p.txn.fee).Ok? {
      var s1 := DeductFee(s, p.sender, p.txn.fee).value;
      SignatureKeepsArrays(s1, p, gtxs, chain, inv, named);
      if CheckSignature(s1, p, gtxs, chain).Ok? {
        SignatureShared(s1, p, gtxs, chain);
        PrepareTexts(s, p, gtxs, chain, Keeper(chain.env, inv, named));
        ApplyKeepsArrays(CheckSignature(s1, p, gtxs, chain).value, p, gtxs, chain, inv, named);
      }
    }
  }

  // ---- A transaction that succeeds carries the shared arrays in its result ----

  lemma AppKindShared(s: State, p: Param, gtxs: seq<Txn>, chain: Chain)
    requires IsAppKind(p.kind) && ApplyAppKind(s, p, gtxs, chain).Ok?
    ensures ApplyAppKind(s, p, gtxs, chain).value.heap.shared
            == SharedAfterRun(AppRun(s, p), Parser.Application, s, p, gtxs, chain)
  {
    hide RunTeal, AppRun, ApplyAppKind;
    AppKindAfterRun(s, p, gtxs, chain);
  }

  lemma ApplySharedOk(s: State, p: Param, gtxs: seq<Txn>, chain: Chain)
    requires Apply(s, p, gtxs, chain).Ok?
    ensures Apply(s, p, gtxs, chain).value.heap.shared == ApplyShared(s, p, gtxs, chain)
  {
    hide ApplyAssetKind, ApplyAppKind, AppRun, SharedAfterRun;
    if IsAssetKind(p.kind) {
      AssetKindArrays(s, p);
    } else if IsAppKind(p.kind) {
      AppKindShared(s, p, gtxs, chain);
    }
  }

  lemma TransactSharedOk(s: State, p: Param, gtxs: seq<Txn>, chain: Chain)
    requires Transact(s, p, gtxs, chain).Ok?
    ensures Transact(s, p, gtxs, chain).value.heap.shared == TransactShared(s, p, gtxs, chain)
  {
    hide DeductFee, CheckSignature, Apply, ApplyShared, SharedAfterRun;
    ApplySharedOk(Prepare(s, p, gtxs, chain).value, p, gtxs, chain);
  }

  lemma {:induction false} ProcessSharedOk(s: State, g: Group, i: nat, gtxs: seq<Txn>, chain: Chain)
    requires i <= |g| && Process(s, g, i, gtxs, chain).Ok?
    ensures Process(s, g, i, gtxs, chain).value.heap.shared == ProcessShared(s, g, i, gtxs, chain)
    decreases |g| - i
  {
    hide Transact, TransactShared;
    if i < |g| {
      ProcessSharedOk(Transact(s, g[i], gtxs, chain).value, g, i + 1, gtxs, chain);
    }
  }

  lemma OpenedShared(s: State)
    ensures Opened(s).heap.shared == s.heap.shared
  {
  }

  /** Committed or not, a call leaves the shared arrays as its programs left them. */
  lemma AfterShared(s: State, call: Call)
    ensures After(s, call).heap.shared == LeftShared(s, call.group, call.chain)
  {
    hide Process, ProcessShared, Opened, CheckGroup;
    var g := call.group;
    if ExecuteTx(s, g, call.chain).Ok? {
      ProcessSharedOk(Opened(s), g, 0, Txns(g), call.chain);
    }
  }

  lemma {:induction false} ProcessKeepsArrays(
      s: State, g: Group, i: nat, gtxs: seq<Txn>, chain: Chain, inv: ArraysInv, named: set<nat>)
    requires i <= |g| && Texts(s, Keeper(chain.env, inv, named)) && inv(s.heap.shared)
    requires forall k :: 0 <= k < |g| ==> ParamKeeps(g[k], chain.env, inv, named)
    ensures inv(ProcessShared(s, g, i, gtxs, chain))
    decreases |g| - i
  {
    hide Transact, TransactShared, Texts, ParamTexts, TextKeeps;
    if i < |g| {
      TransactKeepsArrays(s, g[i], gtxs, chain, inv, named);
      if Transact(s, g[i], gtxs, chain).Ok? {
        TransactSharedOk(s, g[i], gtxs, chain);
        TransactTexts(s, g[i], gtxs, chain, Keeper(chain.env, inv, named));
        ProcessKeepsArrays(Transact(s, g[i], gtxs, chain).value, g, i + 1, gtxs, chain, inv, named);
      }
    }
  }

  /** What every program of the applications that a group names keeps, and every program it brings, the whole call keeps. */
  lemma CallKeepsArrays(s: State, call: Call, inv: ArraysInv, named: set<nat>)
    requires Texts(s, Keeper(call.chain.env, inv, named)) && inv(s.heap.shared)
    requires forall k :: 0 <= k < |call.group| ==> ParamKeeps(call.group[k], call.chain.env, inv, named)
    ensures inv(After(s, call).heap.shared)
  {
    hide Texts, ParamKeeps, TextKeeps, ProcessShared, CheckGroup, Opened, After;
    AfterShared(s, call);
    OpenedShared(s);
    OpenedFrame(s);
    SignatureTexts(s, Opened(s), Keeper(call.chain.env, inv, named));
    ProcessKeepsArrays(Opened(s), call.group, 0, Txns(call.group), call.chain, inv, named);
  }

  /** The applications that a group names. */
  function NamedBy(g: Group): set<nat> {
    set i | 0 <= i < |g| && IsAppKind(g[i].kind) :: RunID(g[i].kind)
  }

  lemma NamesThem(g: Group, i: nat)
    requires i < |g|
    ensures Names(g[i], NamedBy(g))
  {
  }

  /** No call changes how many shared arrays there are, or how long they are. */
  lemma CallKeepsLengths(s: State, call: Call)
    ensures SameLengths(s.heap.shared, After(s, call).heap.shared)
  {
    hide After;
    var start := s.heap.shared;
    var inv := (arrays: seq<Bytes>) => SameLengths(start, arrays);
    forall op: Op
      ensures OpKeeps(op, inv)
    {
      forall m: Machine, c: TealCtx | inv(m.st.heap.shared)
        ensures inv(StateAfter(Step(op, m, c)).heap.shared)
      {
        StepKeepsLengths(op, m, c);
      }
    }
    forall k | 0 <= k < |call.group|
      ensures ParamKeeps(call.group[k], call.chain.env, inv, NamedBy(call.group))
    {
      NamesThem(call.group, k);
    }
    CallKeepsArrays(s, call, inv, NamedBy(call.group));
  }
}
