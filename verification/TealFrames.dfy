/** What a TEAL run cannot touch: it changes byte arrays and key-value maps of existing applications, nothing else. */
module TealFrames {
  import opened Values
  import opened Teal
  import opened TealRun

  predicate SameApp(x: App, y: App) {
    y == x.(globals := y.globals)
  }

  predicate SameLocal(x: LocalState, y: LocalState) {
    y.schema == x.schema
  }

  predicate SameApps(x: map<nat, App>, y: map<nat, App>) {
    x.Keys == y.Keys && forall id :: id in x ==> SameApp(x[id], y[id])
  }

  predicate SameLocals(x: map<nat, LocalState>, y: map<nat, LocalState>) {
    x.Keys == y.Keys && forall id :: id in x ==> SameLocal(x[id], y[id])
  }

  /** Equal except for the contents of key-value maps. */
  predicate SameAccount(x: Account, y: Account) {
    && y == x.(createdApps := y.createdApps, appsLocalState := y.appsLocalState)
    && SameApps(x.createdApps, y.createdApps)
    && SameLocals(x.appsLocalState, y.appsLocalState)
  }

  predicate TealFrame(s: State, t: State) {
    && t == s.(accounts := t.accounts, heap := t.heap)
    && s.accounts.Keys == t.accounts.Keys
    && forall a :: a in s.accounts ==> SameAccount(s.accounts[a], t.accounts[a])
  }

  lemma FrameTransitive(s: State, t: State, u: State)
    requires TealFrame(s, t) && TealFrame(t, u)
    ensures TealFrame(s, u)
  {
    forall a | a in s.accounts
      ensures SameAccount(s.accounts[a], u.accounts[a])
    {
      var x, y, z := s.accounts[a], t.accounts[a], u.accounts[a];
      assert SameAccount(x, y) && SameAccount(y, z);
      forall id | id in x.createdApps
        ensures SameApp(x.createdApps[id], z.createdApps[id])
      {
        assert SameApp(x.createdApps[id], y.createdApps[id]) && SameApp(y.createdApps[id], z.createdApps[id]);
      }
      forall id | id in x.appsLocalState
        ensures SameLocal(x.appsLocalState[id], z.appsLocalState[id])
      {
        assert SameLocal(x.appsLocalState[id], y.appsLocalState[id]) && SameLocal(y.appsLocalState[id], z.appsLocalState[id]);
      }
    }
  }

  predicate OnlyHeap(s: State, t: State) {
    t == s.(heap := t.heap)
  }

  predicate OnlyHeapResult(s: State, r: Result<Machine>) {
    r.Ok? ==> OnlyHeap(s, r.value.st)
  }

  lemma ArithOnlyHeap(op: ArithOp, m: Machine)
    ensures OnlyHeapResult(m.st, StepArith(op, m))
  {
  }

  lemma BytesOnlyHeap(op: BytesOp, m: Machine, env: Env)
    ensures OnlyHeapResult(m.st, StepBytes(op, m, env))
  {
  }

  lemma BitsOnlyHeap(op: BitsOp, m: Machine)
    ensures OnlyHeapResult(m.st, StepBits(op, m))
  {
  }

  lemma StackOnlyHeap(op: StackOp, m: Machine)
    ensures OnlyHeapResult(m.st, StepStack(op, m))
  {
  }

  lemma ConstOnlyHeap(op: ConstOp, m: Machine)
    ensures OnlyHeapResult(m.st, StepConst(op, m))
  {
  }

  lemma TxnOnlyHeap(op: TxnOp, m: Machine, c: TealCtx)
    ensures OnlyHeapResult(m.st, StepTxn(op, m, c))
  {
  }

  lemma AppReadOnlyHeap(op: AppReadOp, m: Machine, c: TealCtx)
    ensures OnlyHeapResult(m.st, StepAppRead(op, m, c))
  {
  }

  function StateAfter(e: Exec): State {
    match e
    case Cont(m) => m.st
    case Jump(_, m) => m.st
    case Halt(m) => m.st
    case Fail(_, st) => st
  }

  lemma WithLocalFrame(st: State, a: Address, id: nat, kv: StateMap)
    requires a in st.accounts && id in st.accounts[a].appsLocalState
    ensures TealFrame(st, SetAccount(st, a, WithLocal(st.accounts[a], id, kv)))
  {
  }

  lemma WithGlobalsFrame(st: State, a: Address, id: nat, globals: StateMap)
    requires a in st.accounts && id in st.accounts[a].createdApps
    ensures TealFrame(st, SetAccount(st, a, WithGlobals(st.accounts[a], id, globals)))
  {
  }

  lemma LocalPutFrame(m: Machine, c: TealCtx)
    ensures TealFrame(m.st, StateAfter(StepLocalPut(m, c)))
  {
    hide TealFrame, ValidSchema;
    OnlyHeapFrame(m.st, m.st);
    if |m.stack| >= 3 && Peek(m, 1).Ref? && Peek(m, 2).Int? && AccountAt(m.st, c, Peek(m, 2).n).Ok? {
      var a, id := AccountAt(m.st, c, Peek(m, 2).n).value, AppIdOf(c.tx);
      var acc := m.st.accounts[a];
      if id in acc.appsLocalState {
        WithLocalFrame(m.st, a, id, acc.appsLocalState[id].kv[Deref(m.st.heap, Peek(m, 1).r) := Peek(m, 0)]);
      }
    }
  }

  lemma GlobalPutFrame(m: Machine, c: TealCtx)
    ensures TealFrame(m.st, StateAfter(StepGlobalPut(m, c)))
  {
    hide TealFrame, ValidSchema;
    OnlyHeapFrame(m.st, m.st);
    if |m.stack| >= 2 && Peek(m, 1).Ref? && AppOwner(m.st, AppIdOf(c.tx)).Ok? {
      var a, id := AppOwner(m.st, AppIdOf(c.tx)).value, AppIdOf(c.tx);
      WithGlobalsFrame(m.st, a, id, m.st.accounts[a].createdApps[id].globals[Deref(m.st.heap, Peek(m, 1).r) := Peek(m, 0)]);
    }
  }

  predicate FrameResult(s: State, r: Result<Machine>) {
    r.Ok? ==> TealFrame(s, r.value.st)
  }

  lemma LocalDelFrame(m: Machine, c: TealCtx)
    ensures FrameResult(m.st, StepLocalDel(m, c))
  {
  }

  lemma GlobalDelFrame(m: Machine, c: TealCtx)
    ensures FrameResult(m.st, StepGlobalDel(m, c))
  {
  }

  lemma AssetParamsOnlyHeap(f: ParamField, m: Machine, c: TealCtx)
    ensures OnlyHeap(m.st, StateAfter(StepAssetParams(f, m, c)))
  {
    hide FindAssetDef, ParamValue;
  }

  lemma GlobalOnlyHeap(g: GlobalField, m: Machine, c: TealCtx)
    ensures OnlyHeapResult(m.st, StepGlobal(g, m, c))
  {
  }

  lemma BranchKeepsState(op: BranchOp, m: Machine)
    ensures StateAfter(StepBranch(op, m)) == m.st
  {
  }

  predicate WritesState(op: Op) {
    op.AppLocalPut? || op.AppGlobalPut? || op.AppLocalDel? || op.AppGlobalDel?
  }

  lemma ValueOnlyHeap(op: ValueOp, m: Machine, env: Env)
    ensures OnlyHeapResult(m.st, StepValue(op, m, env))
  {
    match op
    case OnInts(o) => ArithOnlyHeap(o, m);
    case OnBytes(o) => BytesOnlyHeap(o, m, env);
    case OnBits(o) => BitsOnlyHeap(o, m);
    case OnStack(o) => StackOnlyHeap(o, m);
    case Const(o) => ConstOnlyHeap(o, m);
  }

  lemma ReadOnlyHeap(op: ReadOp, m: Machine, c: TealCtx)
    ensures OnlyHeapResult(m.st, StepRead(op, m, c))
  {
    match op
    case ReadTxn(o) => TxnOnlyHeap(o, m, c);
    case ReadApp(o) => AppReadOnlyHeap(o, m, c);
    case Global(g) => GlobalOnlyHeap(g, m, c);
  }

  /** Only four operators write application state; the others change byte arrays at most. */
  lemma StepOnlyHeap(op: Op, m: Machine, c: TealCtx)
    requires !WritesState(op)
    ensures OnlyHeap(m.st, StateAfter(Step(op, m, c)))
  {
    match op
    case Value(o) => ValueOnlyHeap(o, m, c.env);
    case Read(o) => ReadOnlyHeap(o, m, c);
    case Control(o) => BranchKeepsState(o, m);
    case AssetParamsGet(f) => AssetParamsOnlyHeap(f, m, c);
    case _ =>
  }

  lemma OnlyHeapFrame(s: State, t: State)
    requires OnlyHeap(s, t)
    ensures TealFrame(s, t)
  {
  }

  /** One operator, whether it goes on, stops or fails, respects the frame. */
  lemma StepFrame(op: Op, m: Machine, c: TealCtx)
    ensures TealFrame(m.st, StateAfter(Step(op, m, c)))
  {
    OnlyHeapFrame(m.st, m.st);
    match op
    case AppLocalPut => LocalPutFrame(m, c);
    case AppGlobalPut => GlobalPutFrame(m, c);
    case AppLocalDel => LocalDelFrame(m, c);
    case AppGlobalDel => GlobalDelFrame(m, c);
    case _ =>
      StepOnlyHeap(op, m, c);
      OnlyHeapFrame(m.st, StateAfter(Step(op, m, c)));
  }

  /** A whole run respects the frame, even a failing one. */
  lemma RunFrame(p: Program, m: Machine, c: TealCtx)
    ensures TealFrame(m.st, StateOf(RunFrom(p, 0, m, StepperOf(c))))
  {
    var inv, final := (x: Machine) => TealFrame(m.st, x.st), (st: State) => TealFrame(m.st, st);
    var f := StepperOf(c);
    forall k, m1 | 0 <= k < |p| && inv(m1)
      ensures StepKeeps(f(p[k].op, m1), inv, final)
    {
      StepFrame(p[k].op, m1, c);
      FrameTransitive(m.st, m1.st, StateAfter(f(p[k].op, m1)));
    }
    RunInvariant(p, 0, m, f, inv, final);
  }
}
