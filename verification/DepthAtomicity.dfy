/** Rollback in depth: when a group that throws leaves the store as it was, byte arrays included, and when it does not. */
module DepthAtomicity {
  import opened Values
  import opened Teal
  import opened TealRun
  import opened TealFrames
  import opened TealAliasing
  import opened Ledger
  import opened LedgerTexts
  import opened SharedArrays
  import Parser

  // ---- What a store holds ----

  function Contents(s: State, x: Place): map<Bytes, Content> {
    map key | key in KvAt(s, x) :: ContentOf(s.heap, KvAt(s, x)[key])
  }

  ghost predicate SameContents(s: State, t: State) {
    forall x: Place :: Contents(t, x) == Contents(s, x)
  }

  /** A stored value is the `i`-th shared array. */
  ghost predicate RefersTo(s: State, i: nat) {
    exists x: Place, key :: key in KvAt(s, x) && KvAt(s, x)[key] == Ref(Shared(i))
  }

  // ---- The exact condition ----

  /** Whatever becomes of the shared arrays, the store's contents stay the same exactly when none of those it refers to
      changes. */
  lemma ContentsStayIff(s: State, arrays: seq<Bytes>)
    ensures SameContents(s, WithShared(s, arrays))
            <==> forall i: nat :: RefersTo(s, i) ==> ArrayAt(arrays, i) == ArrayAt(s.heap.shared, i)
  {
    var t := WithShared(s, arrays);
    forall x: Place
      ensures KvAt(t, x) == KvAt(s, x)
    {
    }
    if SameContents(s, t) {
      forall i: nat | RefersTo(s, i)
        ensures ArrayAt(arrays, i) == ArrayAt(s.heap.shared, i)
      {
        var x: Place, key :| key in KvAt(s, x) && KvAt(s, x)[key] == Ref(Shared(i));
        assert Contents(t, x)[key] == Contents(s, x)[key];
      }
    }
    if forall i: nat :: RefersTo(s, i) ==> ArrayAt(arrays, i) == ArrayAt(s.heap.shared, i) {
      forall x: Place, key | key in KvAt(s, x)
        ensures ContentOf(t.heap, KvAt(s, x)[key]) == ContentOf(s.heap, KvAt(s, x)[key])
      {
        var v := KvAt(s, x)[key];
        if v.Ref? && v.r.Shared? {
          assert RefersTo(s, v.r.i);
        }
      }
    }
  }

  /** A call leaves every array that the store it found refers to unchanged if and only if it changes no byte of a shared
      array among them. */
  lemma OldStoreStaysIff(s: State, call: Call)
    ensures SameContents(s, WithShared(s, After(s, call).heap.shared))
            <==> forall i: nat :: RefersTo(s, i) ==> ArrayAt(After(s, call).heap.shared, i) == ArrayAt(s.heap.shared, i)
  {
    hide After, SameContents, RefersTo;
    ContentsStayIff(s, After(s, call).heap.shared);
  }

  /** A group that throws rolls back accounts, indices, values and the store's own arrays; what the store holds is then the
      same if and only if no shared array it refers to has changed. */
  lemma ThrowRollsBackIff(s: State, call: Call)
    requires ExecuteTx(s, call.group, call.chain).Err?
    ensures var t := After(s, call);
            && t == WithShared(s, t.heap.shared)
            && (SameContents(s, t) <==> forall i: nat :: RefersTo(s, i) ==> ArrayAt(t.heap.shared, i) == ArrayAt(s.heap.shared, i))
  {
    hide ExecuteTx, LeftShared, SameContents, RefersTo;
    ContentsStayIff(s, After(s, call).heap.shared);
  }

  // ---- Conditions that can be checked before the call ----

  /** The program has no `setbit` and no `setbyte`. */
  predicate Quiet(p: Program) {
    forall k :: 0 <= k < |p| ==> !WritesArrays(p[k].op)
  }

  /** However it is parsed, the text is a quiet program. */
  ghost predicate QuietText(text: string, env: Env) {
    forall mode, nargs: nat ::
      Parser.Parse(text, mode, nargs, env).Ok? ==> Quiet(Parser.Parse(text, mode, nargs, env).value.instrs)
  }

  /** The test for being quiet, put to new programs and to those of the named applications. */
  ghost function QuietTest(env: Env, named: set<nat>): Test {
    (id: nat, text: string) => id == 0 || id in named ==> QuietText(text, env)
  }

  /** The programs of the applications that the group names, and those that it brings, are quiet. */
  ghost predicate QuietGroup(s: State, g: Group, env: Env) {
    && Texts(s, QuietTest(env, NamedBy(g)))
    && forall k :: 0 <= k < |g| ==> ParamTexts(g[k], QuietTest(env, NamedBy(g)))
  }

  ghost function Fixed(arrays: seq<Bytes>): ArraysInv {
    (x: seq<Bytes>) => x == arrays
  }

  lemma QuietKeepsArrays(p: Program, arrays: seq<Bytes>)
    requires Quiet(p)
    ensures ProgramKeeps(p, Fixed(arrays))
  {
    hide Step;
    forall k | 0 <= k < |p|
      ensures OpKeeps(p[k].op, Fixed(arrays))
    {
      forall m: Machine, c: TealCtx
        ensures StateAfter(Step(p[k].op, m, c)).heap.shared == m.st.heap.shared
      {
        StepKeepsShared(p[k].op, m, c);
      }
    }
  }

  lemma QuietPasses(text: string, env: Env, arrays: seq<Bytes>)
    requires QuietText(text, env)
    ensures TextKeeps(text, env, Fixed(arrays))
  {
    hide ProgramKeeps, Quiet, Parser.Parse;
    forall mode, nargs: nat | Parser.Parse(text, mode, nargs, env).Ok?
      ensures ProgramKeeps(Parser.Parse(text, mode, nargs, env).value.instrs, Fixed(arrays))
    {
      QuietKeepsArrays(Parser.Parse(text, mode, nargs, env).value.instrs, arrays);
    }
  }

  lemma QuietPassesTest(id: nat, text: string, env: Env, arrays: seq<Bytes>, named: set<nat>)
    requires QuietTest(env, named)(id, text)
    ensures Keeper(env, Fixed(arrays), named)(id, text)
  {
    hide QuietText, TextKeeps;
    if id == 0 || id in named {
      QuietPasses(text, env, arrays);
    }
  }

  /** If no program that the group can run has a `setbit` or `setbyte`, a group that throws leaves the store exactly as it
      was. */
  lemma QuietThrowRollsBack(s: State, call: Call)
    requires ExecuteTx(s, call.group, call.chain).Err? && QuietGroup(s, call.group, call.chain.env)
    ensures After(s, call) == s
  {
    hide ExecuteTx, LeftShared, QuietTest, Keeper, Names, NamedBy, Texts, ParamTexts;
    var env, arrays, named := call.chain.env, s.heap.shared, NamedBy(call.group);
    forall id, text | QuietTest(env, named)(id, text)
      ensures Keeper(env, Fixed(arrays), named)(id, text)
    {
      QuietPassesTest(id, text, env, arrays, named);
    }
    WeakerTexts(s, QuietTest(env, named), Keeper(env, Fixed(arrays), named));
    forall k | 0 <= k < |call.group|
      ensures ParamKeeps(call.group[k], env, Fixed(arrays), named)
    {
      NamesThem(call.group, k);
      WeakerParamTexts(call.group[k], QuietTest(env, named), Keeper(env, Fixed(arrays), named));
    }
    CallKeepsArrays(s, call, Fixed(arrays), named);
    assert WithShared(s, arrays) == s;
  }

  /** If the store refers to no shared array, a group that throws leaves everything it holds, whatever programs run. */
  lemma DetachedThrowRollsBack(s: State, call: Call)
    requires ExecuteTx(s, call.group, call.chain).Err? && !RefersOutside(s)
    ensures SameContents(s, After(s, call))
  {
    hide ExecuteTx, LeftShared, SameContents;
    var t := After(s, call);
    CallKeepsLengths(s, call);
    forall i: nat | RefersTo(s, i)
      ensures ArrayAt(t.heap.shared, i) == ArrayAt(s.heap.shared, i)
    {
      OnlyBeyond(s, i);
    }
    ThrowRollsBackIff(s, call);
  }

  /** A store that refers to no shared array can hold a reference only to a place where there is none. */
  lemma OnlyBeyond(s: State, i: nat)
    requires !RefersOutside(s) && RefersTo(s, i)
    ensures i >= |s.heap.shared|
  {
    var x: Place, key :| key in KvAt(s, x) && KvAt(s, x)[key] == Ref(Shared(i));
    assert !AccountRefersOutside(s.accounts[x.a], |s.heap.shared|) && !KvRefersOutside(KvAt(s, x), |s.heap.shared|);
  }

  // ---- A group that throws and changes the store ----

  /** The program consists of these operators. */
  predicate HasOps(p: Program, ops: seq<Op>) {
    |p| == |ops| && forall k :: 0 <= k < |p| ==> p[k].op == ops[k]
  }

  /** `byte key; global ZeroAddress; app_global_put; int 1` */
  function StoreZeroAddress(key: Bytes): seq<Op> {
    [Value(Const(PushBytes(key))), Read(Global(ZeroAddress)), AppGlobalPut, Value(Const(PushInt(1)))]
  }

  /** `global ZeroAddress; int 0; int v; setbyte; err` */
  function SpoilZeroAddress(v: byte): seq<Op> {
    [Read(Global(ZeroAddress)), Value(Const(PushInt(0))), Value(Const(PushInt(v))), Value(OnBits(SetByte)), ErrOp]
  }

  lemma ZeroAddressStep(m: Machine, c: TealCtx)
    requires |m.stack| < STACK_CAPACITY
    ensures Step(Read(Global(ZeroAddress)), m, c) == Cont(m.(stack := m.stack + [Ref(ZERO_ADDRESS)]))
  {
  }

  lemma PushBytesStep(m: Machine, b: Bytes, c: TealCtx)
    requires |m.stack| < STACK_CAPACITY
    ensures Step(Value(Const(PushBytes(b))), m, c)
            == Cont(m.(stack := m.stack + [Ref(Own(|m.st.heap.own|))], st := m.st.(heap := Alloc(m.st.heap, [b]))))
  {
  }

  /** The state with a value put into the global state of the current application. */
  function WithPair(s: State, tx: Txn, key: Bytes, v: StackElem): State
    requires AppOwner(s, AppIdOf(tx)).Ok?
  {
    var owner := AppOwner(s, AppIdOf(tx)).value;
    var acc := s.accounts[owner];
    SetAccount(s, owner, WithGlobals(acc, AppIdOf(tx), acc.createdApps[AppIdOf(tx)].globals[key := v]))
  }

  predicate HasRoom(s: State, tx: Txn, key: Bytes, v: StackElem) {
    && AppOwner(s, AppIdOf(tx)).Ok?
    && var app := s.accounts[AppOwner(s, AppIdOf(tx)).value].createdApps[AppIdOf(tx)];
       ValidSchema(app.globals[key := v], app.globalSchema)
  }

  lemma GlobalPutStep(m: Machine, c: TealCtx, r: Loc, v: StackElem)
    requires m.stack == [Ref(r), v] && HasRoom(m.st, c.tx, Deref(m.st.heap, r), v)
    ensures Step(AppGlobalPut, m, c) == Cont(m.(stack := [], st := WithPair(m.st, c.tx, Deref(m.st.heap, r), v)))
  {
  }

  lemma StoreZeroAddressRuns(p: Program, m: Machine, c: TealCtx, key: Bytes)
    requires HasOps(p, StoreZeroAddress(key)) && m.stack == [] && HasRoom(m.st, c.tx, key, Ref(ZERO_ADDRESS))
    ensures var st := WithPair(m.st, c.tx, key, Ref(ZERO_ADDRESS)).(heap := Alloc(m.st.heap, [key]));
            RunFrom(p, 0, m, StepperOf(c)) == Done(m.(stack := [Int(1)], st := st))
  {
    hide Step, RunFrom, ValidSchema;
    var f, r := StepperOf(c), Own(|m.st.heap.own|);
    var m1 := m.(stack := [Ref(r)], st := m.st.(heap := Alloc(m.st.heap, [key])));
    var m2 := m1.(stack := [Ref(r), Ref(ZERO_ADDRESS)]);
    var m3 := m2.(stack := [], st := WithPair(m1.st, c.tx, key, Ref(ZERO_ADDRESS)));
    var m4 := m3.(stack := [Int(1)]);
    PushBytesStep(m, key, c);
    RunCont(p, 0, m, m1, f);
    ZeroAddressStep(m1, c);
    assert [Ref(r)] + [Ref(ZERO_ADDRESS)] == [Ref(r), Ref(ZERO_ADDRESS)];
    RunCont(p, 1, m1, m2, f);
    assert Deref(m2.st.heap, r) == key;
    GlobalPutStep(m2, c, r, Ref(ZERO_ADDRESS));
    RunCont(p, 2, m2, m3, f);
    PushIntStep(m3, 1, c);
    RunCont(p, 3, m3, m4, f);
    RunEnd(p, m4, f);
  }

  lemma SpoilZeroAddressFails(p: Program, m: Machine, c: TealCtx, v: byte)
    requires HasOps(p, SpoilZeroAddress(v)) && m.stack == [] && |Deref(m.st.heap, ZERO_ADDRESS)| > 0
    ensures RunFrom(p, 0, m, StepperOf(c)) == Failed(EncounteredErr, m.st.(heap := HeapWithByte(m.st.heap, ZERO_ADDRESS, 0, v)))
  {
    hide Step, RunFrom, HeapWithByte;
    var f := StepperOf(c);
    var m1 := m.(stack := m.stack + [Ref(ZERO_ADDRESS)]);
    var m2 := m.(stack := m.stack + [Ref(ZERO_ADDRESS)] + [Int(0)]);
    var m3 := m.(stack := m.stack + [Ref(ZERO_ADDRESS)] + [Int(0)] + [Int(v)]);
    var m4 := m1.(st := m.st.(heap := HeapWithByte(m.st.heap, ZERO_ADDRESS, 0, v)));
    ZeroAddressStep(m, c);
    RunCont(p, 0, m, m1, f);
    PushIntStep(m1, 0, c);
    RunCont(p, 1, m1, m2, f);
    PushIntStep(m2, v, c);
    RunCont(p, 2, m2, m3, f);
    SetByteStep(m, ZERO_ADDRESS, 0, v, c);
    RunCont(p, 3, m3, m4, f);
    ErrEnds(p, 4, m4, c);
  }

  lemma ErrEnds(p: Program, pc: nat, m: Machine, c: TealCtx)
    requires pc < |p| && p[pc].op == ErrOp
    ensures RunFrom(p, pc, m, StepperOf(c)) == Failed(EncounteredErr, m.st)
  {
  }

  /** The table has one zero address: after `global ZeroAddress` twice, a write through one reference shows in the other, so
      the two still compare equal. */
  lemma ZeroAddressIsOneArray(p: Program, m: Machine, c: TealCtx, v: byte)
    requires HasOps(p, [Read(Global(ZeroAddress))] + SpoilZeroAddress(v)[..4] + [Value(OnInts(Equal(false)))])
    requires m.stack == [] && |Deref(m.st.heap, ZERO_ADDRESS)| > 0
    ensures RunFrom(p, 0, m, StepperOf(c))
            == Done(m.(stack := [Int(1)], st := m.st.(heap := HeapWithByte(m.st.heap, ZERO_ADDRESS, 0, v))))
  {
    hide Step, RunFrom, HeapWithByte;
    var f, z := StepperOf(c), Ref(ZERO_ADDRESS);
    var m1 := m.(stack := [z]);
    var m2 := m1.(stack := m1.stack + [z]);
    var m3 := m1.(stack := m1.stack + [z] + [Int(0)]);
    var m4 := m1.(stack := m1.stack + [z] + [Int(0)] + [Int(v)]);
    var m5 := m1.(stack := m1.stack + [z], st := m.st.(heap := HeapWithByte(m.st.heap, ZERO_ADDRESS, 0, v)));
    ZeroAddressStep(m, c);
    assert m.stack + [z] == [z];
    RunCont(p, 0, m, m1, f);
    ZeroAddressStep(m1, c);
    RunCont(p, 1, m1, m2, f);
    PushIntStep(m2, 0, c);
    RunCont(p, 2, m2, m3, f);
    PushIntStep(m3, v, c);
    RunCont(p, 3, m3, m4, f);
    SetByteStep(m1, ZERO_ADDRESS, 0, v, c);
    RunCont(p, 4, m4, m5, f);
    EqualStep(m5, ZERO_ADDRESS, c);
    RunCont(p, 5, m5, m5.(stack := [Int(1)]), f);
    RunEnd(p, m5.(stack := [Int(1)]), f);
  }

  lemma EqualStep(m: Machine, r: Loc, c: TealCtx)
    requires m.stack == [Ref(r)] + [Ref(r)]
    ensures Step(Value(OnInts(Equal(false))), m, c) == Cont(m.(stack := [Int(1)]))
  {
  }

  /** A signed call that pays its fee and reaches the program of an application that exists. */
  predicate ReachesProgram(s: State, p: Param, chain: Chain) {
    && CheckGroup([p], chain).Ok? && p.sign.SecretKey? && p.kind.CallNoOp? && AppIdOf(p.txn) == p.kind.appID
    && DeductFee(Opened(s), p.sender, p.txn.fee).Ok? && GetApp(Paid(s, p), p.kind.appID).Ok?
  }

  /** The copy after the fee. */
  function Paid(s: State, p: Param): State
    requires DeductFee(Opened(s), p.sender, p.txn.fee).Ok?
  {
    DeductFee(Opened(s), p.sender, p.txn.fee).value
  }

  /** The call reaches a program that parses to these operators. */
  predicate Calls(s: State, p: Param, chain: Chain, ops: seq<Op>) {
    && ReachesProgram(s, p, chain)
    && var parsed := Parser.Parse(GetApp(Paid(s, p), p.kind.appID).value.approval, Parser.Application, 0, chain.env);
       parsed.Ok? && HasOps(parsed.value.instrs, ops)
  }

  function CallRun(s: State, p: Param, chain: Chain): Verdict
    requires ReachesProgram(s, p, chain)
  {
    RunTeal(Paid(s, p), GetApp(Paid(s, p), p.kind.appID).value.approval, Parser.Application, p, [p.txn], chain)
  }

  lemma CallAlone(s: State, p: Param, chain: Chain)
    requires ReachesProgram(s, p, chain)
    ensures var v, t := CallRun(s, p, chain), After(s, Call([p], chain));
            && (ExecuteTx(s, [p], chain).Ok? <==> v.error.None?)
            && t == if v.error.None? then WithArgs(v.st, []) else WithShared(s, v.st.heap.shared)
  {
    hide RunTeal, Opened, DeductFee, CheckGroup;
    var gtxs, s0 := Txns([p]), Opened(s);
    assert gtxs == [p.txn];
    assert Prepare(s0, p, gtxs, chain) == Ok(Paid(s, p));
    var r := Transact(s0, p, gtxs, chain);
    assert r == CallApp(Paid(s, p), p, p.kind.appID, gtxs, chain);
    if r.Ok? {
      assert Process(r.value, [p], 1, gtxs, chain) == r;
    }
    assert Process(s0, [p], 0, gtxs, chain) == r;
    assert ProcessShared(s0, [p], 0, gtxs, chain)
        == if r.Ok? then r.value.heap.shared else TransactShared(s0, p, gtxs, chain);
  }

  lemma PaidHasNoArgs(s: State, p: Param)
    requires DeductFee(Opened(s), p.sender, p.txn.fee).Ok?
    ensures Paid(s, p).args == [] && Paid(s, p).heap.shared == s.heap.shared
  {
  }

  /** What the first group leaves: the zero address of the table is a stored value. */
  lemma StoreCommits(s: State, p: Param, chain: Chain, key: Bytes)
    requires Calls(s, p, chain, StoreZeroAddress(key)) && HasRoom(Paid(s, p), p.txn, key, Ref(ZERO_ADDRESS))
    ensures var t := After(s, Call([p], chain));
            && ExecuteTx(s, [p], chain) == Ok(t) && t.heap.shared == s.heap.shared
            && var x := Globals(AppOwner(Paid(s, p), p.kind.appID).value, p.kind.appID);
               key in KvAt(t, x) && KvAt(t, x)[key] == Ref(ZERO_ADDRESS)
  {
    hide ExecuteTx, RunFrom, ValidSchema, DeductFee, Opened, CheckGroup, Parser.Parse, StoreZeroAddress;
    var s1 := Paid(s, p);
    PaidHasNoArgs(s, p);
    var parsed := Parser.Parse(GetApp(s1, p.kind.appID).value.approval, Parser.Application, 0, chain.env).value;
    var c := TealCtx(p.txn, [p.txn], chain.round, chain.timestamp, chain.env);
    StoreZeroAddressRuns(parsed.instrs, InitMachine(s1), c, key);
    CallAlone(s, p, chain);
  }

  /** What the second group leaves: it throws, and the shared array has changed. */
  lemma SpoilThrows(s: State, p: Param, chain: Chain, v: byte)
    requires Calls(s, p, chain, SpoilZeroAddress(v)) && |Deref(s.heap, ZERO_ADDRESS)| > 0
    ensures var t := After(s, Call([p], chain));
            && ExecuteTx(s, [p], chain).Err?
            && t == WithShared(s, HeapWithByte(s.heap, ZERO_ADDRESS, 0, v).shared)
  {
    hide ExecuteTx, RunFrom, DeductFee, Opened, CheckGroup, Parser.Parse, SpoilZeroAddress;
    var s1 := Paid(s, p);
    PaidHasNoArgs(s, p);
    var parsed := Parser.Parse(GetApp(s1, p.kind.appID).value.approval, Parser.Application, 0, chain.env).value;
    var c := TealCtx(p.txn, [p.txn], chain.round, chain.timestamp, chain.env);
    SpoilZeroAddressFails(parsed.instrs, InitMachine(s1), c, v);
    CallAlone(s, p, chain);
  }

  /** One group commits the table's zero address as a value. The next one writes a byte into it and throws: every account
      is rolled back, and still the committed value has changed. */
  lemma ThrowChangesStore(s: State, first: Param, second: Param, chain: Chain, key: Bytes, v: byte)
    requires Calls(s, first, chain, StoreZeroAddress(key)) && HasRoom(Paid(s, first), first.txn, key, Ref(ZERO_ADDRESS))
    requires Calls(After(s, Call([first], chain)), second, chain, SpoilZeroAddress(v))
    requires var zero := Deref(s.heap, ZERO_ADDRESS); |zero| > 0 && zero[0] != v
    ensures var t1 := After(s, Call([first], chain));
            var t2 := After(t1, Call([second], chain));
            var x := Globals(AppOwner(Paid(s, first), first.kind.appID).value, first.kind.appID);
            && ExecuteTx(s, [first], chain).Ok? && ExecuteTx(t1, [second], chain).Err? && t2.accounts == t1.accounts
            && key in Contents(t1, x) && Contents(t1, x)[key] == Array(Deref(s.heap, ZERO_ADDRESS))
            && key in Contents(t2, x) && Contents(t2, x)[key] == Array(Deref(s.heap, ZERO_ADDRESS)[0 := v])
            && !SameContents(t1, t2)
  {
    hide After, ExecuteTx, Opened, DeductFee, CheckGroup, Parser.Parse;
    StoreCommits(s, first, chain, key);
    var t1 := After(s, Call([first], chain));
    SpoilThrows(t1, second, chain, v);
    var t2 := After(t1, Call([second], chain));
    var x := Globals(AppOwner(Paid(s, first), first.kind.appID).value, first.kind.appID);
    HeapWithByteAt(t1.heap, ZERO_ADDRESS, 0, v);
    assert KvAt(t2, x) == KvAt(t1, x);
    assert Contents(t1, x)[key] != Contents(t2, x)[key];
  }
}
