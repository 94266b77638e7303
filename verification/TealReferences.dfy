/** References that programs hold: they point to arrays that exist, and to shared arrays only if the program asks for one. */
module TealReferences {
  import opened Values
  import opened Bits
  import opened Teal
  import opened TealRun
  import opened TealFrames

  /** A reference to one of the first `n` own arrays or of the first `k` shared ones; with no shared ones the element is
      closed. */
  predicate ElemHeld(e: StackElem, n: nat, k: nat) {
    e.Ref? ==> match e.r case Own(i) => i < n case Shared(i) => i < k
  }

  predicate ElemsHeld(s: seq<StackElem>, n: nat, k: nat) {
    forall i :: 0 <= i < |s| ==> ElemHeld(s[i], n, k)
  }

  predicate KvHeld(kv: StateMap, n: nat, k: nat) {
    forall key :: key in kv ==> ElemHeld(kv[key], n, k)
  }

  predicate AccountHeld(acc: Account, n: nat, k: nat) {
    && (forall id :: id in acc.createdApps ==> KvHeld(acc.createdApps[id].globals, n, k))
    && (forall id :: id in acc.appsLocalState ==> KvHeld(acc.appsLocalState[id].kv, n, k))
  }

  /** Every stored reference is one of those, and so are the signature arguments of a state that is not closed. */
  predicate StateHeld(st: State, k: nat) {
    && (forall a :: a in st.accounts ==> AccountHeld(st.accounts[a], |st.heap.own|, k))
    && (k > 0 ==> forall i :: 0 <= i < |st.args| ==> st.args[i] < k)
  }

  predicate MachineHeld(m: Machine, k: nat) {
    var n := |m.st.heap.own|;
    && ElemsHeld(m.stack, n, k) && ElemsHeld(m.scratch, n, k)
    && (forall i :: 0 <= i < |m.bytecblock| ==> m.bytecblock[i] < n)
    && StateHeld(m.st, k)
  }

  predicate ResultHeld(r: Result<Machine>, k: nat) {
    r.Ok? ==> MachineHeld(r.value, k)
  }

  // ---- Building blocks ----

  lemma DropHeld(m: Machine, d: nat, k: nat)
    requires MachineHeld(m, k) && d <= |m.stack|
    ensures MachineHeld(Drop(m, d), k)
  {
  }

  lemma PushHeld(m: Machine, e: StackElem, k: nat)
    requires MachineHeld(m, k) && ElemHeld(e, |m.st.heap.own|, k)
    ensures ResultHeld(Push(m, e), k)
  {
  }

  lemma PairHeld(m: Machine, e: StackElem, f: StackElem, k: nat)
    requires MachineHeld(m, k) && ElemHeld(e, |m.st.heap.own|, k) && ElemHeld(f, |m.st.heap.own|, k)
    ensures ResultHeld(PushPair(m, e, f), k)
  {
    hide MachineHeld;
    PushHeld(m, e, k);
    if Push(m, e).Ok? {
      PushHeld(Push(m, e).value, f, k);
    }
  }

  lemma IntHeld(m: Machine, d: nat, n: int, k: nat)
    requires MachineHeld(m, k) && d <= |m.stack|
    ensures ResultHeld(Push(Drop(m, d), Int(n)), k)
  {
    hide MachineHeld;
    DropHeld(m, d, k);
    PushHeld(Drop(m, d), Int(n), k);
  }

  lemma PeekHeld(m: Machine, i: nat, k: nat)
    requires MachineHeld(m, k) && i < |m.stack|
    ensures ElemHeld(Peek(m, i), |m.st.heap.own|, k)
  {
  }

  /** More arrays, and different contents, leave every reference good. */
  lemma MoreArrays(m: Machine, heap: Heap, k: nat)
    requires MachineHeld(m, k) && |heap.own| >= |m.st.heap.own|
    ensures MachineHeld(m.(st := m.st.(heap := heap)), k)
  {
    var n, more := |m.st.heap.own|, |heap.own|;
    forall a | a in m.st.accounts
      ensures AccountHeld(m.st.accounts[a], more, k)
    {
      assert AccountHeld(m.st.accounts[a], n, k);
    }
  }

  lemma DataHeld(m: Machine, d: nat, b: Bytes, k: nat)
    requires MachineHeld(m, k) && d <= |m.stack|
    ensures ResultHeld(PushData(Drop(m, d), b), k)
  {
    hide MachineHeld;
    DropHeld(m, d, k);
    var more := Drop(m, d).(st := m.st.(heap := Alloc(m.st.heap, [b])));
    MoreArrays(Drop(m, d), Alloc(m.st.heap, [b]), k);
    PushHeld(more, Ref(Own(|m.st.heap.own|)), k);
  }

  lemma FieldHeld(m: Machine, d: nat, v: FieldValue, k: nat)
    requires MachineHeld(m, k) && d <= |m.stack| && (v == ZeroAddressOfTable ==> k > 0)
    ensures ResultHeld(PushField(Drop(m, d), v), k)
  {
    hide MachineHeld;
    match v
    case Number(n) => IntHeld(m, d, n, k);
    case Data(b) => DataHeld(m, d, b, k);
    case ZeroAddressOfTable =>
      DropHeld(m, d, k);
      PushHeld(Drop(m, d), Ref(ZERO_ADDRESS), k);
  }

  lemma WriteHeld(m: Machine, r: Loc, b: Bytes, k: nat)
    requires MachineHeld(m, k) && |m.stack| >= 3 && Peek(m, 2) == Ref(r)
    ensures ResultHeld(Push(WriteArray(Drop(m, 3), r, b), Ref(r)), k)
  {
    hide MachineHeld;
    PeekHeld(m, 2, k);
    DropHeld(m, 3, k);
    MoreArrays(Drop(m, 3), Write(m.st.heap, r, b), k);
    PushHeld(WriteArray(Drop(m, 3), r, b), Ref(r), k);
  }

  // ---- Operators ----

  lemma ArithHeld(op: ArithOp, m: Machine, k: nat)
    requires MachineHeld(m, k)
    ensures ResultHeld(StepArith(op, m), k)
  {
  }

  lemma BytesHeld(op: BytesOp, m: Machine, env: Env, k: nat)
    requires MachineHeld(m, k)
    ensures ResultHeld(StepBytes(op, m, env), k)
  {
    hide MachineHeld;
    if StepBytes(op, m, env).Ok? {
      match op
      case Len => IntHeld(m, 1, |AsBytes(m, Peek(m, 0)).value|, k);
      case Itob => DataHeld(m, 1, EncodeUint64(Peek(m, 0).n).value, k);
      case Btoi => IntHeld(m, 1, DecodeUint64(AsBytes(m, Peek(m, 0)).value).value, k);
      case Concat => DataHeld(m, 2, AsBytes(m, Peek(m, 1)).value + AsBytes(m, Peek(m, 0)).value, k);
      case Substring(start, end) => DataHeld(m, 1, SubString(start, end, AsBytes(m, Peek(m, 0)).value).value, k);
      case Substring3 => DataHeld(m, 3, SubString(Peek(m, 2).n, Peek(m, 1).n, AsBytes(m, Peek(m, 0)).value).value, k);
      case Hash(h) => DataHeld(m, 1, env.hash(h, AsBytes(m, Peek(m, 0)).value), k);
      case Ed25519verify =>
        IntHeld(m, 3, 0, k);
        IntHeld(m, 3, 1, k);
    }
  }

  lemma BitsHeld(op: BitsOp, m: Machine, k: nat)
    requires MachineHeld(m, k)
    ensures ResultHeld(StepBits(op, m), k)
  {
    hide MachineHeld;
    var r := StepBits(op, m);
    if r.Ok? {
      match op
      case SetBit =>
        match Peek(m, 2) {
          case Int(x) => IntHeld(m, 3, r.value.stack[|m.stack| - 3].n, k);
          case Ref(at) => WriteHeld(m, at, SetBitBytes(Deref(m.st.heap, at), Peek(m, 1).n, Peek(m, 0).n).value, k);
        }
      case GetBit => IntHeld(m, 2, r.value.stack[|m.stack| - 2].n, k);
      case SetByte =>
        var at, index := Peek(m, 2).r, Peek(m, 1).n;
        var target := Deref(m.st.heap, at);
        WriteHeld(m, at, if index < 0 then target else target[index := Peek(m, 0).n], k);
      case GetByte => IntHeld(m, 2, r.value.stack[|m.stack| - 2].n, k);
    }
  }

  lemma StackHeld(op: StackOp, m: Machine, k: nat)
    requires MachineHeld(m, k)
    ensures ResultHeld(StepStack(op, m), k)
  {
  }

  /** The operator pushes no shared array. */
  predicate OpClosed(op: Op, env: Env) {
    match op
    case Value(Const(Arg(_))) => false
    case Read(Global(g)) => g != ZeroAddress
    case Read(ReadTxn(o)) => env.fieldDefault(FieldName(o)) != ZeroAddressOfTable
    case _ => true
  }

  function FieldName(op: TxnOp): string {
    op.field
  }

  lemma ConstHeld(op: ConstOp, m: Machine, k: nat)
    requires MachineHeld(m, k) && (k == 0 ==> !op.Arg?)
    ensures ResultHeld(StepConst(op, m), k)
  {
    hide StateHeld;
    if StepConst(op, m).Ok? {
      match op
      case Bytecblock(blocks) => MoreArrays(m, Alloc(m.st.heap, blocks), k);
      case Arg(i) => ArgHeld(m, i, k);
      case PushBytes(b) => DataHeld(m, 0, b, k);
      case _ =>
    }
  }

  lemma ArgHeld(m: Machine, i: int, k: nat)
    requires MachineHeld(m, k) && k > 0 && InBounds(i, |m.st.args|)
    ensures ResultHeld(Push(m, Ref(Shared(m.st.args[i]))), k)
  {
    hide ElemsHeld, AccountHeld;
    PushHeld(m, Ref(Shared(m.st.args[i])), k);
  }

  /** An encoded transaction holds no array of the table; only a missing field is read from there. */
  predicate TxnOwnsData(tx: Txn) {
    && (forall f :: f in tx.fields ==> tx.fields[f] != ZeroAddressOfTable)
    && (forall f :: f in tx.arrays ==> forall i :: 0 <= i < |tx.arrays[f]| ==> tx.arrays[f][i] != ZeroAddressOfTable)
  }

  predicate CtxOwnsData(c: TealCtx) {
    TxnOwnsData(c.tx) && forall i :: 0 <= i < |c.gtxs| ==> TxnOwnsData(c.gtxs[i])
  }

  lemma FieldReadHeld(tx: Txn, f: string, env: Env, m: Machine, d: nat, k: nat)
    requires MachineHeld(m, k) && d <= |m.stack| && TxnOwnsData(tx)
    requires k == 0 ==> env.fieldDefault(f) != ZeroAddressOfTable
    ensures FieldOf(tx, f, env).Ok? ==> ResultHeld(PushField(Drop(m, d), FieldOf(tx, f, env).value), k)
  {
    hide MachineHeld;
    if FieldOf(tx, f, env).Ok? {
      FieldHeld(m, d, FieldOf(tx, f, env).value, k);
    }
  }

  lemma ItemReadHeld(tx: Txn, f: string, item: nat, env: Env, m: Machine, d: nat, k: nat)
    requires MachineHeld(m, k) && d <= |m.stack| && TxnOwnsData(tx)
    requires k == 0 ==> env.fieldDefault(f) != ZeroAddressOfTable
    ensures ArrayItem(tx, f, item, env).Ok? ==> ResultHeld(PushField(Drop(m, d), ArrayItem(tx, f, item, env).value), k)
  {
    hide MachineHeld;
    if ArrayItem(tx, f, item, env).Ok? {
      FieldHeld(m, d, ArrayItem(tx, f, item, env).value, k);
    }
  }

  lemma TxnHeld(op: TxnOp, m: Machine, c: TealCtx, k: nat)
    requires MachineHeld(m, k) && CtxOwnsData(c) && (k == 0 ==> OpClosed(Read(ReadTxn(op)), c.env))
    ensures ResultHeld(StepTxn(op, m, c), k)
  {
    hide MachineHeld, FieldOf, ArrayItem, PushField, TxnOwnsData;
    assert Drop(m, 0) == m;
    if StepTxn(op, m, c).Ok? {
      match op
      case TxnField(f) => FieldReadHeld(c.tx, f, c.env, m, 0, k);
      case TxnArray(f, item) => ItemReadHeld(c.tx, f, item, c.env, m, 0, k);
      case GtxnField(t, f) => FieldReadHeld(GroupTxn(c, t).value, f, c.env, m, 0, k);
      case GtxnArray(t, f, item) => ItemReadHeld(GroupTxn(c, t).value, f, item, c.env, m, 0, k);
      case GtxnsField(f) => FieldReadHeld(GroupTxn(c, Peek(m, 0).n).value, f, c.env, m, 1, k);
      case GtxnsArray(f, item) => ItemReadHeld(GroupTxn(c, Peek(m, 0).n).value, f, item, c.env, m, 1, k);
    }
  }

  lemma GlobalHeld(g: GlobalField, m: Machine, c: TealCtx, k: nat)
    requires MachineHeld(m, k) && (k == 0 ==> g != ZeroAddress)
    ensures ResultHeld(StepGlobal(g, m, c), k)
  {
    hide MachineHeld;
    assert Drop(m, 0) == m;
    if GlobalFieldValue(g, m.st, c).Ok? {
      FieldHeld(m, 0, GlobalFieldValue(g, m.st, c).value, k);
    }
  }

  lemma LocalValueHeld(m: Machine, a: Address, appID: int, key: Bytes, k: nat)
    requires MachineHeld(m, k) && a in m.st.accounts
    ensures var v := LocalValue(m.st.accounts[a], appID, key); v.Some? ==> ElemHeld(v.value, |m.st.heap.own|, k)
  {
    assert AccountHeld(m.st.accounts[a], |m.st.heap.own|, k);
  }

  lemma GlobalValueHeld(m: Machine, appID: nat, key: Bytes, k: nat)
    requires MachineHeld(m, k) && GlobalValue(m.st, appID, key).Ok?
    ensures var v := GlobalValue(m.st, appID, key).value; v.Some? ==> ElemHeld(v.value, |m.st.heap.own|, k)
  {
    assert AccountHeld(m.st.accounts[AppOwner(m.st, appID).value], |m.st.heap.own|, k);
  }

  lemma PushValueHeld(m: Machine, d: nat, v: Option<StackElem>, k: nat)
    requires MachineHeld(m, k) && d <= |m.stack| && (v.Some? ==> ElemHeld(v.value, |m.st.heap.own|, k))
    ensures ResultHeld(PushValue(Drop(m, d), v), k) && ResultHeld(PushValueEx(Drop(m, d), v), k)
  {
    hide MachineHeld;
    DropHeld(m, d, k);
    PushHeld(Drop(m, d), if Truthy(v) then v.value else Int(0), k);
    PairHeld(Drop(m, d), if Truthy(v) then v.value else Int(0), if Truthy(v) then Int(1) else Int(0), k);
  }

  lemma AppReadHeld(op: AppReadOp, m: Machine, c: TealCtx, k: nat)
    requires MachineHeld(m, k)
    ensures ResultHeld(StepAppRead(op, m, c), k)
  {
    hide MachineHeld, LocalValue, GlobalValue, Truthy;
    if StepAppRead(op, m, c).Ok? {
      match op
      case AppOptedIn =>
        IntHeld(m, 2, 0, k);
        IntHeld(m, 2, 1, k);
      case AppLocalGet =>
        var a, key := AccountAt(m.st, c, Peek(m, 1).n).value, Deref(m.st.heap, Peek(m, 0).r);
        LocalValueHeld(m, a, AppIdOf(c.tx), key, k);
        PushValueHeld(m, 2, LocalValue(m.st.accounts[a], AppIdOf(c.tx), key), k);
      case AppLocalGetEx =>
        var a, key := AccountAt(m.st, c, Peek(m, 2).n).value, Deref(m.st.heap, Peek(m, 0).r);
        LocalValueHeld(m, a, Peek(m, 1).n, key, k);
        PushValueHeld(m, 3, LocalValue(m.st.accounts[a], Peek(m, 1).n, key), k);
      case AppGlobalGet =>
        var key := Deref(m.st.heap, Peek(m, 0).r);
        GlobalValueHeld(m, AppIdOf(c.tx), key, k);
        PushValueHeld(m, 1, GlobalValue(m.st, AppIdOf(c.tx), key).value, k);
      case AppGlobalGetEx =>
        var key, appID := Deref(m.st.heap, Peek(m, 0).r), ForeignApp(c.tx, Peek(m, 1).n).value;
        GlobalValueHeld(m, appID, key, k);
        PushValueHeld(m, 2, GlobalValue(m.st, appID, key).value, k);
      case Balance => IntHeld(m, 1, m.st.accounts[AccountAt(m.st, c, Peek(m, 0).n).value].amount, k);
      case MinBalance => IntHeld(m, 1, m.st.accounts[AccountAt(m.st, c, Peek(m, 0).n).value].minBalance, k);
      case AssetHoldingGet(_) => HoldingHeld(op, m, c, k);
    }
  }

  lemma HoldingHeld(op: AppReadOp, m: Machine, c: TealCtx, k: nat)
    requires MachineHeld(m, k) && op.AssetHoldingGet? && StepAppRead(op, m, c).Ok?
    ensures MachineHeld(StepAppRead(op, m, c).value, k)
  {
    hide MachineHeld, PushPair;
    DropHeld(m, 2, k);
    var assetId, a := Peek(m, 0).n, AccountAt(m.st, c, Peek(m, 1).n).value;
    var acc := m.st.accounts[a];
    PairHeld(Drop(m, 2), Int(0), Int(0), k);
    PairHeld(Drop(m, 2), Int(0), Int(1), k);
    PairHeld(Drop(m, 2), Int(1), Int(1), k);
    if assetId >= 0 && assetId in acc.assets {
      PairHeld(Drop(m, 2), Int(acc.assets[assetId].amount), Int(1), k);
    }
  }

  /** What an outcome leaves: a machine, or the state of a failure. */
  predicate ExecHeld(e: Exec, k: nat) {
    match e
    case Cont(m) => MachineHeld(m, k)
    case Jump(_, m) => MachineHeld(m, k)
    case Halt(m) => MachineHeld(m, k)
    case Fail(_, st) => StateHeld(st, k)
  }

  lemma AssetParamsHeld(f: ParamField, m: Machine, c: TealCtx, k: nat)
    requires MachineHeld(m, k)
    ensures ExecHeld(StepAssetParams(f, m, c), k)
  {
    hide PushField, FindAssetDef, StateHeld, ElemsHeld;
    if |m.stack| >= 1 && Peek(m, 0).Int? && c.tx.apas.Some? && InBounds(Peek(m, 0).n, |c.tx.apas.value|) {
      match FindAssetDef(m.st, c.tx.apas.value[Peek(m, 0).n])
      case Err(_) =>
      case Ok(None) =>
        DropHeld(m, 1, k);
        PairHeld(Drop(m, 1), Int(0), Int(0), k);
      case Ok(Some(d)) =>
        FieldHeld(m, 1, ParamValue(d, f, c.env), k);
        var r := PushField(Drop(m, 1), ParamValue(d, f, c.env));
        if r.Ok? {
          PushHeld(r.value, Int(1), k);
        }
    }
  }

  // ---- Writes ----

  lemma SetAccountHeld(st: State, a: Address, acc: Account, k: nat)
    requires StateHeld(st, k) && AccountHeld(acc, |st.heap.own|, k)
    ensures StateHeld(SetAccount(st, a, acc), k)
  {
    hide AccountHeld;
  }

  lemma WithLocalHeld(acc: Account, appID: nat, kv: StateMap, n: nat, k: nat)
    requires AccountHeld(acc, n, k) && appID in acc.appsLocalState && KvHeld(kv, n, k)
    ensures AccountHeld(WithLocal(acc, appID, kv), n, k)
  {
    hide KvHeld;
  }

  lemma WithGlobalsHeld(acc: Account, appID: nat, kv: StateMap, n: nat, k: nat)
    requires AccountHeld(acc, n, k) && appID in acc.createdApps && KvHeld(kv, n, k)
    ensures AccountHeld(WithGlobals(acc, appID, kv), n, k)
  {
    hide KvHeld;
  }

  lemma WithStateHeld(m: Machine, d: nat, st: State, k: nat)
    requires MachineHeld(m, k) && d <= |m.stack| && StateHeld(st, k) && |st.heap.own| == |m.st.heap.own|
    ensures MachineHeld(Drop(m, d).(st := st), k)
  {
    hide StateHeld;
  }

  lemma LocalPutHeld(m: Machine, c: TealCtx, k: nat)
    requires MachineHeld(m, k)
    ensures ExecHeld(StepLocalPut(m, c), k)
  {
    hide ValidSchema, MachineHeld, AccountHeld;
    MachineStateHeld(m, k);
    if |m.stack| >= 3 && Peek(m, 1).Ref? && Peek(m, 2).Int? && AccountAt(m.st, c, Peek(m, 2).n).Ok? {
      var a, id, n := AccountAt(m.st, c, Peek(m, 2).n).value, AppIdOf(c.tx), |m.st.heap.own|;
      var acc := m.st.accounts[a];
      if id in acc.appsLocalState {
        var kv := acc.appsLocalState[id].kv[Deref(m.st.heap, Peek(m, 1).r) := Peek(m, 0)];
        PeekHeld(m, 0, k);
        LocalKvHeld(acc, id, n, k);
        WithLocalHeld(acc, id, kv, n, k);
        SetAccountHeld(m.st, a, WithLocal(acc, id, kv), k);
        WithStateHeld(m, 3, SetAccount(m.st, a, WithLocal(acc, id, kv)), k);
      }
    }
  }

  lemma MachineStateHeld(m: Machine, k: nat)
    requires MachineHeld(m, k)
    ensures StateHeld(m.st, k)
  {
  }

  lemma LocalKvHeld(acc: Account, id: nat, n: nat, k: nat)
    requires AccountHeld(acc, n, k) && id in acc.appsLocalState
    ensures KvHeld(acc.appsLocalState[id].kv, n, k)
  {
  }

  lemma GlobalKvHeld(acc: Account, id: nat, n: nat, k: nat)
    requires AccountHeld(acc, n, k) && id in acc.createdApps
    ensures KvHeld(acc.createdApps[id].globals, n, k)
  {
  }

  lemma GlobalPutHeld(m: Machine, c: TealCtx, k: nat)
    requires MachineHeld(m, k)
    ensures ExecHeld(StepGlobalPut(m, c), k)
  {
    hide ValidSchema, MachineHeld, AccountHeld;
    MachineStateHeld(m, k);
    if |m.stack| >= 2 && Peek(m, 1).Ref? && AppOwner(m.st, AppIdOf(c.tx)).Ok? {
      var a, id, n := AppOwner(m.st, AppIdOf(c.tx)).value, AppIdOf(c.tx), |m.st.heap.own|;
      var acc := m.st.accounts[a];
      var kv := acc.createdApps[id].globals[Deref(m.st.heap, Peek(m, 1).r) := Peek(m, 0)];
      PeekHeld(m, 0, k);
      GlobalKvHeld(acc, id, n, k);
      WithGlobalsHeld(acc, id, kv, n, k);
      SetAccountHeld(m.st, a, WithGlobals(acc, id, kv), k);
      WithStateHeld(m, 2, SetAccount(m.st, a, WithGlobals(acc, id, kv)), k);
    }
  }

  lemma LocalDelHeld(m: Machine, c: TealCtx, k: nat)
    requires MachineHeld(m, k)
    ensures ResultHeld(StepLocalDel(m, c), k)
  {
    hide MachineHeld, AccountHeld;
    MachineStateHeld(m, k);
    if StepLocalDel(m, c).Ok? {
      var a, id, n := AccountAt(m.st, c, Peek(m, 1).n).value, AppIdOf(c.tx), |m.st.heap.own|;
      var acc := m.st.accounts[a];
      DropHeld(m, 2, k);
      if id in acc.appsLocalState {
        var kv := acc.appsLocalState[id].kv - {Deref(m.st.heap, Peek(m, 0).r)};
        LocalKvHeld(acc, id, n, k);
        WithLocalHeld(acc, id, kv, n, k);
        SetAccountHeld(m.st, a, WithLocal(acc, id, kv), k);
        WithStateHeld(m, 2, SetAccount(m.st, a, WithLocal(acc, id, kv)), k);
      }
    }
  }

  lemma GlobalDelHeld(m: Machine, c: TealCtx, k: nat)
    requires MachineHeld(m, k)
    ensures ResultHeld(StepGlobalDel(m, c), k)
  {
    hide MachineHeld, AccountHeld;
    MachineStateHeld(m, k);
    if StepGlobalDel(m, c).Ok? {
      var a, id, n := AppOwner(m.st, AppIdOf(c.tx)).value, AppIdOf(c.tx), |m.st.heap.own|;
      var acc := m.st.accounts[a];
      var kv := acc.createdApps[id].globals - {Deref(m.st.heap, Peek(m, 0).r)};
      GlobalKvHeld(acc, id, n, k);
      WithGlobalsHeld(acc, id, kv, n, k);
      SetAccountHeld(m.st, a, WithGlobals(acc, id, kv), k);
      WithStateHeld(m, 1, SetAccount(m.st, a, WithGlobals(acc, id, kv)), k);
    }
  }

  // ---- Steps and runs ----

  lemma ValueHeld(op: ValueOp, m: Machine, env: Env, k: nat)
    requires MachineHeld(m, k) && (k == 0 ==> OpClosed(Value(op), env))
    ensures ResultHeld(StepValue(op, m, env), k)
  {
    hide MachineHeld, StepArith, StepBytes, StepBits, StepStack, StepConst;
    match op
    case OnInts(o) => ArithHeld(o, m, k);
    case OnBytes(o) => BytesHeld(o, m, env, k);
    case OnBits(o) => BitsHeld(o, m, k);
    case OnStack(o) => StackHeld(o, m, k);
    case Const(o) => ConstHeld(o, m, k);
  }

  lemma BranchHeld(op: BranchOp, m: Machine, k: nat)
    requires MachineHeld(m, k)
    ensures ExecHeld(StepBranch(op, m), k)
  {
    hide StateHeld;
  }

  /** Any operator keeps every reference good; one that pushes no shared array keeps a closed machine closed. */
  lemma StepHeld(op: Op, m: Machine, c: TealCtx, k: nat)
    requires MachineHeld(m, k) && CtxOwnsData(c) && (k == 0 ==> OpClosed(op, c.env))
    ensures ExecHeld(Step(op, m, c), k)
  {
    hide MachineHeld, StepValue, StepTxn, StepAppRead, StepGlobal, StepBranch, StepAssetParams;
    hide StepLocalPut, StepGlobalPut, StepLocalDel, StepGlobalDel;
    MachineStateHeld(m, k);
    match op
    case Value(o) => ValueHeld(o, m, c.env, k);
    case Read(ReadTxn(o)) => TxnHeld(o, m, c, k);
    case Read(ReadApp(o)) => AppReadHeld(o, m, c, k);
    case Read(Global(g)) => GlobalHeld(g, m, c, k);
    case Control(o) => BranchHeld(o, m, k);
    case AssetParamsGet(f) => AssetParamsHeld(f, m, c, k);
    case AppLocalPut => LocalPutHeld(m, c, k);
    case AppGlobalPut => GlobalPutHeld(m, c, k);
    case AppLocalDel => LocalDelHeld(m, c, k);
    case AppGlobalDel => GlobalDelHeld(m, c, k);
    case _ =>
  }

  predicate ProgramClosed(p: Program, env: Env) {
    forall i :: 0 <= i < |p| ==> OpClosed(p[i].op, env)
  }

  lemma RunHeld(p: Program, m: Machine, c: TealCtx, k: nat)
    requires MachineHeld(m, k) && CtxOwnsData(c) && (k == 0 ==> ProgramClosed(p, c.env))
    ensures StateHeld(StateOf(RunFrom(p, 0, m, StepperOf(c))), k)
  {
    hide MachineHeld, StateHeld, Step;
    var inv, final := (x: Machine) => MachineHeld(x, k), (st: State) => StateHeld(st, k);
    var f := StepperOf(c);
    forall i, m1 | 0 <= i < |p| && inv(m1)
      ensures StepKeeps(f(p[i].op, m1), inv, final)
    {
      StepHeld(p[i].op, m1, c, k);
      ExecKeeps(f(p[i].op, m1), k);
    }
    RunInvariant(p, 0, m, f, inv, final);
    var r := RunFrom(p, 0, m, f);
    if r.Done? {
      MachineStateHeld(r.m, k);
    }
  }

  lemma ExecKeeps(e: Exec, k: nat)
    requires ExecHeld(e, k)
    ensures StepKeeps(e, x => MachineHeld(x, k), st => StateHeld(st, k))
  {
  }
}
