/** Every integer a program can see stays a uint64, and the stack stays bounded. */
module TealRange {
  import opened Values
  import opened Bits
  import opened Teal
  import opened TealRun

  predicate ElemOk(e: StackElem) {
    e.Int? ==> IsUint64(e.n)
  }

  predicate KvOk(kv: StateMap) {
    forall k :: k in kv ==> ElemOk(kv[k])
  }

  predicate AppsOk(acc: Account) {
    && (forall id :: id in acc.createdApps ==> KvOk(acc.createdApps[id].globals))
    && (forall id :: id in acc.appsLocalState ==> KvOk(acc.appsLocalState[id].kv))
  }

  /** Ledger numbers a program can read. */
  predicate NumbersOk(acc: Account) {
    && IsUint64(acc.amount) && IsUint64(acc.minBalance)
    && (forall id :: id in acc.assets ==> IsUint64(acc.assets[id].amount))
    && (forall id :: id in acc.createdAssets ==> IsUint64(acc.createdAssets[id].total) && IsUint64(acc.createdAssets[id].decimals))
  }

  predicate BytesOk(b: Bytes) {
    |b| <= MAX_UINT64
  }

  predicate ArraysOk(arrays: seq<Bytes>) {
    forall r :: 0 <= r < |arrays| ==> BytesOk(arrays[r])
  }

  predicate StateOk(st: State) {
    && (forall a :: a in st.accounts ==> AppsOk(st.accounts[a]) && NumbersOk(st.accounts[a]))
    && ArraysOk(st.heap.own) && ArraysOk(st.heap.shared)
  }

  predicate ElemsOk(s: seq<StackElem>) {
    forall i :: 0 <= i < |s| ==> ElemOk(s[i])
  }

  predicate IntsOk(s: seq<int>) {
    forall i :: 0 <= i < |s| ==> IsUint64(s[i])
  }

  /** Integers on the stack, in scratch space, among the constants and in stored application state. */
  predicate MachineOk(m: Machine) {
    && |m.stack| <= STACK_CAPACITY && ElemsOk(m.stack)
    && ElemsOk(m.scratch) && IntsOk(m.intcblock) && StateOk(m.st)
  }

  predicate FieldOk(v: FieldValue) {
    match v
    case Number(n) => IsUint64(n)
    case Data(b) => BytesOk(b)
    case ZeroAddressOfTable => true
  }

  predicate TxnOk(tx: Txn) {
    && (forall f :: f in tx.fields ==> FieldOk(tx.fields[f]))
    && (forall f :: f in tx.arrays ==> forall i :: 0 <= i < |tx.arrays[f]| ==> FieldOk(tx.arrays[f][i]))
    && (tx.apid.Some? ==> IsUint64(tx.apid.value))
  }

  ghost predicate EnvOk(env: Env) {
    && (forall k, b :: BytesOk(env.hash(k, b)))
    && (forall a :: BytesOk(env.publicKey(a)))
    && (forall s :: BytesOk(env.text(s)))
    && (forall f :: FieldOk(env.fieldDefault(f)))
  }

  ghost predicate InputsOk(c: TealCtx) {
    && TxnOk(c.tx) && (forall i :: 0 <= i < |c.gtxs| ==> TxnOk(c.gtxs[i])) && |c.gtxs| <= MAX_GROUP
    && IsUint64(c.round) && IsUint64(c.timestamp) && EnvOk(c.env)
  }

  /** No bitwise complement, constants in range. The constructors of `int` and `pushint` check their range;
      `intcblock` does not. */
  predicate OpOk(op: Op) {
    op.Value? ==> match op.value
      case OnInts(o) => o != BitwiseNot
      case Const(o) =>
        (match o
         case Intcblock(ints) => IntsOk(ints)
         case PushInt(n) => IsUint64(n)
         case PushBytes(b) => BytesOk(b)
         case Bytecblock(blocks) => forall i :: 0 <= i < |blocks| ==> BytesOk(blocks[i])
         case _ => true)
      case _ => true
  }

  predicate ResultOk(r: Result<Machine>) {
    r.Ok? ==> MachineOk(r.value)
  }

  lemma DropOk(m: Machine, n: nat)
    requires MachineOk(m) && n <= |m.stack|
    ensures MachineOk(Drop(m, n))
  {
  }

  lemma PushOk(m: Machine, e: StackElem)
    requires MachineOk(m) && ElemOk(e)
    ensures ResultOk(Push(m, e))
  {
  }

  lemma PushPairOk(m: Machine, e: StackElem, f: StackElem)
    requires MachineOk(m) && ElemOk(e) && ElemOk(f)
    ensures ResultOk(PushPair(m, e, f))
  {
    PushOk(m, e);
    if Push(m, e).Ok? {
      PushOk(Push(m, e).value, f);
    }
  }

  lemma HeapOk(st: State, heap: Heap)
    requires StateOk(st) && ArraysOk(heap.own) && ArraysOk(heap.shared)
    ensures StateOk(st.(heap := heap))
  {
  }

  lemma PushDataOk(m: Machine, b: Bytes)
    requires MachineOk(m) && BytesOk(b)
    ensures ResultOk(PushData(m, b))
  {
    PushOk(m, Ref(Own(|m.st.heap.own|)));
    HeapOk(m.st, Alloc(m.st.heap, [b]));
  }

  lemma PushFieldOk(m: Machine, v: FieldValue)
    requires MachineOk(m) && FieldOk(v)
    ensures ResultOk(PushField(m, v))
  {
    match v
    case Number(n) => PushOk(m, Int(n));
    case Data(b) => PushDataOk(m, b);
    case ZeroAddressOfTable => PushOk(m, Ref(ZERO_ADDRESS));
  }

  lemma PushAfterDrop(m: Machine, n: nat, e: StackElem)
    requires MachineOk(m) && n <= |m.stack| && ElemOk(e)
    ensures ResultOk(Push(Drop(m, n), e))
  {
    DropOk(m, n);
    PushOk(Drop(m, n), e);
  }

  lemma PairAfterDrop(m: Machine, n: nat, e: StackElem, f: StackElem)
    requires MachineOk(m) && n <= |m.stack| && ElemOk(e) && ElemOk(f)
    ensures ResultOk(PushPair(Drop(m, n), e, f))
  {
    DropOk(m, n);
    PushPairOk(Drop(m, n), e, f);
  }

  lemma DataAfterDrop(m: Machine, n: nat, b: Bytes)
    requires MachineOk(m) && n <= |m.stack| && BytesOk(b)
    ensures ResultOk(PushData(Drop(m, n), b))
  {
    DropOk(m, n);
    PushDataOk(Drop(m, n), b);
  }

  // ---- Arithmetic ----

  lemma QuotientInRange(a: nat, b: nat)
    requires b > 0
    ensures 0 <= a / b <= a && 0 <= a - b * (a / b) < b
  {
    var q := a / b;
    assert a == b * q + a % b;
    AtLeastOnce(b, q);
  }

  lemma AtLeastOnce(b: nat, q: nat)
    requires b > 0
    ensures b * q >= q
  {
    ProductNonNegative(b - 1, q);
    assert b * q == (b - 1) * q + q;
  }

  lemma BitwiseInRange(k: BitKind, a: int, b: int)
    requires IsUint64(a) && IsUint64(b)
    ensures IsUint64(Bitwise(k, a, b))
  {
    Pow2Of64();
    BitwiseBounded(k, a, b, 64);
  }

  lemma ProductNonNegative(a: nat, b: nat)
    ensures a * b >= 0
  {
  }

  lemma ArithInRange(k: Arith, prev: int, last: int)
    requires IsUint64(prev) && IsUint64(last)
    ensures ArithValue(k, prev, last).Ok? ==> IsUint64(ArithValue(k, prev, last).value)
  {
    match k
    case Mul => ProductNonNegative(prev, last);
    case Div => if last != 0 { QuotientInRange(prev, last); }
    case Mod => if last != 0 { QuotientInRange(prev, last); }
    case BitwiseOr => BitwiseInRange(BitOr, prev, last);
    case BitwiseAnd => BitwiseInRange(BitAnd, prev, last);
    case BitwiseXor => BitwiseInRange(BitXor, prev, last);
    case _ =>
  }

  lemma ArithStepOk(op: ArithOp, m: Machine)
    requires MachineOk(m) && op != BitwiseNot
    ensures ResultOk(StepArith(op, m))
  {
    match op
    case Binary(k) =>
      if StepArith(op, m).Ok? {
        ArithInRange(k, Peek(m, 1).n, Peek(m, 0).n);
        PushAfterDrop(m, 2, Int(ArithValue(k, Peek(m, 1).n, Peek(m, 0).n).value));
      }
    case Equal(_) =>
      if |m.stack| >= 2 { PushAfterDrop(m, 2, Int(0)); PushAfterDrop(m, 2, Int(1)); }
    case Not =>
      if |m.stack| >= 1 { PushAfterDrop(m, 1, Int(0)); PushAfterDrop(m, 1, Int(1)); }
    case Addw =>
      if StepArith(op, m).Ok? {
        AddwExact(Peek(m, 0).n, Peek(m, 1).n);
        var parts := AddwParts(Peek(m, 0).n, Peek(m, 1).n);
        PairAfterDrop(m, 2, Int(parts.0), Int(parts.1));
      }
    case Mulw =>
      if StepArith(op, m).Ok? {
        MulwExact(Peek(m, 0).n, Peek(m, 1).n);
        var parts := MulwParts(Peek(m, 0).n, Peek(m, 1).n);
        PairAfterDrop(m, 2, Int(parts.0), Int(parts.1));
      }
  }

  // ---- Bytes ----

  lemma {:induction false} BigEndianLength(n: nat, width: nat)
    ensures |BigEndian(n, width)| == width
  {
    if width > 0 {
      BigEndianLength(n / 256, width - 1);
    }
  }

  lemma {:induction false} FromBigEndianBound(b: Bytes)
    ensures FromBigEndian(b) < Pow2(8 * |b|)
    decreases |b|
  {
    if b != [] {
      var front := b[..|b| - 1];
      FromBigEndianBound(front);
      Pow2By8(8 * |front|);
    }
  }

  lemma Pow2By8(k: nat)
    ensures Pow2(k + 8) == 256 * Pow2(k)
  {
    assert Pow2(k + 2) == 4 * Pow2(k);
    assert Pow2(k + 4) == 16 * Pow2(k);
    assert Pow2(k + 6) == 64 * Pow2(k);
  }

  lemma DecodeInRange(b: Bytes)
    ensures DecodeUint64(b).Ok? ==> IsUint64(DecodeUint64(b).value)
  {
    if 1 <= |b| <= 8 {
      FromBigEndianBound(b);
      if |b| < 8 {
        Pow2Monotone(8 * |b|, 64);
      }
      Pow2Of64();
    }
  }

  lemma DerefOk(st: State, r: Loc)
    requires StateOk(st)
    ensures BytesOk(Deref(st.heap, r))
  {
  }

  lemma BytesStepOk(op: BytesOp, m: Machine, env: Env)
    requires MachineOk(m) && EnvOk(env)
    ensures ResultOk(StepBytes(op, m, env))
  {
    var r := StepBytes(op, m, env);
    if r.Ok? {
      match op
      case Len =>
        DerefOk(m.st, Peek(m, 0).r);
        PushAfterDrop(m, 1, Int(|Deref(m.st.heap, Peek(m, 0).r)|));
      case Itob =>
        BigEndianLength(Peek(m, 0).n, 8);
        DataAfterDrop(m, 1, EncodeUint64(Peek(m, 0).n).value);
      case Btoi =>
        var b := Deref(m.st.heap, Peek(m, 0).r);
        DecodeInRange(b);
        PushAfterDrop(m, 1, Int(DecodeUint64(b).value));
      case Concat =>
        DataAfterDrop(m, 2, Deref(m.st.heap, Peek(m, 1).r) + Deref(m.st.heap, Peek(m, 0).r));
      case Substring(start, end) =>
        DerefOk(m.st, Peek(m, 0).r);
        DataAfterDrop(m, 1, SubString(start, end, Deref(m.st.heap, Peek(m, 0).r)).value);
      case Substring3 =>
        DerefOk(m.st, Peek(m, 0).r);
        DataAfterDrop(m, 3, SubString(Peek(m, 2).n, Peek(m, 1).n, Deref(m.st.heap, Peek(m, 0).r)).value);
      case Hash(k) =>
        DataAfterDrop(m, 1, env.hash(k, Deref(m.st.heap, Peek(m, 0).r)));
      case Ed25519verify =>
        PushAfterDrop(m, 3, Int(0));
        PushAfterDrop(m, 3, Int(1));
    }
  }

  // ---- Bits ----

  lemma WriteArrayOk(m: Machine, r: Loc, b: Bytes)
    requires MachineOk(m) && BytesOk(b)
    ensures MachineOk(WriteArray(m, r, b))
  {
    HeapOk(m.st, Write(m.st.heap, r, b));
  }

  lemma PushWrittenOk(m: Machine, r: Loc, b: Bytes)
    requires MachineOk(m) && |m.stack| >= 3 && BytesOk(b)
    ensures ResultOk(Push(WriteArray(Drop(m, 3), r, b), Ref(r)))
  {
    DropOk(m, 3);
    WriteArrayOk(Drop(m, 3), r, b);
    PushOk(WriteArray(Drop(m, 3), r, b), Ref(r));
  }

  lemma BitsStepOk(op: BitsOp, m: Machine)
    requires MachineOk(m)
    ensures ResultOk(StepBits(op, m))
  {
    if StepBits(op, m).Ok? {
      match op
      case SetBit =>
        var bit, index := Peek(m, 0).n, Peek(m, 1).n;
        if Peek(m, 2).Int? {
          SetBitIntCorrect(Peek(m, 2).n, index, bit);
          PushAfterDrop(m, 3, Int(SetBitInt(Peek(m, 2).n, index, bit).value));
        } else {
          var r := Peek(m, 2).r;
          DerefOk(m.st, r);
          PushWrittenOk(m, r, SetBitBytes(Deref(m.st.heap, r), index, bit).value);
        }
      case GetBit =>
        PushAfterDrop(m, 2, Int(0));
        PushAfterDrop(m, 2, Int(1));
      case SetByte =>
        var r := Peek(m, 2).r;
        DerefOk(m.st, r);
        PushWrittenOk(m, r, Deref(m.st.heap, r)[Peek(m, 1).n := Peek(m, 0).n]);
      case GetByte =>
        var b := Deref(m.st.heap, Peek(m, 1).r);
        PushAfterDrop(m, 2, Int(b[Peek(m, 0).n]));
    }
  }

  // ---- Stack, scratch and constants ----

  lemma StackStepOk(op: StackOp, m: Machine)
    requires MachineOk(m)
    ensures ResultOk(StepStack(op, m))
  {
    if StepStack(op, m).Ok? {
      match op
      case Pop => DropOk(m, 1);
      case Dup => PushOk(m, Peek(m, 0));
      case Dup2 => PushPairOk(m, Peek(m, 1), Peek(m, 0));
      case Swap => PairAfterDrop(m, 2, Peek(m, 0), Peek(m, 1));
      case Select =>
        PushAfterDrop(m, 3, Peek(m, 1));
        PushAfterDrop(m, 3, Peek(m, 2));
      case Dig(depth) => PushOk(m, Peek(m, depth));
      case Assert => DropOk(m, 1);
    }
  }

  lemma ConstStepOk(op: ConstOp, m: Machine)
    requires MachineOk(m) && OpOk(Value(Const(op)))
    ensures ResultOk(StepConst(op, m))
  {
    if StepConst(op, m).Ok? {
      match op
      case Store(_) => DropOk(m, 1);
      case Load(i) => PushOk(m, m.scratch[i]);
      case Intc(i) => PushOk(m, Int(m.intcblock[i]));
      case Bytecblock(blocks) => HeapOk(m.st, Alloc(m.st.heap, blocks));
      case Bytec(i) => PushOk(m, Ref(Own(m.bytecblock[i])));
      case Arg(i) => PushOk(m, Ref(Shared(m.st.args[i])));
      case PushInt(n) => PushOk(m, Int(n));
      case PushBytes(b) => PushDataOk(m, b);
      case _ =>
    }
  }

  // ---- Reads ----

  lemma FieldOfOk(tx: Txn, field: string, env: Env)
    requires TxnOk(tx) && EnvOk(env)
    ensures FieldOf(tx, field, env).Ok? ==> FieldOk(FieldOf(tx, field, env).value)
  {
  }

  lemma ArrayItemOk(tx: Txn, field: string, item: nat, env: Env)
    requires TxnOk(tx) && EnvOk(env)
    ensures ArrayItem(tx, field, item, env).Ok? ==> FieldOk(ArrayItem(tx, field, item, env).value)
  {
  }

  lemma TxnStepOk(op: TxnOp, m: Machine, c: TealCtx)
    requires MachineOk(m) && InputsOk(c)
    ensures ResultOk(StepTxn(op, m, c))
  {
    if StepTxn(op, m, c).Ok? {
      match op
      case TxnField(f) =>
        FieldOfOk(c.tx, f, c.env);
        PushFieldOk(m, FieldOf(c.tx, f, c.env).value);
      case TxnArray(f, item) =>
        ArrayItemOk(c.tx, f, item, c.env);
        PushFieldOk(m, ArrayItem(c.tx, f, item, c.env).value);
      case GtxnField(t, f) =>
        FieldOfOk(c.gtxs[t], f, c.env);
        PushFieldOk(m, FieldOf(c.gtxs[t], f, c.env).value);
      case GtxnArray(t, f, item) =>
        ArrayItemOk(c.gtxs[t], f, item, c.env);
        PushFieldOk(m, ArrayItem(c.gtxs[t], f, item, c.env).value);
      case GtxnsField(f) =>
        var tx := c.gtxs[Peek(m, 0).n];
        FieldOfOk(tx, f, c.env);
        DropOk(m, 1);
        PushFieldOk(Drop(m, 1), FieldOf(tx, f, c.env).value);
      case GtxnsArray(f, item) =>
        var tx := c.gtxs[Peek(m, 0).n];
        ArrayItemOk(tx, f, item, c.env);
        DropOk(m, 1);
        PushFieldOk(Drop(m, 1), ArrayItem(tx, f, item, c.env).value);
    }
  }

  lemma GlobalStepOk(g: GlobalField, m: Machine, c: TealCtx)
    requires MachineOk(m) && InputsOk(c)
    ensures ResultOk(StepGlobal(g, m, c))
  {
    if GlobalFieldValue(g, m.st, c).Ok? {
      PushFieldOk(m, GlobalFieldValue(g, m.st, c).value);
    }
  }

  lemma LocalValueOk(st: State, a: Address, appID: int, key: Bytes)
    requires StateOk(st) && a in st.accounts
    ensures var v := LocalValue(st.accounts[a], appID, key); v.Some? ==> ElemOk(v.value)
  {
  }

  lemma GlobalValueOk(st: State, appID: nat, key: Bytes)
    requires StateOk(st)
    ensures var v := GlobalValue(st, appID, key); v.Ok? && v.value.Some? ==> ElemOk(v.value.value)
  {
    if AppOwner(st, appID).Ok? {
      var acc := st.accounts[AppOwner(st, appID).value];
      assert AppsOk(acc) && KvOk(acc.createdApps[appID].globals);
    }
  }

  lemma PushValueOk(m: Machine, n: nat, v: Option<StackElem>)
    requires MachineOk(m) && n <= |m.stack| && (v.Some? ==> ElemOk(v.value))
    ensures ResultOk(PushValue(Drop(m, n), v)) && ResultOk(PushValueEx(Drop(m, n), v))
  {
    PushAfterDrop(m, n, Int(0));
    PairAfterDrop(m, n, Int(0), Int(0));
    if v.Some? {
      PushAfterDrop(m, n, v.value);
      PairAfterDrop(m, n, v.value, Int(1));
    }
  }

  lemma AppReadStepOk(op: AppReadOp, m: Machine, c: TealCtx)
    requires MachineOk(m) && InputsOk(c)
    ensures ResultOk(StepAppRead(op, m, c))
  {
    if StepAppRead(op, m, c).Ok? {
      match op
      case AppOptedIn =>
        PushAfterDrop(m, 2, Int(0));
        PushAfterDrop(m, 2, Int(1));
      case AppLocalGet =>
        var a, key := AccountAt(m.st, c, Peek(m, 1).n).value, Deref(m.st.heap, Peek(m, 0).r);
        LocalValueOk(m.st, a, AppIdOf(c.tx), key);
        PushValueOk(m, 2, LocalValue(m.st.accounts[a], AppIdOf(c.tx), key));
      case AppLocalGetEx =>
        var a, key := AccountAt(m.st, c, Peek(m, 2).n).value, Deref(m.st.heap, Peek(m, 0).r);
        LocalValueOk(m.st, a, Peek(m, 1).n, key);
        PushValueOk(m, 3, LocalValue(m.st.accounts[a], Peek(m, 1).n, key));
      case AppGlobalGet =>
        var key := Deref(m.st.heap, Peek(m, 0).r);
        GlobalValueOk(m.st, AppIdOf(c.tx), key);
        PushValueOk(m, 1, GlobalValue(m.st, AppIdOf(c.tx), key).value);
      case AppGlobalGetEx =>
        var key, appID := Deref(m.st.heap, Peek(m, 0).r), ForeignApp(c.tx, Peek(m, 1).n).value;
        GlobalValueOk(m.st, appID, key);
        PushValueOk(m, 2, GlobalValue(m.st, appID, key).value);
      case Balance =>
        var a := AccountAt(m.st, c, Peek(m, 0).n).value;
        PushAfterDrop(m, 1, Int(m.st.accounts[a].amount));
      case MinBalance =>
        var a := AccountAt(m.st, c, Peek(m, 0).n).value;
        PushAfterDrop(m, 1, Int(m.st.accounts[a].minBalance));
      case AssetHoldingGet(field) =>
        HoldingStepOk(field, m, c);
    }
  }

  lemma HoldingStepOk(field: HoldingField, m: Machine, c: TealCtx)
    requires MachineOk(m) && InputsOk(c) && StepAppRead(AssetHoldingGet(field), m, c).Ok?
    ensures ResultOk(StepAppRead(AssetHoldingGet(field), m, c))
  {
    var acc, id := m.st.accounts[AccountAt(m.st, c, Peek(m, 1).n).value], Peek(m, 0).n;
    PairAfterDrop(m, 2, Int(0), Int(0));
    PairAfterDrop(m, 2, Int(0), Int(1));
    PairAfterDrop(m, 2, Int(1), Int(1));
    if id >= 0 && id in acc.assets {
      assert NumbersOk(acc);
      PairAfterDrop(m, 2, Int(acc.assets[id].amount), Int(1));
    }
  }

  lemma AssetParamsStepOk(f: ParamField, m: Machine, c: TealCtx)
    requires MachineOk(m) && InputsOk(c)
    ensures ExecOk(StepAssetParams(f, m, c))
  {
    if |m.stack| >= 1 {
      DropOk(m, 1);
      PairAfterDrop(m, 1, Int(0), Int(0));
      if Peek(m, 0).Int? && c.tx.apas.Some? && InBounds(Peek(m, 0).n, |c.tx.apas.value|) {
        var found := FindAssetDef(m.st, c.tx.apas.value[Peek(m, 0).n]);
        if found.Ok? && found.value.Some? {
          ParamValueOk(m.st, c, c.tx.apas.value[Peek(m, 0).n], f);
          var v := ParamValue(found.value.value, f, c.env);
          PushFieldOk(Drop(m, 1), v);
          if PushField(Drop(m, 1), v).Ok? {
            PushOk(PushField(Drop(m, 1), v).value, Int(1));
          }
        }
      }
    }
  }

  lemma ParamValueOk(st: State, c: TealCtx, id: nat, f: ParamField)
    requires StateOk(st) && InputsOk(c) && FindAssetDef(st, id).Ok? && FindAssetDef(st, id).value.Some?
    ensures FieldOk(ParamValue(FindAssetDef(st, id).value.value, f, c.env))
  {
    assert NumbersOk(st.accounts[st.assetDefs[id]]);
  }

  // ---- Writes ----

  /** A step that goes on leaves a machine in range; one that fails leaves a state in range. */
  predicate ExecOk(e: Exec) {
    match e
    case Cont(m) => MachineOk(m)
    case Jump(_, m) => MachineOk(m)
    case Halt(m) => MachineOk(m)
    case Fail(_, st) => StateOk(st)
  }

  lemma SetAccountOk(st: State, a: Address, acc: Account)
    requires StateOk(st) && AppsOk(acc) && NumbersOk(acc)
    ensures StateOk(SetAccount(st, a, acc))
  {
  }

  lemma LocalPutOk(m: Machine, c: TealCtx)
    requires MachineOk(m)
    ensures ExecOk(StepLocalPut(m, c))
  {
    if |m.stack| >= 3 && Peek(m, 1).Ref? && Peek(m, 2).Int? && AccountAt(m.st, c, Peek(m, 2).n).Ok? {
      var a, appID := AccountAt(m.st, c, Peek(m, 2).n).value, AppIdOf(c.tx);
      var acc := m.st.accounts[a];
      if appID in acc.appsLocalState {
        var kv := acc.appsLocalState[appID].kv[Deref(m.st.heap, Peek(m, 1).r) := Peek(m, 0)];
        assert AppsOk(acc) && KvOk(acc.appsLocalState[appID].kv);
        assert KvOk(kv);
        SetAccountOk(m.st, a, WithLocal(acc, appID, kv));
        DropOk(m, 3);
      }
    }
  }

  lemma GlobalPutOk(m: Machine, c: TealCtx)
    requires MachineOk(m)
    ensures ExecOk(StepGlobalPut(m, c))
  {
    if |m.stack| >= 2 && Peek(m, 1).Ref? && AppOwner(m.st, AppIdOf(c.tx)).Ok? {
      var a, appID := AppOwner(m.st, AppIdOf(c.tx)).value, AppIdOf(c.tx);
      var acc := m.st.accounts[a];
      var globals := acc.createdApps[appID].globals[Deref(m.st.heap, Peek(m, 1).r) := Peek(m, 0)];
      assert AppsOk(acc) && KvOk(acc.createdApps[appID].globals);
      assert KvOk(globals);
      SetAccountOk(m.st, a, WithGlobals(acc, appID, globals));
      DropOk(m, 2);
    }
  }

  lemma LocalDelOk(m: Machine, c: TealCtx)
    requires MachineOk(m)
    ensures ResultOk(StepLocalDel(m, c))
  {
    if StepLocalDel(m, c).Ok? {
      DropOk(m, 2);
      var a, appID := AccountAt(m.st, c, Peek(m, 1).n).value, AppIdOf(c.tx);
      var acc := m.st.accounts[a];
      if appID in acc.appsLocalState {
        assert AppsOk(acc) && KvOk(acc.appsLocalState[appID].kv);
        SetAccountOk(m.st, a, WithLocal(acc, appID, acc.appsLocalState[appID].kv - {Deref(m.st.heap, Peek(m, 0).r)}));
      }
    }
  }

  lemma GlobalDelOk(m: Machine, c: TealCtx)
    requires MachineOk(m)
    ensures ResultOk(StepGlobalDel(m, c))
  {
    if StepGlobalDel(m, c).Ok? {
      DropOk(m, 1);
      var a, appID := AppOwner(m.st, AppIdOf(c.tx)).value, AppIdOf(c.tx);
      var acc := m.st.accounts[a];
      assert AppsOk(acc) && KvOk(acc.createdApps[appID].globals);
      SetAccountOk(m.st, a, WithGlobals(acc, appID, acc.createdApps[appID].globals - {Deref(m.st.heap, Peek(m, 0).r)}));
    }
  }

  lemma BranchStepOk(op: BranchOp, m: Machine)
    requires MachineOk(m)
    ensures ExecOk(StepBranch(op, m))
  {
    if |m.stack| >= 1 {
      DropOk(m, 1);
      assert ElemsOk([Peek(m, 0)]);
    }
  }

  // ---- Any operator, any run ----

  lemma ValueStepOk(op: ValueOp, m: Machine, env: Env)
    requires MachineOk(m) && EnvOk(env) && OpOk(Value(op))
    ensures ResultOk(StepValue(op, m, env))
  {
    match op
    case OnInts(o) => ArithStepOk(o, m);
    case OnBytes(o) => BytesStepOk(o, m, env);
    case OnBits(o) => BitsStepOk(o, m);
    case OnStack(o) => StackStepOk(o, m);
    case Const(o) => ConstStepOk(o, m);
  }

  lemma ReadStepOk(op: ReadOp, m: Machine, c: TealCtx)
    requires MachineOk(m) && InputsOk(c)
    ensures ResultOk(StepRead(op, m, c))
  {
    match op
    case ReadTxn(o) => TxnStepOk(o, m, c);
    case ReadApp(o) => AppReadStepOk(o, m, c);
    case Global(g) => GlobalStepOk(g, m, c);
  }

  /** One operator keeps every integer in range and the stack within its capacity. */
  lemma StepInRange(op: Op, m: Machine, c: TealCtx)
    requires MachineOk(m) && InputsOk(c) && OpOk(op)
    ensures ExecOk(Step(op, m, c))
  {
    match op
    case Value(o) => ValueStepOk(o, m, c.env);
    case Read(o) => ReadStepOk(o, m, c);
    case Control(o) => BranchStepOk(o, m);
    case AssetParamsGet(f) => AssetParamsStepOk(f, m, c);
    case AppLocalPut => LocalPutOk(m, c);
    case AppGlobalPut => GlobalPutOk(m, c);
    case AppLocalDel => LocalDelOk(m, c);
    case AppGlobalDel => GlobalDelOk(m, c);
    case _ =>
  }

  predicate ProgramOk(p: Program) {
    forall k :: 0 <= k < |p| ==> OpOk(p[k].op)
  }

  predicate AllOk(ms: seq<Machine>) {
    forall k :: 0 <= k < |ms| ==> MachineOk(ms[k])
  }

  /** For programs of such operators: after every turn of the interpreter's loop every integer is a uint64 and the stack is
      within its capacity, and so is whatever a failing run leaves. */
  lemma RunInRange(p: Program, m: Machine, c: TealCtx)
    requires MachineOk(m) && InputsOk(c) && ProgramOk(p)
    ensures AllOk(Machines(p, 0, m, StepperOf(c)))
    ensures RunKeeps(RunFrom(p, 0, m, StepperOf(c)), MachineOk, StateOk)
  {
    var f := StepperOf(c);
    forall k, m1 | 0 <= k < |p| && MachineOk(m1)
      ensures StepKeeps(f(p[k].op, m1), MachineOk, StateOk)
    {
      StepInRange(p[k].op, m1, c);
    }
    MachinesInvariant(p, 0, m, f, MachineOk, StateOk);
    RunInvariant(p, 0, m, f, MachineOk, StateOk);
  }

  // ---- Exactly which operators keep the range ----

  /** `~` takes every integer it can take out of range. */
  lemma ComplementLeavesRange(m: Machine, c: TealCtx)
    requires MachineOk(m) && Step(Value(OnInts(BitwiseNot)), m, c).Cont?
    ensures var after := Step(Value(OnInts(BitwiseNot)), m, c).m;
            && |m.stack| >= 1 && Peek(m, 0).Int? && |after.stack| == |m.stack|
            && Peek(after, 0) == Int(-Peek(m, 0).n - 1) && !MachineOk(after)
  {
    var after := Step(Value(OnInts(BitwiseNot)), m, c).m;
    assert !ElemOk(after.stack[|after.stack| - 1]);
  }

  /** An `intcblock` with a constant that is no uint64 is accepted, and leaves it among the constants and, after an
      `intc`, on the stack. */
  lemma IntcblockLeavesRange(ints: seq<int>, i: nat, m: Machine, c: TealCtx)
    requires 1 <= |ints| <= 256 && i < |ints| && !IsUint64(ints[i]) && |m.stack| < STACK_CAPACITY
    ensures var after := m.(intcblock := ints);
            && Step(Value(Const(Intcblock(ints))), m, c) == Cont(after) && !MachineOk(after)
            && Step(Value(Const(Intc(i))), after, c) == Cont(after.(stack := m.stack + [Int(ints[i])]))
  {
    assert !IntsOk(ints);
  }

  lemma LastElemBad(m: Machine, e: StackElem)
    requires m.stack != [] && m.stack[|m.stack| - 1] == e && !ElemOk(e)
    ensures !MachineOk(m)
  {
  }

  lemma LastBytesBad(m: Machine, i: nat)
    requires i < |m.st.heap.own| && !BytesOk(m.st.heap.own[i])
    ensures !MachineOk(m)
  {
    assert !StateOk(m.st);
  }

  lemma BadConstLeavesRange(op: ConstOp, m: Machine)
    requires !OpOk(Value(Const(op))) && StepConst(op, m).Ok?
    ensures !MachineOk(StepConst(op, m).value)
  {
    var after := StepConst(op, m).value;
    match op
    case Intcblock(ints) => assert after.intcblock == ints;
    case PushInt(n) => LastElemBad(after, Int(n));
    case PushBytes(b) =>
      assert after.st.heap.own[|m.st.heap.own|] == b;
      LastBytesBad(after, |m.st.heap.own|);
    case Bytecblock(blocks) =>
      var i :| 0 <= i < |blocks| && !BytesOk(blocks[i]);
      assert after.st.heap.own[|m.st.heap.own| + i] == blocks[i];
      LastBytesBad(after, |m.st.heap.own| + i);
  }

  /** An operator that lets the program go on keeps the invariant if and only if it is not `~` and its constants are in
      range; one that stops it leaves a state in range in any case. */
  lemma StepInRangeIff(op: Op, m: Machine, c: TealCtx)
    requires MachineOk(m) && InputsOk(c)
    ensures ExecOk(Step(op, m, c)) <==> OpOk(op) || !Step(op, m, c).Cont?
  {
    if OpOk(op) {
      StepInRange(op, m, c);
    } else if Step(op, m, c).Cont? {
      match op.value
      case OnInts(_) => ComplementLeavesRange(m, c);
      case Const(o) => BadConstLeavesRange(o, m);
    }
  }

  /** The instruction of turn `k` lets the program go on although it is not one of those operators. */
  predicate LeavesRangeAt(p: Program, m: Machine, c: TealCtx, pc: nat, k: nat) {
    var f := StepperOf(c);
    && k < |Visited(p, pc, m, f)| && k < |Machines(p, pc, m, f)| && Visited(p, pc, m, f)[k] < |p|
    && !OpOk(p[Visited(p, pc, m, f)[k]].op)
    && Step(p[Visited(p, pc, m, f)[k]].op, Machines(p, pc, m, f)[k], c).Cont?
  }

  lemma AllOkCons(m: Machine, ms: seq<Machine>)
    ensures AllOk([m] + ms) <==> MachineOk(m) && AllOk(ms)
  {
    if AllOk([m] + ms) {
      assert ([m] + ms)[0] == m;
      forall k | 0 <= k < |ms|
        ensures MachineOk(ms[k])
      {
        assert ([m] + ms)[k + 1] == ms[k];
      }
    }
  }

  /** Any run from a machine in range: all its machines are in range if and only if no instruction it executes and goes on
      from is a `~` or has a constant out of range. */
  lemma {:induction false} RunInRangeIff(p: Program, pc: nat, m: Machine, c: TealCtx)
    requires MachineOk(m) && InputsOk(c)
    ensures AllOk(Machines(p, pc, m, StepperOf(c))) <==> forall k :: !LeavesRangeAt(p, m, c, pc, k)
    decreases |p| - pc
  {
    var f := StepperOf(c);
    if pc < |p| {
      StepInRangeIff(p[pc].op, m, c);
      match LoopTurn(p, pc, m, f)
      case Stop(_) =>
      case Goto(next, m1) =>
        var ms1 := Machines(p, next, m1, f);
        AllOkCons(m, ms1);
        if MachineOk(m1) {
          RunInRangeIff(p, next, m1, c);
          LaterTurns(p, pc, m, c, next, m1);
        } else {
          assert !MachineOk(ms1[0]);
          assert LeavesRangeAt(p, m, c, pc, 0);
        }
    }
  }

  /** Turn `k + 1` of a run is turn `k` of the rest of it. */
  lemma LaterTurns(p: Program, pc: nat, m: Machine, c: TealCtx, next: nat, m1: Machine)
    requires pc < |p| && LoopTurn(p, pc, m, StepperOf(c)) == Goto(next, m1) && MachineOk(m) && MachineOk(m1) && InputsOk(c)
    ensures (forall k :: !LeavesRangeAt(p, m, c, pc, k)) <==> forall k :: !LeavesRangeAt(p, m1, c, next, k)
  {
    hide MachineOk, InputsOk, Step;
    StepInRangeIff(p[pc].op, m, c);
    assert !LeavesRangeAt(p, m, c, pc, 0);
    forall k: nat
      ensures LeavesRangeAt(p, m, c, pc, k + 1) <==> LeavesRangeAt(p, m1, c, next, k)
    {
    }
    forall k: nat | LeavesRangeAt(p, m, c, pc, k)
      ensures k > 0 && LeavesRangeAt(p, m1, c, next, k - 1)
    {
      assert LeavesRangeAt(p, m, c, pc, (k - 1) + 1) || k == 0;
    }
  }

  // ---- Over all inputs, from the program text alone ----

  /** No complement, and constants in range, unless there are so many of them, or none, that the operator always fails. */
  predicate SafeOp(op: Op) {
    OpOk(op) || AlwaysFails(op)
  }

  predicate AlwaysFails(op: Op) {
    op.Value? && op.value.Const? &&
    match op.value.const_
    case Intcblock(ints) => !(1 <= |ints| <= 256)
    case Bytecblock(blocks) => !(1 <= |blocks| <= 256)
    case _ => false
  }

  lemma SafeStep(op: Op, m: Machine, c: TealCtx)
    requires SafeOp(op) && MachineOk(m) && InputsOk(c)
    ensures ExecOk(Step(op, m, c))
  {
    hide MachineOk, InputsOk;
    StepInRangeIff(op, m, c);
  }

  /** One zero on the stack and nothing else. */
  function OneZero(heap: Heap): Machine {
    Machine([Int(0)], [], [], [], State(map[], map[], map[], 0, 0, heap, []))
  }

  lemma UnsafeGoesOn(op: Op, c: TealCtx)
    requires !SafeOp(op)
    ensures Step(op, OneZero(TableOnly()), c).Cont? && MachineOk(OneZero(TableOnly()))
  {
    ZerosLength(32);
  }

  lemma ZerosLength(n: nat)
    ensures |Zeros(n)| == n
  {
  }

  lemma UnsafeStep(op: Op, c: TealCtx)
    requires !SafeOp(op) && InputsOk(c)
    ensures MachineOk(OneZero(TableOnly())) && !ExecOk(Step(op, OneZero(TableOnly()), c))
  {
    hide MachineOk, InputsOk, OneZero;
    UnsafeGoesOn(op, c);
    StepInRangeIff(op, OneZero(TableOnly()), c);
  }

  /** The operators that keep every machine in range are exactly the safe ones. */
  lemma OpInRangeIff(op: Op, c: TealCtx)
    requires InputsOk(c)
    ensures (forall m :: MachineOk(m) ==> ExecOk(Step(op, m, c))) <==> SafeOp(op)
  {
    hide MachineOk, InputsOk, SafeOp, OneZero, ExecOk;
    if SafeOp(op) {
      forall m | MachineOk(m)
        ensures ExecOk(Step(op, m, c))
      {
        SafeStep(op, m, c);
      }
    } else {
      UnsafeStep(op, c);
    }
  }

  /** A program keeps every run in range, from whatever position and machine it starts, if and only if all its operators are
      safe, which its text decides. */
  lemma {:induction false} ProgramInRangeIff(p: Program, c: TealCtx)
    requires InputsOk(c)
    ensures (forall pc: nat, m :: MachineOk(m) ==> AllOk(Machines(p, pc, m, StepperOf(c))))
            <==> forall k :: 0 <= k < |p| ==> SafeOp(p[k].op)
  {
    hide InputsOk, SafeOp, OneZero, Step, ElemsOk, IntsOk;
    var f := StepperOf(c);
    if forall k :: 0 <= k < |p| ==> SafeOp(p[k].op) {
      forall pc: nat, m | MachineOk(m)
        ensures AllOk(Machines(p, pc, m, f))
      {
        forall k, m1 | 0 <= k < |p| && MachineOk(m1)
          ensures StepKeeps(f(p[k].op, m1), MachineOk, StateOk)
        {
          SafeStep(p[k].op, m1, c);
        }
        MachinesInvariant(p, pc, m, f, MachineOk, StateOk);
      }
    } else {
      var k :| 0 <= k < |p| && !SafeOp(p[k].op);
      UnsafeMachines(p, k, c);
    }
  }

  lemma {:induction false} UnsafeMachines(p: Program, k: nat, c: TealCtx)
    requires k < |p| && !SafeOp(p[k].op) && InputsOk(c)
    ensures MachineOk(OneZero(TableOnly())) && !AllOk(Machines(p, k, OneZero(TableOnly()), StepperOf(c)))
  {
    hide MachineOk, InputsOk, SafeOp, OneZero, Step;
    var m, f := OneZero(TableOnly()), StepperOf(c);
    UnsafeGoesOn(p[k].op, c);
    UnsafeStep(p[k].op, c);
    var m1 := Step(p[k].op, m, c).m;
    AllOkCons(m, Machines(p, k + 1, m1, f));
    assert !MachineOk(Machines(p, k + 1, m1, f)[0]);
  }
}
