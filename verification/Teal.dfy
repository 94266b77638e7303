/** TEAL: operators, the machine they act on, and what one operator does. */
module Teal {
  import opened Values
  import opened Bits

  /** A value read from a transaction or a constant table, before it is pushed. The zero address of the table is pushed as
      the array it is; data of transactions is copied into a new array. */
  datatype FieldValue = Number(n: int) | Data(b: Bytes) | ZeroAddressOfTable

  /** An encoded transaction; `fields` and `arrays` hold what `txn`/`txna` read under each field name. */
  datatype Txn = Txn(
    fee: nat, fv: int, lv: int, snd: Address, apid: Option<nat>,
    apat: Option<seq<Address>>, apfa: Option<seq<nat>>, apas: Option<seq<nat>>,
    fields: map<string, FieldValue>, arrays: map<string, seq<FieldValue>>)

  datatype HashKind = Sha256 | Sha512_256 | Keccak256

  /** Library code and tables that the model takes as given functions. */
  datatype Env = Env(
    hash: (HashKind, Bytes) -> Bytes,
    verify: (Bytes, Bytes, Bytes) -> bool,
    publicKey: Address -> Bytes,
    text: string -> Bytes,
    fieldDefault: string -> FieldValue,
    knownOpcode: (int, string) -> bool,
    number: string -> Option<int>,
    construct: (string, seq<string>, int) -> Option<Op>)

  datatype Arith =
    | Add | Sub | Mul | Div | Mod | BitwiseOr | BitwiseAnd | BitwiseXor
    | LessThan | GreaterThan | LessThanEqualTo | GreaterThanEqualTo | And | Or

  datatype GlobalField =
    | MinTxnFee | MinBalanceConst | MaxTxnLife | ZeroAddress | GroupSize | LogicSigVersion
    | Round | LatestTimestamp | CurrentApplicationID | CreatorAddress

  datatype HoldingField = AssetBalance | AssetFrozen | OtherHoldingField

  datatype ParamField =
    | AssetTotal | AssetDecimals | AssetDefaultFrozen | AssetUnitName | AssetName | AssetURL
    | AssetMetadataHash | AssetManager | AssetReserve | AssetFreeze | AssetClawback

  datatype ArithOp = Binary(kind: Arith) | Equal(negated: bool) | Not | BitwiseNot | Addw | Mulw

  datatype BytesOp = Len | Itob | Btoi | Concat | Substring(start: int, end: int) | Substring3 | Hash(kind: HashKind) | Ed25519verify

  datatype BitsOp = SetBit | GetBit | SetByte | GetByte

  datatype StackOp = Pop | Dup | Dup2 | Swap | Select | Dig(depth: nat) | Assert

  datatype ConstOp =
    | Store(slot: int) | Load(slot: int)
    | Intcblock(ints: seq<int>) | Intc(index: int) | Bytecblock(blocks: seq<Bytes>) | Bytec(index: int)
    | Arg(index: int) | PushInt(n: int) | PushBytes(b: Bytes)

  datatype BranchOp = Branch(target: string) | BranchIfZero(target: string) | BranchIfNotZero(target: string) | Return

  datatype TxnOp =
    | TxnField(field: string) | TxnArray(field: string, item: nat)
    | GtxnField(tx: int, field: string) | GtxnArray(tx: int, field: string, item: nat)
    | GtxnsField(field: string) | GtxnsArray(field: string, item: nat)

  datatype AppReadOp =
    | AppOptedIn | AppLocalGet | AppLocalGetEx | AppGlobalGet | AppGlobalGetEx
    | Balance | MinBalance | AssetHoldingGet(field: HoldingField)

  /** Operators that touch only the machine. */
  datatype ValueOp =
    | OnInts(arith: ArithOp) | OnBytes(bytes: BytesOp) | OnBits(bits: BitsOp) | OnStack(stack: StackOp) | Const(const_: ConstOp)

  /** Operators that read transactions or the ledger. */
  datatype ReadOp = ReadTxn(txn: TxnOp) | ReadApp(app: AppReadOp) | Global(field: GlobalField)

  /** Operators with their immediate arguments already decoded. */
  datatype Op =
    | Pragma | Label(name: string) | ErrOp
    | Value(value: ValueOp) | Read(read: ReadOp) | Control(branch: BranchOp)
    | AssetParamsGet(field: ParamField)
    | AppLocalPut | AppGlobalPut | AppLocalDel | AppGlobalDel

  const STACK_CAPACITY := 1000
  const SCRATCH_SIZE := 256
  const MAX_CONCAT_SIZE := 4096

  /** Stack (top last), scratch space, constant blocks and the ledger state the program sees. */
  datatype Machine = Machine(
    stack: seq<StackElem>, scratch: seq<StackElem>, intcblock: seq<int>, bytecblock: seq<nat>, st: State)

  /** What a program can read besides the machine. */
  datatype TealCtx = TealCtx(tx: Txn, gtxs: seq<Txn>, round: int, timestamp: int, env: Env)

  /** Outcome of one operator. A failure carries the state, because a failing clear program keeps it. */
  datatype Exec = Cont(m: Machine) | Jump(target: string, m: Machine) | Halt(m: Machine) | Fail(error: Error, st: State)

  // ---- Stack access ----

  function Require(cond: bool, error: Error): Result<bool> {
    if cond then Ok(true) else Err(error)
  }

  /** The element `i` places below the top. */
  function Peek(m: Machine, i: nat): StackElem
    requires i < |m.stack|
  {
    m.stack[|m.stack| - 1 - i]
  }

  function Drop(m: Machine, n: nat): Machine
    requires n <= |m.stack|
  {
    m.(stack := m.stack[..|m.stack| - n])
  }

  function Push(m: Machine, e: StackElem): Result<Machine> {
    if |m.stack| == STACK_CAPACITY then Err(StackOverflow) else Ok(m.(stack := m.stack + [e]))
  }

  function PushPair(m: Machine, e: StackElem, f: StackElem): Result<Machine> {
    var m1 :- Push(m, e);
    Push(m1, f)
  }

  function ArrayAt(arrays: seq<Bytes>, i: nat): Bytes {
    if i < |arrays| then arrays[i] else []
  }

  function Deref(heap: Heap, r: Loc): Bytes {
    match r
    case Own(i) => ArrayAt(heap.own, i)
    case Shared(i) => ArrayAt(heap.shared, i)
  }

  function ContentOf(heap: Heap, v: StackElem): Content {
    match v
    case Int(n) => Integer(n)
    case Ref(r) => Array(Deref(heap, r))
  }

  predicate Allocated(heap: Heap, r: Loc) {
    match r
    case Own(i) => i < |heap.own|
    case Shared(i) => i < |heap.shared|
  }

  function Alloc(heap: Heap, arrays: seq<Bytes>): Heap {
    heap.(own := heap.own + arrays)
  }

  /** Pushes a newly allocated byte array. */
  function PushData(m: Machine, b: Bytes): Result<Machine> {
    var m1 :- Push(m, Ref(Own(|m.st.heap.own|)));
    Ok(m1.(st := m.st.(heap := Alloc(m.st.heap, [b]))))
  }

  function PushField(m: Machine, v: FieldValue): Result<Machine> {
    match v
    case Number(n) => Push(m, Int(n))
    case Data(b) => PushData(m, b)
    case ZeroAddressOfTable => Push(m, Ref(ZERO_ADDRESS))
  }

  function PushBool(m: Machine, b: bool): Result<Machine> {
    Push(m, Int(if b then 1 else 0))
  }

  function AsInt(e: StackElem): Result<int> {
    if e.Int? then Ok(e.n) else Err(InvalidType)
  }

  function AsRef(e: StackElem): Result<Loc> {
    if e.Ref? then Ok(e.r) else Err(InvalidType)
  }

  function AsBytes(m: Machine, e: StackElem): Result<Bytes> {
    var r :- AsRef(e);
    Ok(Deref(m.st.heap, r))
  }

  // ---- Pure values ----

  /** Division of big integers truncates toward zero. */
  function TruncDiv(a: int, b: int): int
    requires b != 0
  {
    var q := (if a < 0 then -a else a) / (if b < 0 then -b else b);
    if (a < 0) == (b < 0) then q else -q
  }

  function ArithValue(k: Arith, prev: int, last: int): Result<int> {
    match k
    case Add => if prev + last > MAX_UINT64 then Err(Uint64Overflow) else Ok(prev + last)
    case Sub => if prev - last < 0 then Err(Uint64Underflow) else Ok(prev - last)
    case Mul => if prev * last > MAX_UINT64 then Err(Uint64Overflow) else Ok(prev * last)
    case Div => if last == 0 then Err(ZeroDiv) else Ok(TruncDiv(prev, last))
    case Mod => if last == 0 then Err(ZeroDiv) else Ok(prev - last * TruncDiv(prev, last))
    case BitwiseOr => Ok(Bitwise(BitOr, prev, last))
    case BitwiseAnd => Ok(Bitwise(BitAnd, prev, last))
    case BitwiseXor => Ok(Bitwise(BitXor, prev, last))
    case LessThan => Ok(if prev < last then 1 else 0)
    case GreaterThan => Ok(if prev > last then 1 else 0)
    case LessThanEqualTo => Ok(if prev <= last then 1 else 0)
    case GreaterThanEqualTo => Ok(if prev >= last then 1 else 0)
    case And => Ok(if last != 0 && prev != 0 then 1 else 0)
    case Or => Ok(if prev != 0 || last != 0 then 1 else 0)
  }

  /** `slice(start, end)` of a typed array: negative bounds count from the end. */
  function JsSlice(b: Bytes, start: int, end: int): Bytes {
    var lo := if start < 0 then (if |b| + start < 0 then 0 else |b| + start) else if start > |b| then |b| else start;
    var hi := if end < 0 then (if |b| + end < 0 then 0 else |b| + end) else if end > |b| then |b| else end;
    if lo < hi then b[lo..hi] else []
  }

  function SubString(start: int, end: int, b: Bytes): Result<Bytes> {
    if end < start then Err(SubstringEndBeforeStart)
    else if start > |b| || end > |b| then Err(SubstringRangeBeyond)
    else Ok(JsSlice(b, start, end))
  }

  function BigEndian(n: nat, width: nat): Bytes {
    if width == 0 then [] else BigEndian(n / 256, width - 1) + [n % 256]
  }

  function FromBigEndian(b: Bytes): nat {
    if b == [] then 0 else 256 * FromBigEndian(b[..|b| - 1]) + b[|b| - 1]
  }

  function EncodeUint64(n: int): Result<Bytes> {
    if IsUint64(n) then Ok(BigEndian(n, 8)) else Err(NotUint64)
  }

  function DecodeUint64(b: Bytes): Result<int> {
    if 1 <= |b| <= 8 then Ok(FromBigEndian(b)) else Err(BadLengthForUint64)
  }

  function IsUint8(n: int): bool {
    0 <= n <= 255
  }

  // ---- Transaction fields ----

  function FieldOf(tx: Txn, field: string, env: Env): Result<FieldValue> {
    if field == "FirstValidTime" then Err(RejectedByLogic)
    else if field in tx.fields then Ok(tx.fields[field])
    else Ok(env.fieldDefault(field))
  }

  /** Item of an array field; item 0 of Accounts and Applications is the sender and the current application. */
  function ArrayItem(tx: Txn, field: string, item: nat, env: Env): Result<FieldValue> {
    if field !in tx.arrays then Ok(env.fieldDefault(field))
    else if field == "Accounts" && item == 0 then Ok(Data(env.publicKey(tx.snd)))
    else if field == "Applications" && item == 0 then Ok(Number(AppIdOf(tx)))
    else
      var k := if field == "Accounts" || field == "Applications" then item - 1 else item;
      if k < |tx.arrays[field]| then Ok(tx.arrays[field][k]) else Err(IndexOutOfBound)
  }

  function GroupTxn(c: TealCtx, t: int): Result<Txn> {
    if !IsUint8(t) then Err(InvalidUint8)
    else if t >= |c.gtxs| then Err(IndexOutOfBound)
    else Ok(c.gtxs[t])
  }

  function AppIdOf(tx: Txn): nat {
    if tx.apid.Some? then tx.apid.value else 0
  }

  // ---- Ledger reads ----

  /** Address of the account an index denotes: 0 is the sender, i > 0 the (i-1)th listed account. */
  function AccountAt(st: State, c: TealCtx, index: int): Result<Address> {
    if index == 0 then
      if c.tx.snd in st.accounts then Ok(c.tx.snd) else Err(AccountDoesNotExist)
    else if c.tx.apat.None? then Err(JsTypeError)
    else if !(0 <= index - 1 < |c.tx.apat.value|) then Err(IndexOutOfBound)
    else
      var a := c.tx.apat.value[index - 1];
      if a in st.accounts then Ok(a) else Err(AccountDoesNotExist)
  }

  /** Creator address of an application that exists. */
  function AppOwner(st: State, appID: nat): Result<Address> {
    if appID !in st.globalApps then Err(AppNotFound)
    else
      var a := st.globalApps[appID];
      if a !in st.accounts then Err(AccountDoesNotExist)
      else if appID !in st.accounts[a].createdApps then Err(AppNotFound)
      else Ok(a)
  }

  function LocalValue(acc: Account, appID: int, key: Bytes): Option<StackElem> {
    if appID >= 0 && appID in acc.appsLocalState && key in acc.appsLocalState[appID].kv
    then Some(acc.appsLocalState[appID].kv[key]) else None
  }

  function GlobalValue(st: State, appID: nat, key: Bytes): Result<Option<StackElem>> {
    var a :- AppOwner(st, appID);
    var globals := st.accounts[a].createdApps[appID].globals;
    Ok(if key in globals then Some(globals[key]) else None)
  }

  /** The interpreter tests a stored value with `if (val)`, so a stored integer zero counts as absent. */
  predicate Truthy(v: Option<StackElem>) {
    v.Some? && v.value != Int(0)
  }

  function PushValue(m: Machine, v: Option<StackElem>): Result<Machine> {
    Push(m, if Truthy(v) then v.value else Int(0))
  }

  function PushValueEx(m: Machine, v: Option<StackElem>): Result<Machine> {
    if Truthy(v) then PushPair(m, v.value, Int(1)) else PushPair(m, Int(0), Int(0))
  }

  function NumInts(kv: StateMap): nat {
    |set k | k in kv && kv[k].Int?|
  }

  function NumByteSlices(kv: StateMap): nat {
    |set k | k in kv && kv[k].Ref?|
  }

  predicate ValidSchema(kv: StateMap, schema: Schema) {
    NumInts(kv) <= schema.numUint && NumByteSlices(kv) <= schema.numByteSlice
  }

  function SetAccount(st: State, a: Address, acc: Account): State {
    st.(accounts := st.accounts[a := acc])
  }

  function WithLocal(acc: Account, appID: nat, kv: StateMap): Account
    requires appID in acc.appsLocalState
  {
    acc.(appsLocalState := acc.appsLocalState[appID := acc.appsLocalState[appID].(kv := kv)])
  }

  function WithGlobals(acc: Account, appID: nat, globals: StateMap): Account
    requires appID in acc.createdApps
  {
    acc.(createdApps := acc.createdApps[appID := acc.createdApps[appID].(globals := globals)])
  }

  // ---- Operators on two or three stack entries ----

  function StepArith(op: ArithOp, m: Machine): Result<Machine>
  {
    match op
    case Binary(k) =>
      var _ :- Require(|m.stack| >= 2, AssertStackLength);
      var last :- AsInt(Peek(m, 0));
      var prev :- AsInt(Peek(m, 1));
      var v :- ArithValue(k, prev, last);
      Push(Drop(m, 2), Int(v))
    case Equal(negated) =>
      var _ :- Require(|m.stack| >= 2, AssertStackLength);
      var last, prev := Peek(m, 0), Peek(m, 1);
      if last.Int? != prev.Int? then Err(InvalidType)
      else
        var same := if last.Int? then last.n == prev.n else Deref(m.st.heap, last.r) == Deref(m.st.heap, prev.r);
        PushBool(Drop(m, 2), same != negated)
    case Not =>
      var _ :- Require(|m.stack| >= 1, AssertStackLength);
      var last :- AsInt(Peek(m, 0));
      PushBool(Drop(m, 1), last == 0)
    case BitwiseNot =>
      var _ :- Require(|m.stack| >= 1, AssertStackLength);
      var last :- AsInt(Peek(m, 0));
      Push(Drop(m, 1), Int(-last - 1))
    case Addw =>
      var _ :- Require(|m.stack| >= 2, AssertStackLength);
      var a :- AsInt(Peek(m, 0));
      var b :- AsInt(Peek(m, 1));
      var parts := AddwParts(a, b);
      PushPair(Drop(m, 2), Int(parts.0), Int(parts.1))
    case Mulw =>
      var _ :- Require(|m.stack| >= 2, AssertStackLength);
      var a :- AsInt(Peek(m, 0));
      var b :- AsInt(Peek(m, 1));
      var parts := MulwParts(a, b);
      var _ :- Require(parts.1 <= MAX_UINT64, Uint64Overflow);
      var _ :- Require(parts.0 <= MAX_UINT64, Uint64Overflow);
      PushPair(Drop(m, 2), Int(parts.0), Int(parts.1))
  }

  // ---- Byte-string operators ----

  function StepBytes(op: BytesOp, m: Machine, env: Env): Result<Machine>
  {
    match op
    case Len =>
      var _ :- Require(|m.stack| >= 1, AssertStackLength);
      var b :- AsBytes(m, Peek(m, 0));
      Push(Drop(m, 1), Int(|b|))
    case Itob =>
      var _ :- Require(|m.stack| >= 1, AssertStackLength);
      var n :- AsInt(Peek(m, 0));
      var b :- EncodeUint64(n);
      PushData(Drop(m, 1), b)
    case Btoi =>
      var _ :- Require(|m.stack| >= 1, AssertStackLength);
      var b :- AsBytes(m, Peek(m, 0));
      var n :- DecodeUint64(b);
      Push(Drop(m, 1), Int(n))
    case Concat =>
      var _ :- Require(|m.stack| >= 2, AssertStackLength);
      var a :- AsBytes(m, Peek(m, 0));
      var b :- AsBytes(m, Peek(m, 1));
      var _ :- Require(|a| + |b| <= MAX_CONCAT_SIZE, ConcatError);
      PushData(Drop(m, 2), b + a)
    case Substring(start, end) =>
      var _ :- Require(|m.stack| >= 1, StackEmpty);
      var b :- AsBytes(m, Peek(m, 0));
      var _ :- Require(IsUint8(start) && IsUint8(end), InvalidUint8);
      var r :- SubString(start, end, b);
      PushData(Drop(m, 1), r)
    case Substring3 =>
      var _ :- Require(|m.stack| >= 1, StackEmpty);
      var b :- AsBytes(m, Peek(m, 0));
      var _ :- Require(|m.stack| >= 2, StackEmpty);
      var end :- AsInt(Peek(m, 1));
      var _ :- Require(|m.stack| >= 3, StackEmpty);
      var start :- AsInt(Peek(m, 2));
      var r :- SubString(start, end, b);
      PushData(Drop(m, 3), r)
    case Hash(k) =>
      var _ :- Require(|m.stack| >= 1, AssertStackLength);
      var b :- AsBytes(m, Peek(m, 0));
      PushData(Drop(m, 1), env.hash(k, b))
    case Ed25519verify =>
      var _ :- Require(|m.stack| >= 3, AssertStackLength);
      var pubkey :- AsBytes(m, Peek(m, 0));
      var signature :- AsBytes(m, Peek(m, 1));
      var data :- AsBytes(m, Peek(m, 2));
      PushBool(Drop(m, 3), env.verify(data, signature, pubkey))
  }

  // ---- Bit and byte operators: byte arrays change in place ----

  function StepBits(op: BitsOp, m: Machine): Result<Machine>
  {
    match op
    case SetBit =>
      var _ :- Require(|m.stack| >= 3, AssertStackLength);
      var bit :- AsInt(Peek(m, 0));
      var index :- AsInt(Peek(m, 1));
      var _ :- Require(bit <= 1, SetBitValueError);
      (match Peek(m, 2)
       case Int(x) =>
         var v :- SetBitInt(x, index, bit);
         Push(Drop(m, 3), Int(v))
       case Ref(r) =>
         var b :- SetBitBytes(Deref(m.st.heap, r), index, bit);
         Push(WriteArray(Drop(m, 3), r, b), Ref(r)))
    case GetBit =>
      var _ :- Require(|m.stack| >= 2, AssertStackLength);
      var index :- AsInt(Peek(m, 0));
      (match Peek(m, 1)
       case Int(x) =>
         var v :- GetBitInt(x, index);
         Push(Drop(m, 2), Int(v))
       case Ref(r) =>
         var v :- GetBitBytes(Deref(m.st.heap, r), index);
         Push(Drop(m, 2), Int(v)))
    case SetByte =>
      var _ :- Require(|m.stack| >= 3, AssertStackLength);
      var small :- AsInt(Peek(m, 0));
      var index :- AsInt(Peek(m, 1));
      var r :- AsRef(Peek(m, 2));
      var target := Deref(m.st.heap, r);
      var _ :- Require(IsUint8(small), InvalidUint8);
      var _ :- Require(index < |target|, SetBitIndexBytesError);
      Push(WriteArray(Drop(m, 3), r, if index < 0 then target else target[index := small]), Ref(r))
    case GetByte =>
      var _ :- Require(|m.stack| >= 2, AssertStackLength);
      var index :- AsInt(Peek(m, 0));
      var target :- AsBytes(m, Peek(m, 1));
      var _ :- Require(index < |target|, SetBitIndexBytesError);
      var _ :- Require(index >= 0, JsTypeError);
      Push(Drop(m, 2), Int(target[index]))
  }

  /** Overwrites the byte array a reference points to; every other reference to it sees the change. */
  function WriteArray(m: Machine, r: Loc, b: Bytes): Machine {
    m.(st := m.st.(heap := Write(m.st.heap, r, b)))
  }

  function Write(heap: Heap, r: Loc, b: Bytes): Heap {
    match r
    case Own(i) => heap.(own := Updated(heap.own, i, b))
    case Shared(i) => heap.(shared := Updated(heap.shared, i, b))
  }

  function Updated(arrays: seq<Bytes>, i: nat, b: Bytes): seq<Bytes> {
    if i < |arrays| then arrays[i := b] else arrays
  }

  // ---- Stack shuffles, scratch space and constants ----

  function StepStack(op: StackOp, m: Machine): Result<Machine>
  {
    match op
    case Pop =>
      var _ :- Require(|m.stack| >= 1, AssertStackLength);
      Ok(Drop(m, 1))
    case Dup =>
      var _ :- Require(|m.stack| >= 1, AssertStackLength);
      Push(m, Peek(m, 0))
    case Dup2 =>
      var _ :- Require(|m.stack| >= 2, AssertStackLength);
      PushPair(m, Peek(m, 1), Peek(m, 0))
    case Swap =>
      var _ :- Require(|m.stack| >= 2, AssertStackLength);
      PushPair(Drop(m, 2), Peek(m, 0), Peek(m, 1))
    case Select =>
      var _ :- Require(|m.stack| >= 3, AssertStackLength);
      var toCheck :- AsInt(Peek(m, 0));
      Push(Drop(m, 3), if toCheck != 0 then Peek(m, 1) else Peek(m, 2))
    case Dig(depth) =>
      var _ :- Require(|m.stack| >= depth + 1, AssertStackLength);
      Push(m, Peek(m, depth))
    case Assert =>
      var _ :- Require(|m.stack| >= 1, AssertStackLength);
      var top :- AsInt(Peek(m, 0));
      var _ :- Require(top != 0, EncounteredErr);
      Ok(Drop(m, 1))
  }

  predicate InBounds(i: int, length: nat) {
    0 <= i < length
  }

  function StepConst(op: ConstOp, m: Machine): Result<Machine>
  {
    match op
    case Store(i) =>
      var _ :- Require(InBounds(i, |m.scratch|), IndexOutOfBound);
      var _ :- Require(|m.stack| >= 1, AssertStackLength);
      Ok(Drop(m, 1).(scratch := m.scratch[i := Peek(m, 0)]))
    case Load(i) =>
      var _ :- Require(InBounds(i, |m.scratch|), IndexOutOfBound);
      Push(m, m.scratch[i])
    case Intcblock(ints) =>
      var _ :- Require(1 <= |ints| <= 256, AssertArrLength);
      Ok(m.(intcblock := ints))
    case Intc(i) =>
      var _ :- Require(InBounds(i, |m.intcblock|), IndexOutOfBound);
      Push(m, Int(m.intcblock[i]))
    case Bytecblock(blocks) =>
      var _ :- Require(1 <= |blocks| <= 256, AssertArrLength);
      var h := |m.st.heap.own|;
      Ok(m.(bytecblock := seq(|blocks|, i => h + i), st := m.st.(heap := Alloc(m.st.heap, blocks))))
    case Bytec(i) =>
      var _ :- Require(InBounds(i, |m.bytecblock|), IndexOutOfBound);
      Push(m, Ref(Own(m.bytecblock[i])))
    case Arg(i) =>
      var _ :- Require(InBounds(i, |m.st.args|), IndexOutOfBound);
      Push(m, Ref(Shared(m.st.args[i])))
    case PushInt(n) => Push(m, Int(n))
    case PushBytes(b) => PushData(m, b)
  }

  // ---- Transaction and global fields ----

  function StepTxn(op: TxnOp, m: Machine, c: TealCtx): Result<Machine>
  {
    match op
    case TxnField(f) =>
      var v :- FieldOf(c.tx, f, c.env);
      PushField(m, v)
    case TxnArray(f, item) =>
      var v :- ArrayItem(c.tx, f, item, c.env);
      PushField(m, v)
    case GtxnField(t, f) =>
      var tx :- GroupTxn(c, t);
      var v :- FieldOf(tx, f, c.env);
      PushField(m, v)
    case GtxnArray(t, f, item) =>
      var tx :- GroupTxn(c, t);
      var v :- ArrayItem(tx, f, item, c.env);
      PushField(m, v)
    case GtxnsField(f) =>
      var _ :- Require(|m.stack| >= 1, AssertStackLength);
      var t :- AsInt(Peek(m, 0));
      var tx :- GroupTxn(c, t);
      var v :- FieldOf(tx, f, c.env);
      PushField(Drop(m, 1), v)
    case GtxnsArray(f, item) =>
      var _ :- Require(|m.stack| >= 1, AssertStackLength);
      var t :- AsInt(Peek(m, 0));
      var tx :- GroupTxn(c, t);
      var v :- ArrayItem(tx, f, item, c.env);
      PushField(Drop(m, 1), v)
  }

  function GlobalFieldValue(g: GlobalField, st: State, c: TealCtx): Result<FieldValue> {
    match g
    case MinTxnFee => Ok(Number(1000))
    case MinBalanceConst => Ok(Number(10000))
    case MaxTxnLife => Ok(Number(1000))
    case ZeroAddress => Ok(ZeroAddressOfTable)
    case GroupSize => Ok(Number(|c.gtxs|))
    case LogicSigVersion => Ok(Number(3))
    case Round => Ok(Number(c.round))
    case LatestTimestamp => Ok(Number(c.timestamp))
    case CurrentApplicationID =>
      var _ :- Require(c.tx.apid.Some?, AppNotFound);
      var _ :- AppOwner(st, c.tx.apid.value);
      Ok(Number(c.tx.apid.value))
    case CreatorAddress =>
      var _ :- Require(c.tx.apid.Some?, AppNotFound);
      var a :- AppOwner(st, c.tx.apid.value);
      Ok(Data(c.env.publicKey(st.accounts[a].createdApps[c.tx.apid.value].creator)))
  }

  function StepGlobal(g: GlobalField, m: Machine, c: TealCtx): Result<Machine> {
    var v :- GlobalFieldValue(g, m.st, c);
    PushField(m, v)
  }

  // ---- Application state: reads ----

  function StepAppRead(op: AppReadOp, m: Machine, c: TealCtx): Result<Machine>
  {
    match op
    case AppOptedIn =>
      var _ :- Require(|m.stack| >= 2, AssertStackLength);
      var appID :- AsInt(Peek(m, 0));
      var index :- AsInt(Peek(m, 1));
      var a :- AccountAt(m.st, c, index);
      PushBool(Drop(m, 2), appID >= 0 && appID in m.st.accounts[a].appsLocalState)
    case AppLocalGet =>
      var _ :- Require(|m.stack| >= 2, AssertStackLength);
      var key :- AsBytes(m, Peek(m, 0));
      var index :- AsInt(Peek(m, 1));
      var a :- AccountAt(m.st, c, index);
      PushValue(Drop(m, 2), LocalValue(m.st.accounts[a], AppIdOf(c.tx), key))
    case AppLocalGetEx =>
      var _ :- Require(|m.stack| >= 3, AssertStackLength);
      var key :- AsBytes(m, Peek(m, 0));
      var appID :- AsInt(Peek(m, 1));
      var index :- AsInt(Peek(m, 2));
      var a :- AccountAt(m.st, c, index);
      PushValueEx(Drop(m, 3), LocalValue(m.st.accounts[a], appID, key))
    case AppGlobalGet =>
      var _ :- Require(|m.stack| >= 1, AssertStackLength);
      var key :- AsBytes(m, Peek(m, 0));
      var v :- GlobalValue(m.st, AppIdOf(c.tx), key);
      PushValue(Drop(m, 1), v)
    case AppGlobalGetEx =>
      var _ :- Require(|m.stack| >= 2, AssertStackLength);
      var key :- AsBytes(m, Peek(m, 0));
      var index :- AsInt(Peek(m, 1));
      var appID :- ForeignApp(c.tx, index);
      var v :- GlobalValue(m.st, appID, key);
      PushValueEx(Drop(m, 2), v)
    case Balance =>
      var _ :- Require(|m.stack| >= 1, AssertStackLength);
      var index :- AsInt(Peek(m, 0));
      var a :- AccountAt(m.st, c, index);
      Push(Drop(m, 1), Int(m.st.accounts[a].amount))
    case MinBalance =>
      var _ :- Require(|m.stack| >= 1, AssertStackLength);
      var index :- AsInt(Peek(m, 0));
      var a :- AccountAt(m.st, c, index);
      Push(Drop(m, 1), Int(m.st.accounts[a].minBalance))
    case AssetHoldingGet(field) =>
      var _ :- Require(|m.stack| >= 2, AssertStackLength);
      var assetId :- AsInt(Peek(m, 0));
      var index :- AsInt(Peek(m, 1));
      var a :- AccountAt(m.st, c, index);
      var acc := m.st.accounts[a];
      if !(assetId >= 0 && assetId in acc.assets) then PushPair(Drop(m, 2), Int(0), Int(0))
      else match field
        case AssetBalance => PushPair(Drop(m, 2), Int(acc.assets[assetId].amount), Int(1))
        case AssetFrozen => PushPair(Drop(m, 2), Int(if acc.assets[assetId].frozen then 1 else 0), Int(1))
        case OtherHoldingField => Err(InvalidFieldType)
  }

  /** Application a foreign-app index denotes: 0 is the current one, which a creation call does not have. */
  function ForeignApp(tx: Txn, index: int): Result<nat> {
    if index == 0 then (if tx.apid.Some? then Ok(tx.apid.value) else Err(AppNotFound))
    else if tx.apfa.None? then Err(JsTypeError)
    else if !InBounds(index - 1, |tx.apfa.value|) then Err(IndexOutOfBound)
    else Ok(tx.apfa.value[index - 1])
  }

  function ParamValue(d: AssetDef, f: ParamField, env: Env): FieldValue {
    match f
    case AssetTotal => Number(d.total)
    case AssetDecimals => Number(d.decimals)
    case AssetDefaultFrozen => Number(if d.defaultFrozen then 1 else 0)
    case AssetUnitName => Data(env.text(d.unitName))
    case AssetName => Data(env.text(d.name))
    case AssetURL => Data(env.text(d.url))
    case AssetMetadataHash => Data(env.text(d.metadataHash))
    case AssetManager => Data(env.text(d.manager))
    case AssetReserve => Data(env.text(d.reserve))
    case AssetFreeze => Data(env.text(d.freeze))
    case AssetClawback => Data(env.text(d.clawback))
  }

  /** Definition of an asset, if some account still has it as a created asset. */
  function FindAssetDef(st: State, id: nat): Result<Option<AssetDef>> {
    if id !in st.assetDefs then Ok(None)
    else
      var a := st.assetDefs[id];
      if a !in st.accounts then Err(AccountDoesNotExist)
      else Ok(if id in st.accounts[a].createdAssets then Some(st.accounts[a].createdAssets[id]) else None)
  }

  /** `asset_params_get` pops one entry and pushes two, so its second push can overflow after the first allocated. */
  function StepAssetParams(f: ParamField, m: Machine, c: TealCtx): Exec {
    if |m.stack| < 1 then Fail(AssertStackLength, m.st)
    else if !Peek(m, 0).Int? then Fail(InvalidType, m.st)
    else
      var index := Peek(m, 0).n;
      if c.tx.apas.None? then Fail(JsTypeError, m.st)
      else if !InBounds(index, |c.tx.apas.value|) then Fail(IndexOutOfBound, m.st)
      else match FindAssetDef(m.st, c.tx.apas.value[index])
        case Err(e) => Fail(e, m.st)
        case Ok(None) => ToExec(PushPair(Drop(m, 1), Int(0), Int(0)), m.st)
        case Ok(Some(d)) =>
          match PushField(Drop(m, 1), ParamValue(d, f, c.env))
          case Err(e) => Fail(e, m.st)
          case Ok(m1) => ToExec(Push(m1, Int(1)), m1.st)
  }

  // ---- Application state: writes ----

  /** The new pair is stored before the schema is checked. */
  function StepLocalPut(m: Machine, c: TealCtx): Exec {
    if |m.stack| < 3 then Fail(AssertStackLength, m.st)
    else if !Peek(m, 1).Ref? || !Peek(m, 2).Int? then Fail(InvalidType, m.st)
    else
      var value, key := Peek(m, 0), Deref(m.st.heap, Peek(m, 1).r);
      match AccountAt(m.st, c, Peek(m, 2).n)
      case Err(e) => Fail(e, m.st)
      case Ok(a) =>
        var acc, appID := m.st.accounts[a], AppIdOf(c.tx);
        if appID !in acc.appsLocalState then Fail(AppNotFound, m.st)
        else
          var kv := acc.appsLocalState[appID].kv[key := value];
          var st := SetAccount(m.st, a, WithLocal(acc, appID, kv));
          if ValidSchema(kv, acc.appsLocalState[appID].schema) then Cont(Drop(m, 3).(st := st))
          else Fail(InvalidSchema, st)
  }

  function StepGlobalPut(m: Machine, c: TealCtx): Exec {
    if |m.stack| < 2 then Fail(AssertStackLength, m.st)
    else if !Peek(m, 1).Ref? then Fail(InvalidType, m.st)
    else
      var value, key := Peek(m, 0), Deref(m.st.heap, Peek(m, 1).r);
      match AppOwner(m.st, AppIdOf(c.tx))
      case Err(e) => Fail(e, m.st)
      case Ok(a) =>
        var acc, appID := m.st.accounts[a], AppIdOf(c.tx);
        var globals := acc.createdApps[appID].globals[key := value];
        var st := SetAccount(m.st, a, WithGlobals(acc, appID, globals));
        if ValidSchema(globals, acc.createdApps[appID].globalSchema) then Cont(Drop(m, 2).(st := st))
        else Fail(InvalidSchema, st)
  }

  function StepLocalDel(m: Machine, c: TealCtx): Result<Machine> {
    var _ :- Require(|m.stack| >= 1, AssertStackLength);
    var key :- AsBytes(m, Peek(m, 0));
    var _ :- Require(|m.stack| >= 2, StackEmpty);
    var index :- AsInt(Peek(m, 1));
    var a :- AccountAt(m.st, c, index);
    var acc, appID := m.st.accounts[a], AppIdOf(c.tx);
    if appID !in acc.appsLocalState then Ok(Drop(m, 2))
    else Ok(Drop(m, 2).(st := SetAccount(m.st, a, WithLocal(acc, appID, acc.appsLocalState[appID].kv - {key}))))
  }

  function StepGlobalDel(m: Machine, c: TealCtx): Result<Machine> {
    var _ :- Require(|m.stack| >= 1, AssertStackLength);
    var key :- AsBytes(m, Peek(m, 0));
    var a :- AppOwner(m.st, AppIdOf(c.tx));
    var acc, appID := m.st.accounts[a], AppIdOf(c.tx);
    Ok(Drop(m, 1).(st := SetAccount(m.st, a, WithGlobals(acc, appID, acc.createdApps[appID].globals - {key}))))
  }

  // ---- One operator ----

  function ToExec(r: Result<Machine>, st: State): Exec {
    match r
    case Ok(m) => Cont(m)
    case Err(e) => Fail(e, st)
  }

  function StepBranch(op: BranchOp, m: Machine): Exec
  {
    if op.Branch? then Jump(op.target, m)
    else if |m.stack| < 1 then Fail(AssertStackLength, m.st)
    else if op.Return? then Halt(m.(stack := [Peek(m, 0)]))
    else if !Peek(m, 0).Int? then Fail(InvalidType, m.st)
    else if (Peek(m, 0).n == 0) == op.BranchIfZero? then Jump(op.target, Drop(m, 1))
    else Cont(Drop(m, 1))
  }

  function StepValue(op: ValueOp, m: Machine, env: Env): Result<Machine> {
    match op
    case OnInts(o) => StepArith(o, m)
    case OnBytes(o) => StepBytes(o, m, env)
    case OnBits(o) => StepBits(o, m)
    case OnStack(o) => StepStack(o, m)
    case Const(o) => StepConst(o, m)
  }

  function StepRead(op: ReadOp, m: Machine, c: TealCtx): Result<Machine> {
    match op
    case ReadTxn(o) => StepTxn(o, m, c)
    case ReadApp(o) => StepAppRead(o, m, c)
    case Global(g) => StepGlobal(g, m, c)
  }

  function Step(op: Op, m: Machine, c: TealCtx): Exec {
    match op
    case Pragma => Cont(m)
    case Label(_) => Cont(m)
    case ErrOp => Fail(EncounteredErr, m.st)
    case Value(o) => ToExec(StepValue(o, m, c.env), m.st)
    case Read(o) => ToExec(StepRead(o, m, c), m.st)
    case Control(o) => StepBranch(o, m)
    case AssetParamsGet(f) => StepAssetParams(f, m, c)
    case AppLocalPut => StepLocalPut(m, c)
    case AppGlobalPut => StepGlobalPut(m, c)
    case AppLocalDel => ToExec(StepLocalDel(m, c), m.st)
    case AppGlobalDel => ToExec(StepGlobalDel(m, c), m.st)
  }
}
