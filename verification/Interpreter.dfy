/** The TEAL interpreter as an object: operators pop and push one shared stack. */
module Interpreters {
  import opened Values
  import opened Bits
  import opened Teal
  import opened TealRun
  import opened Stores
  import opened Stacks
  import Parser

  /** Runs one program against a store. The store and everything the program reads besides it are fixed for the run. */
  class Interpreter {
    const stack: Stack
    const scratch: array<StackElem>
    const store: Store
    const args: seq<nat>
    const c: TealCtx
    var intcblock: seq<int>
    var bytecblock: seq<nat>
    var instructions: Program
    var instructionIndex: nat

    constructor (store: Store, args: seq<nat>, c: TealCtx)
      requires store.Valid()
      ensures fresh(stack) && fresh(scratch) && this.store == store && this.args == args && this.c == c
      ensures Valid() && M() == InitMachine(store.Abs(args)) && instructionIndex == 0
    {
      this.stack := new Stack(STACK_CAPACITY);
      this.scratch := new StackElem[SCRATCH_SIZE](_ => Int(0));
      this.store, this.args, this.c := store, args, c;
      intcblock, bytecblock, instructions, instructionIndex := [], [], [], 0;
      new;
      assert this.scratch[..] == seq(SCRATCH_SIZE, _ => Int(0));
    }

    ghost predicate Valid()
      reads stack, store, store.accounts.Values
    {
      store.Valid() && Fits()
    }

    /** The machine this interpreter is in. */
    ghost function M(): Machine
      reads `intcblock, `bytecblock, stack, scratch, store, store.shared, store.accounts.Values
    {
      Machine(stack.store, scratch[..], intcblock, bytecblock, store.Abs(args))
    }

    /** The machine `m` with the parts these operators can change as they are now. */
    ghost function Now(m: Machine): Machine
      reads `intcblock, `bytecblock, stack, scratch, store`heap, store.shared
    {
      Machine(stack.store, scratch[..], intcblock, bytecblock, m.st.(heap := store.Arrays()))
    }

    ghost predicate At(m: Machine)
      reads `intcblock, `bytecblock, stack, scratch, store`heap, store.shared
    {
      Fits() && m == Now(m)
    }

    ghost predicate Fits()
      reads stack
    {
      |stack.store| <= stack.capacity == STACK_CAPACITY
    }

    // ---- Values ----

    /** Pushes a reference to a newly allocated byte array. */
    method PushData(b: Bytes, ghost m: Machine) returns (o: Outcome)
      requires At(m)
      modifies stack, store`heap
      ensures Agrees(Teal.PushData(m, b), o, Now(m)) && Fits()
      ensures o.Throw? ==> store.Arrays() == old(store.Arrays())
    {
      o := Pass;
      :- stack.Push(Ref(Own(|store.heap|)));
      store.heap := store.heap + [b];
      return Pass;
    }

    method PushField(v: FieldValue, ghost m: Machine) returns (o: Outcome)
      requires At(m)
      modifies stack, store`heap
      ensures Agrees(Teal.PushField(m, v), o, Now(m)) && Fits()
      ensures o.Throw? ==> store.Arrays() == old(store.Arrays())
    {
      match v {
        case Number(n) => o := stack.Push(Int(n));
        case Data(b) => o := PushData(b, m);
        case ZeroAddressOfTable => o := stack.Push(Ref(ZERO_ADDRESS));
      }
    }

    /** Overwrites an array, where it is; nothing happens if there is none. */
    method WriteBytes(r: Loc, b: Bytes)
      modifies store`heap, store.shared
      ensures store.Arrays() == Write(old(store.Arrays()), r, b)
    {
      match r {
        case Own(i) =>
          if i < |store.heap| {
            store.heap := store.heap[i := b];
          }
        case Shared(i) =>
          if i < |store.shared.arrays| {
            store.shared.arrays := store.shared.arrays[i := b];
          }
      }
    }

    method PushTwo(e: StackElem, f: StackElem, ghost m: Machine) returns (o: Outcome)
      requires At(m)
      modifies stack
      ensures Agrees(PushPair(m, e, f), o, Now(m)) && Fits()
    {
      o := Pass;
      :- stack.Push(e);
      o := stack.Push(f);
    }

    /** The two integers on top of the stack. */
    static function IntArgs(m: Machine): Result<(int, int)> {
      var _ :- Require(|m.stack| >= 2, AssertStackLength);
      var last :- AsInt(Peek(m, 0));
      var prev :- AsInt(Peek(m, 1));
      Ok((prev, last))
    }

    /** The last operand is popped first. */
    method PopIntArgs(ghost m: Machine) returns (o: Outcome, prev: int, last: int)
      requires At(m)
      modifies stack
      ensures Agrees(IntArgs(m), o, (prev, last)) && Fits()
      ensures o == Pass ==> |m.stack| >= 2 && stack.store == Drop(m, 2).stack
    {
      prev, last := 0, 0;
      :- stack.AssertMinStackLen(2);
      last :- stack.PopInt();
      prev :- stack.PopInt();
      return Pass, prev, last;
    }

    /** Arithmetic, bitwise and comparison operators. */
    method ExecBinary(k: Arith, ghost m: Machine) returns (o: Outcome)
      requires At(m)
      modifies stack
      ensures Agrees(StepArith(Binary(k), m), o, Now(m)) && Fits()
    {
      var prev, last :- PopIntArgs(m);
      var v := ArithValue(k, prev, last);
      if v.Err? {
        return Throw(v.error);
      }
      o := stack.Push(Int(v.value));
    }

    method ExecEqual(negated: bool, ghost m: Machine) returns (o: Outcome)
      requires At(m)
      modifies stack
      ensures Agrees(StepArith(Equal(negated), m), o, Now(m)) && Fits()
    {
      o := Pass;
      :- stack.AssertMinStackLen(2);
      var _, last := stack.Pop();
      var _, prev := stack.Pop();
      if last.Int? != prev.Int? {
        return Throw(InvalidType);
      }
      var same := if last.Int? then last.n == prev.n else Deref(store.Arrays(), last.r) == Deref(store.Arrays(), prev.r);
      o := stack.Push(Int(if same != negated then 1 else 0));
    }

    method ExecNot(ghost m: Machine) returns (o: Outcome)
      requires At(m)
      modifies stack
      ensures Agrees(StepArith(Not, m), o, Now(m)) && Fits()
    {
      o := Pass;
      :- stack.AssertMinStackLen(1);
      var last :- stack.PopInt();
      o := stack.Push(Int(if last == 0 then 1 else 0));
    }

    method ExecBitwiseNot(ghost m: Machine) returns (o: Outcome)
      requires At(m)
      modifies stack
      ensures Agrees(StepArith(BitwiseNot, m), o, Now(m)) && Fits()
    {
      o := Pass;
      :- stack.AssertMinStackLen(1);
      var last :- stack.PopInt();
      o := stack.Push(Int(-last - 1));
    }

    method ExecAddw(ghost m: Machine) returns (o: Outcome)
      requires At(m)
      modifies stack
      ensures Agrees(StepArith(Addw, m), o, Now(m)) && Fits()
    {
      o := Pass;
      :- stack.AssertMinStackLen(2);
      var valueA :- stack.PopInt();
      var valueB :- stack.PopInt();
      var parts := AddwParts(valueA, valueB);
      var _ := stack.Push(Int(parts.0));
      o := stack.Push(Int(parts.1));
    }

    method ExecMulw(ghost m: Machine) returns (o: Outcome)
      requires At(m)
      modifies stack
      ensures Agrees(StepArith(Mulw, m), o, Now(m)) && Fits()
    {
      o := Pass;
      :- stack.AssertMinStackLen(2);
      var valueA :- stack.PopInt();
      var valueB :- stack.PopInt();
      var parts := MulwParts(valueA, valueB);
      :- Ensure(parts.1 <= MAX_UINT64, Uint64Overflow);
      :- Ensure(parts.0 <= MAX_UINT64, Uint64Overflow);
      var _ := stack.Push(Int(parts.0));
      o := stack.Push(Int(parts.1));
    }

    method ExecArith(op: ArithOp, ghost m: Machine) returns (o: Outcome)
      requires At(m)
      modifies stack
      ensures Agrees(StepArith(op, m), o, Now(m)) && Fits()
    {
      match op {
        case Binary(k) => o := ExecBinary(k, m);
        case Equal(negated) => o := ExecEqual(negated, m);
        case Not => o := ExecNot(m);
        case BitwiseNot => o := ExecBitwiseNot(m);
        case Addw => o := ExecAddw(m);
        case Mulw => o := ExecMulw(m);
      }
    }

    method ExecLen(ghost m: Machine) returns (o: Outcome)
      requires At(m)
      modifies stack
      ensures Agrees(StepBytes(Len, m, c.env), o, Now(m)) && Fits()
    {
      o := Pass;
      :- stack.AssertMinStackLen(1);
      var r :- stack.PopRef();
      o := stack.Push(Int(|Deref(store.Arrays(), r)|));
    }

    method ExecItob(ghost m: Machine) returns (o: Outcome)
      requires At(m)
      modifies stack, store`heap
      ensures Agrees(StepBytes(Itob, m, c.env), o, Now(m)) && Fits()
      ensures o.Throw? ==> store.Arrays() == old(store.Arrays())
    {
      o := Pass;
      :- stack.AssertMinStackLen(1);
      var n :- stack.PopInt();
      var b := EncodeUint64(n);
      if b.Err? {
        return Throw(b.error);
      }
      o := PushData(b.value, Drop(m, 1));
    }

    method ExecBtoi(ghost m: Machine) returns (o: Outcome)
      requires At(m)
      modifies stack
      ensures Agrees(StepBytes(Btoi, m, c.env), o, Now(m)) && Fits()
    {
      o := Pass;
      :- stack.AssertMinStackLen(1);
      var r :- stack.PopRef();
      var n := DecodeUint64(Deref(store.Arrays(), r));
      if n.Err? {
        return Throw(n.error);
      }
      o := stack.Push(Int(n.value));
    }

    method ExecConcat(ghost m: Machine) returns (o: Outcome)
      requires At(m)
      modifies stack, store`heap
      ensures Agrees(StepBytes(Concat, m, c.env), o, Now(m)) && Fits()
      ensures o.Throw? ==> store.Arrays() == old(store.Arrays())
    {
      o := Pass;
      :- stack.AssertMinStackLen(2);
      var r :- stack.PopRef();
      var q :- stack.PopRef();
      var valueA, valueB := Deref(store.Arrays(), r), Deref(store.Arrays(), q);
      :- Ensure(|valueA| + |valueB| <= MAX_CONCAT_SIZE, ConcatError);
      o := PushData(valueB + valueA, Drop(m, 2));
    }

    method ExecSubstring(start: int, end: int, ghost m: Machine) returns (o: Outcome)
      requires At(m)
      modifies stack, store`heap
      ensures Agrees(StepBytes(Substring(start, end), m, c.env), o, Now(m)) && Fits()
      ensures o.Throw? ==> store.Arrays() == old(store.Arrays())
    {
      var r :- stack.PopRef();
      :- Ensure(IsUint8(start) && IsUint8(end), InvalidUint8);
      var b := SubString(start, end, Deref(store.Arrays(), r));
      if b.Err? {
        return Throw(b.error);
      }
      o := PushData(b.value, Drop(m, 1));
    }

    method ExecSubstring3(ghost m: Machine) returns (o: Outcome)
      requires At(m)
      modifies stack, store`heap
      ensures Agrees(StepBytes(Substring3, m, c.env), o, Now(m)) && Fits()
      ensures o.Throw? ==> store.Arrays() == old(store.Arrays())
    {
      var r :- stack.PopRef();
      var end :- stack.PopInt();
      var start :- stack.PopInt();
      var b := SubString(start, end, Deref(store.Arrays(), r));
      if b.Err? {
        return Throw(b.error);
      }
      o := PushData(b.value, Drop(m, 3));
    }

    method ExecHash(k: HashKind, ghost m: Machine) returns (o: Outcome)
      requires At(m)
      modifies stack, store`heap
      ensures Agrees(StepBytes(Hash(k), m, c.env), o, Now(m)) && Fits()
      ensures o.Throw? ==> store.Arrays() == old(store.Arrays())
    {
      o := Pass;
      :- stack.AssertMinStackLen(1);
      var r :- stack.PopRef();
      o := PushData(c.env.hash(k, Deref(store.Arrays(), r)), Drop(m, 1));
    }

    method ExecEd25519verify(ghost m: Machine) returns (o: Outcome)
      requires At(m)
      modifies stack
      ensures Agrees(StepBytes(Ed25519verify, m, c.env), o, Now(m)) && Fits()
    {
      o := Pass;
      :- stack.AssertMinStackLen(3);
      var pubkey :- stack.PopRef();
      var signature :- stack.PopRef();
      var data :- stack.PopRef();
      var h := store.Arrays();
      o := stack.Push(Int(if c.env.verify(Deref(h, data), Deref(h, signature), Deref(h, pubkey)) then 1 else 0));
    }

    method ExecBytes(op: BytesOp, ghost m: Machine) returns (o: Outcome)
      requires At(m)
      modifies stack, store`heap
      ensures Agrees(StepBytes(op, m, c.env), o, Now(m)) && Fits()
      ensures o.Throw? ==> store.Arrays() == old(store.Arrays())
    {
      match op {
        case Len => o := ExecLen(m);
        case Itob => o := ExecItob(m);
        case Btoi => o := ExecBtoi(m);
        case Concat => o := ExecConcat(m);
        case Substring(start, end) => o := ExecSubstring(start, end, m);
        case Substring3 => o := ExecSubstring3(m);
        case Hash(k) => o := ExecHash(k, m);
        case Ed25519verify => o := ExecEd25519verify(m);
      }
    }

    /** Sets a bit of an integer, or of a byte array in place. */
    method ExecSetBit(ghost m: Machine) returns (o: Outcome)
      requires At(m)
      modifies stack, store`heap, store.shared
      ensures Agrees(StepBits(SetBit, m), o, Now(m)) && Fits()
      ensures o.Throw? ==> store.Arrays() == old(store.Arrays())
    {
      var target, index, bit :- PopSetBitArgs(m);
      o := SetBitOf(target, index, bit, Drop(m, 3));
    }

    static function SetBitArgs(m: Machine): Result<(StackElem, int, int)> {
      var _ :- Require(|m.stack| >= 3, AssertStackLength);
      var bit :- AsInt(Peek(m, 0));
      var index :- AsInt(Peek(m, 1));
      var _ :- Require(bit <= 1, SetBitValueError);
      Ok((Peek(m, 2), index, bit))
    }

    method PopSetBitArgs(ghost m: Machine) returns (o: Outcome, target: StackElem, index: int, bit: int)
      requires At(m)
      modifies stack
      ensures Agrees(SetBitArgs(m), o, (target, index, bit)) && Fits()
      ensures o == Pass ==> |m.stack| >= 3 && stack.store == Drop(m, 3).stack
    {
      target, index, bit := Int(0), 0, 0;
      :- stack.AssertMinStackLen(3);
      bit :- stack.PopInt();
      index :- stack.PopInt();
      o, target := stack.Pop();
      o := Ensure(bit <= 1, SetBitValueError);
    }

    static function BitSet(m: Machine, target: StackElem, index: int, bit: int): Result<Machine> {
      match target
      case Int(x) =>
        var v :- SetBitInt(x, index, bit);
        Push(m, Int(v))
      case Ref(r) =>
        var b :- SetBitBytes(Deref(m.st.heap, r), index, bit);
        Push(WriteArray(m, r, b), Ref(r))
    }

    /** An integer is pushed anew; a byte array is changed where it is. */
    method SetBitOf(target: StackElem, index: int, bit: int, ghost m: Machine) returns (o: Outcome)
      requires At(m) && |m.stack| < STACK_CAPACITY
      modifies stack, store`heap, store.shared
      ensures Agrees(BitSet(m, target, index, bit), o, Now(m)) && Fits()
      ensures o.Throw? ==> store.Arrays() == old(store.Arrays())
    {
      match target {
        case Int(x) =>
          var v := SetBitOfInt(x, index, bit);
          if v.Err? {
            return Throw(v.error);
          }
          o := stack.Push(Int(v.value));
        case Ref(r) =>
          var b := SetBitBytes(Deref(store.Arrays(), r), index, bit);
          if b.Err? {
            return Throw(b.error);
          }
          WriteBytes(r, b.value);
          o := stack.Push(target);
      }
    }

    method ExecGetBit(ghost m: Machine) returns (o: Outcome)
      requires At(m)
      modifies stack
      ensures Agrees(StepBits(GetBit, m), o, Now(m)) && Fits()
    {
      o := Pass;
      :- stack.AssertMinStackLen(2);
      var index :- stack.PopInt();
      var _, target := stack.Pop();
      match target {
        case Int(x) =>
          var v := GetBitInt(x, index);
          if v.Err? {
            return Throw(v.error);
          }
          o := stack.Push(Int(v.value));
        case Ref(r) =>
          var v := GetBitBytes(Deref(store.Arrays(), r), index);
          if v.Err? {
            return Throw(v.error);
          }
          o := stack.Push(Int(v.value));
      }
    }

    /** Overwrites a byte of an array in place. */
    method ExecSetByte(ghost m: Machine) returns (o: Outcome)
      requires At(m)
      modifies stack, store`heap, store.shared
      ensures Agrees(StepBits(SetByte, m), o, Now(m)) && Fits()
      ensures o.Throw? ==> store.Arrays() == old(store.Arrays())
    {
      o := Pass;
      :- stack.AssertMinStackLen(3);
      var smallInteger :- stack.PopInt();
      var index :- stack.PopInt();
      var r :- stack.PopRef();
      :- Ensure(IsUint8(smallInteger), InvalidUint8);
      o := SetByteOf(r, index, smallInteger, Drop(m, 3));
    }

    static function ByteSet(m: Machine, r: Loc, index: int, value: int): Result<Machine>
      requires IsUint8(value)
    {
      var target := Deref(m.st.heap, r);
      var _ :- Require(index < |target|, SetBitIndexBytesError);
      Push(WriteArray(m, r, if index < 0 then target else target[index := value]), Ref(r))
    }

    /** A negative index writes nothing. */
    method SetByteOf(r: Loc, index: int, value: int, ghost m: Machine) returns (o: Outcome)
      requires At(m) && |m.stack| < STACK_CAPACITY && IsUint8(value)
      modifies stack, store`heap, store.shared
      ensures Agrees(ByteSet(m, r, index, value), o, Now(m)) && Fits()
      ensures o.Throw? ==> store.Arrays() == old(store.Arrays())
    {
      o := Pass;
      :- Ensure(index < |Deref(store.Arrays(), r)|, SetBitIndexBytesError);
      var target := Deref(store.Arrays(), r);
      if index >= 0 {
        WriteBytes(r, target[index := value]);
      } else {
        assert Write(store.Arrays(), r, target) == store.Arrays();
      }
      o := stack.Push(Ref(r));
    }

    method ExecGetByte(ghost m: Machine) returns (o: Outcome)
      requires At(m)
      modifies stack
      ensures Agrees(StepBits(GetByte, m), o, Now(m)) && Fits()
    {
      o := Pass;
      :- stack.AssertMinStackLen(2);
      var index :- stack.PopInt();
      var r :- stack.PopRef();
      var target := Deref(store.Arrays(), r);
      :- Ensure(index < |target|, SetBitIndexBytesError);
      :- Ensure(index >= 0, JsTypeError);
      o := stack.Push(Int(target[index]));
    }

    method ExecBits(op: BitsOp, ghost m: Machine) returns (o: Outcome)
      requires At(m)
      modifies stack, store`heap, store.shared
      ensures Agrees(StepBits(op, m), o, Now(m)) && Fits()
      ensures o.Throw? ==> store.Arrays() == old(store.Arrays())
    {
      match op {
        case SetBit => o := ExecSetBit(m);
        case GetBit => o := ExecGetBit(m);
        case SetByte => o := ExecSetByte(m);
        case GetByte => o := ExecGetByte(m);
      }
    }

    method ExecDup(ghost m: Machine) returns (o: Outcome)
      requires At(m)
      modifies stack
      ensures Agrees(StepStack(Dup, m), o, Now(m)) && Fits()
    {
      o := Pass;
      :- stack.AssertMinStackLen(1);
      var _, last := stack.Pop();
      var _ := stack.Push(last);
      o := stack.Push(last);
    }

    method ExecDup2(ghost m: Machine) returns (o: Outcome)
      requires At(m)
      modifies stack
      ensures Agrees(StepStack(Dup2, m), o, Now(m)) && Fits()
    {
      o := Pass;
      :- stack.AssertMinStackLen(2);
      var _, lastA := stack.Pop();
      var _, lastB := stack.Pop();
      var _ := stack.Push(lastB);
      var _ := stack.Push(lastA);
      assert stack.store == m.stack;
      o := PushTwo(lastB, lastA, m);
    }

    method ExecSwap(ghost m: Machine) returns (o: Outcome)
      requires At(m)
      modifies stack
      ensures Agrees(StepStack(Swap, m), o, Now(m)) && Fits()
    {
      o := Pass;
      :- stack.AssertMinStackLen(2);
      var _, a := stack.Pop();
      var _, b := stack.Pop();
      var _ := stack.Push(a);
      o := stack.Push(b);
    }

    method ExecSelect(ghost m: Machine) returns (o: Outcome)
      requires At(m)
      modifies stack
      ensures Agrees(StepStack(Select, m), o, Now(m)) && Fits()
    {
      o := Pass;
      :- stack.AssertMinStackLen(3);
      var toCheck :- stack.PopInt();
      var _, notZeroSelection := stack.Pop();
      var _, isZeroSelection := stack.Pop();
      assert stack.store == Drop(m, 3).stack && notZeroSelection == Peek(m, 1) && isZeroSelection == Peek(m, 2);
      o := stack.Push(if toCheck != 0 then notZeroSelection else isZeroSelection);
    }

    /** Pops down to the wanted depth into a temporary stack, and puts everything back. */
    method ExecDig(depth: nat, ghost m: Machine) returns (o: Outcome)
      requires At(m)
      modifies stack
      ensures Agrees(StepStack(Dig(depth), m), o, Now(m)) && Fits()
    {
      o := Pass;
      :- stack.AssertMinStackLen(depth + 1);
      var tempStack := new Stack(depth + 1);
      var target := Int(0);
      var i := 0;
      ghost var n := |m.stack|;
      while i <= depth
        invariant 0 <= i <= depth + 1
        invariant stack.store == m.stack[..n - i]
        invariant |tempStack.store| == i && forall j :: 0 <= j < i ==> tempStack.store[j] == m.stack[n - 1 - j]
        invariant i > 0 ==> target == m.stack[n - i]
      {
        var _, e := stack.Pop();
        var _ := tempStack.Push(e);
        target := e;
        i := i + 1;
      }
      i := 0;
      while i <= depth
        invariant 0 <= i <= depth + 1
        invariant stack.store == m.stack[..n - (depth + 1) + i]
        invariant |tempStack.store| == depth + 1 - i
        invariant forall j :: 0 <= j < depth + 1 - i ==> tempStack.store[j] == m.stack[n - 1 - j]
      {
        var _, e := tempStack.Pop();
        assert e == m.stack[n - 1 - (depth - i)];
        var _ := stack.Push(e);
        i := i + 1;
      }
      assert stack.store == m.stack;
      o := stack.Push(target);
    }

    method ExecAssert(ghost m: Machine) returns (o: Outcome)
      requires At(m)
      modifies stack
      ensures Agrees(StepStack(Assert, m), o, Now(m)) && Fits()
    {
      o := Pass;
      :- stack.AssertMinStackLen(1);
      var top :- stack.PopInt();
      o := Ensure(top != 0, EncounteredErr);
    }

    method ExecStack(op: StackOp, ghost m: Machine) returns (o: Outcome)
      requires At(m)
      modifies stack
      ensures Agrees(StepStack(op, m), o, Now(m)) && Fits()
    {
      match op {
        case Pop =>
          :- stack.AssertMinStackLen(1);
          var _, _ := stack.Pop();
          o := Pass;
        case Dup => o := ExecDup(m);
        case Dup2 => o := ExecDup2(m);
        case Swap => o := ExecSwap(m);
        case Select => o := ExecSelect(m);
        case Dig(depth) => o := ExecDig(depth, m);
        case Assert => o := ExecAssert(m);
      }
    }

    method ExecStore(slot: int, ghost m: Machine) returns (o: Outcome)
      requires At(m)
      modifies stack, scratch
      ensures Agrees(StepConst(Store(slot), m), o, Now(m)) && Fits()
    {
      o := Pass;
      :- Ensure(InBounds(slot, scratch.Length), IndexOutOfBound);
      :- stack.AssertMinStackLen(1);
      var _, top := stack.Pop();
      scratch[slot] := top;
      assert scratch[..] == m.scratch[slot := top];
      return Pass;
    }

    method ExecConst(op: ConstOp, ghost m: Machine) returns (o: Outcome)
      requires At(m) && m.st.args == args
      modifies this`intcblock, this`bytecblock, stack, scratch, store`heap
      ensures Agrees(StepConst(op, m), o, Now(m)) && Fits()
      ensures o.Throw? ==> store.Arrays() == old(store.Arrays())
    {
      match op {
        case Store(slot) => o := ExecStore(slot, m);
        case Load(slot) =>
          :- Ensure(InBounds(slot, scratch.Length), IndexOutOfBound);
          o := stack.Push(scratch[slot]);
        case Intcblock(ints) =>
          :- Ensure(1 <= |ints| <= 256, AssertArrLength);
          intcblock := ints;
          o := Pass;
        case Intc(index) =>
          :- Ensure(InBounds(index, |intcblock|), IndexOutOfBound);
          o := stack.Push(Int(intcblock[index]));
        case Bytecblock(blocks) =>
          :- Ensure(1 <= |blocks| <= 256, AssertArrLength);
          var h := |store.heap|;
          bytecblock := seq(|blocks|, i => h + i);
          store.heap := store.heap + blocks;
          o := Pass;
        case Bytec(index) =>
          :- Ensure(InBounds(index, |bytecblock|), IndexOutOfBound);
          o := stack.Push(Ref(Own(bytecblock[index])));
        case Arg(index) =>
          :- Ensure(InBounds(index, |args|), IndexOutOfBound);
          o := stack.Push(Ref(Shared(args[index])));
        case PushInt(n) => o := stack.Push(Int(n));
        case PushBytes(b) => o := PushData(b, m);
      }
    }

    method ExecValue(op: ValueOp, ghost m: Machine) returns (o: Outcome)
      requires At(m) && m.st.args == args
      modifies this`intcblock, this`bytecblock, stack, scratch, store`heap, store.shared
      ensures Agrees(StepValue(op, m, c.env), o, Now(m)) && Fits()
      ensures o.Throw? ==> store.Arrays() == old(store.Arrays())
    {
      match op {
        case OnInts(arith) => o := ExecArith(arith, m);
        case OnBytes(bytes) => o := ExecBytes(bytes, m);
        case OnBits(bits) => o := ExecBits(bits, m);
        case OnStack(stackOp) => o := ExecStack(stackOp, m);
        case Const(constOp) => o := ExecConst(constOp, m);
      }
    }

    // ---- Transaction and global fields ----

    static function FieldResult(m: Machine, v: Result<FieldValue>): Result<Machine> {
      if v.Err? then Err(v.error) else Teal.PushField(m, v.value)
    }

    method ExecTxnField(tx: Txn, field: string, ghost m: Machine) returns (o: Outcome)
      requires At(m)
      modifies stack, store`heap
      ensures Agrees(FieldResult(m, FieldOf(tx, field, c.env)), o, Now(m)) && Fits()
      ensures o.Throw? ==> store.Arrays() == old(store.Arrays())
    {
      var v := FieldOf(tx, field, c.env);
      if v.Err? {
        return Throw(v.error);
      }
      o := PushField(v.value, m);
    }

    method ExecTxnArray(tx: Txn, field: string, item: nat, ghost m: Machine) returns (o: Outcome)
      requires At(m)
      modifies stack, store`heap
      ensures Agrees(FieldResult(m, ArrayItem(tx, field, item, c.env)), o, Now(m)) && Fits()
      ensures o.Throw? ==> store.Arrays() == old(store.Arrays())
    {
      var v := ArrayItem(tx, field, item, c.env);
      if v.Err? {
        return Throw(v.error);
      }
      o := PushField(v.value, m);
    }

    method ExecTxn(op: TxnOp, ghost m: Machine) returns (o: Outcome)
      requires At(m)
      modifies stack, store`heap
      ensures Agrees(StepTxn(op, m, c), o, Now(m)) && Fits()
      ensures o.Throw? ==> store.Arrays() == old(store.Arrays())
    {
      match op {
        case TxnField(field) => o := ExecTxnField(c.tx, field, m);
        case TxnArray(field, item) => o := ExecTxnArray(c.tx, field, item, m);
        case GtxnField(t, field) =>
          var tx := GroupTxn(c, t);
          if tx.Err? {
            return Throw(tx.error);
          }
          o := ExecTxnField(tx.value, field, m);
        case GtxnArray(t, field, item) =>
          var tx := GroupTxn(c, t);
          if tx.Err? {
            return Throw(tx.error);
          }
          o := ExecTxnArray(tx.value, field, item, m);
        case GtxnsField(field) =>
          :- stack.AssertMinStackLen(1);
          var t :- stack.PopInt();
          var tx := GroupTxn(c, t);
          if tx.Err? {
            return Throw(tx.error);
          }
          o := ExecTxnField(tx.value, field, Drop(m, 1));
        case GtxnsArray(field, item) =>
          :- stack.AssertMinStackLen(1);
          var t :- stack.PopInt();
          var tx := GroupTxn(c, t);
          if tx.Err? {
            return Throw(tx.error);
          }
          o := ExecTxnArray(tx.value, field, item, Drop(m, 1));
      }
    }

    // ---- Ledger reads ----

    method GetAccount(index: int, ghost st: State) returns (o: Outcome, a: Address)
      requires store.Accounts() == st.accounts
      ensures Agrees(AccountAt(st, c, index), o, a)
    {
      a := c.tx.snd;
      if index != 0 {
        o := Pass;
        :- Ensure(c.tx.apat.Some?, JsTypeError);
        :- Ensure(0 <= index - 1 < |c.tx.apat.value|, IndexOutOfBound);
        a := c.tx.apat.value[index - 1];
      }
      o := Ensure(a in store.accounts, AccountDoesNotExist);
    }

    /** The creator of an application that exists. */
    method GetAppOwner(appID: nat, ghost st: State) returns (o: Outcome, a: Address)
      requires store.Accounts() == st.accounts && store.globalApps == st.globalApps
      ensures Agrees(AppOwner(st, appID), o, a)
    {
      a := "";
      :- Ensure(appID in store.globalApps, AppNotFound);
      a := store.globalApps[appID];
      :- Ensure(a in store.accounts, AccountDoesNotExist);
      o := Ensure(appID in store.accounts[a].createdApps, AppNotFound);
    }

    method GetGlobalState(appID: nat, key: Bytes, ghost st: State) returns (o: Outcome, v: Option<StackElem>)
      requires store.Accounts() == st.accounts && store.globalApps == st.globalApps
      ensures Agrees(GlobalValue(st, appID, key), o, v)
    {
      v := None;
      var a :- GetAppOwner(appID, st);
      var globals := store.accounts[a].createdApps[appID].globals;
      return Pass, if key in globals then Some(globals[key]) else None;
    }

    method GetLocalState(a: Address, appID: int, key: Bytes, ghost st: State) returns (v: Option<StackElem>)
      requires store.Accounts() == st.accounts && a in store.accounts
      ensures v == LocalValue(st.accounts[a], appID, key)
    {
      var acc := store.accounts[a];
      if appID >= 0 && appID in acc.appsLocalState && key in acc.appsLocalState[appID].kv {
        return Some(acc.appsLocalState[appID].kv[key]);
      }
      return None;
    }

    /** A stored zero is pushed as if it were absent. */
    method PushStored(v: Option<StackElem>, ghost m: Machine) returns (o: Outcome)
      requires At(m)
      modifies stack
      ensures Agrees(PushValue(m, v), o, Now(m)) && Fits()
    {
      o := stack.Push(if Truthy(v) then v.value else Int(0));
    }

    method PushStoredEx(v: Option<StackElem>, ghost m: Machine) returns (o: Outcome)
      requires At(m)
      modifies stack
      ensures Agrees(PushValueEx(m, v), o, Now(m)) && Fits()
    {
      if Truthy(v) {
        o := PushTwo(v.value, Int(1), m);
      } else {
        o := PushTwo(Int(0), Int(0), m);
      }
    }

    ghost predicate Sees(m: Machine)
      reads `intcblock, `bytecblock, stack, scratch, store, store.shared, store.accounts.Values
    {
      At(m) && store.Accounts() == m.st.accounts && store.globalApps == m.st.globalApps && store.assetDefs == m.st.assetDefs
    }

    /** An asset or application identifier, with an account index below it. */
    static function IdAndAccount(m: Machine, c: TealCtx): Result<(int, Address)> {
      var _ :- Require(|m.stack| >= 2, AssertStackLength);
      var id :- AsInt(Peek(m, 0));
      var index :- AsInt(Peek(m, 1));
      var a :- AccountAt(m.st, c, index);
      Ok((id, a))
    }

    method PopIdAndAccount(ghost m: Machine) returns (o: Outcome, id: int, a: Address)
      requires Sees(m)
      modifies stack
      ensures Agrees(IdAndAccount(m, c), o, (id, a)) && Fits()
      ensures o == Pass ==> |m.stack| >= 2 && stack.store == Drop(m, 2).stack
    {
      hide Teal.AccountAt;
      id, a := 0, "";
      :- stack.AssertMinStackLen(2);
      id :- stack.PopInt();
      var index :- stack.PopInt();
      o, a := GetAccount(index, m.st);
    }

    method ExecAppOptedIn(ghost m: Machine) returns (o: Outcome)
      requires Sees(m)
      modifies stack
      ensures Agrees(StepAppRead(AppOptedIn, m, c), o, Now(m)) && Fits()
    {
      var appID, a :- PopIdAndAccount(m);
      o := stack.Push(Int(if appID >= 0 && appID in store.accounts[a].appsLocalState then 1 else 0));
    }

    method ExecAppLocalGet(ghost m: Machine) returns (o: Outcome)
      requires Sees(m)
      modifies stack
      ensures Agrees(StepAppRead(AppLocalGet, m, c), o, Now(m)) && Fits()
    {
      o := Pass;
      :- stack.AssertMinStackLen(2);
      var key, index :- stack.PopKeyAndIndex();
      var a :- GetAccount(index, m.st);
      var v := GetLocalState(a, AppIdOf(c.tx), Deref(store.Arrays(), key), m.st);
      o := PushStored(v, Drop(m, 2));
    }

    method ExecAppLocalGetEx(ghost m: Machine) returns (o: Outcome)
      requires Sees(m)
      modifies stack
      ensures Agrees(StepAppRead(AppLocalGetEx, m, c), o, Now(m)) && Fits()
    {
      var key, appID, a :- PopLocalKey(m);
      var v := GetLocalState(a, appID, Deref(store.Arrays(), key), m.st);
      o := PushStoredEx(v, Drop(m, 3));
    }

    /** A key, the application and the account it is looked up in. */
    static function LocalKey(m: Machine, c: TealCtx): Result<(Loc, int, Address)> {
      var _ :- Require(|m.stack| >= 3, AssertStackLength);
      var key :- AsRef(Peek(m, 0));
      var appID :- AsInt(Peek(m, 1));
      var index :- AsInt(Peek(m, 2));
      var a :- AccountAt(m.st, c, index);
      Ok((key, appID, a))
    }

    method PopLocalKey(ghost m: Machine) returns (o: Outcome, key: Loc, appID: int, a: Address)
      requires Sees(m)
      modifies stack
      ensures Agrees(LocalKey(m, c), o, (key, appID, a)) && Fits()
      ensures o == Pass ==> |m.stack| >= 3 && stack.store == Drop(m, 3).stack
    {
      hide Teal.AccountAt;
      key, appID, a := Own(0), 0, "";
      :- stack.AssertMinStackLen(3);
      key, appID :- stack.PopKeyAndIndex();
      var index :- stack.PopInt();
      o, a := GetAccount(index, m.st);
    }

    method ExecAppGlobalGet(ghost m: Machine) returns (o: Outcome)
      requires Sees(m)
      modifies stack
      ensures Agrees(StepAppRead(AppGlobalGet, m, c), o, Now(m)) && Fits()
    {
      o := Pass;
      :- stack.AssertMinStackLen(1);
      var key :- stack.PopRef();
      var v :- GetGlobalState(AppIdOf(c.tx), Deref(store.Arrays(), key), m.st);
      o := PushStored(v, Drop(m, 1));
    }

    method ExecAppGlobalGetEx(ghost m: Machine) returns (o: Outcome)
      requires Sees(m)
      modifies stack
      ensures Agrees(StepAppRead(AppGlobalGetEx, m, c), o, Now(m)) && Fits()
    {
      o := Pass;
      :- stack.AssertMinStackLen(2);
      var key, index :- stack.PopKeyAndIndex();
      var appID := ForeignApp(c.tx, index);
      if appID.Err? {
        return Throw(appID.error);
      }
      var v :- GetGlobalState(appID.value, Deref(store.Arrays(), key), m.st);
      o := PushStoredEx(v, Drop(m, 2));
    }

    method ExecBalance(ghost m: Machine) returns (o: Outcome)
      requires Sees(m)
      modifies stack
      ensures Agrees(StepAppRead(Balance, m, c), o, Now(m)) && Fits()
    {
      o := Pass;
      :- stack.AssertMinStackLen(1);
      var index :- stack.PopInt();
      var a :- GetAccount(index, m.st);
      o := stack.Push(Int(store.accounts[a].amount));
    }

    method ExecMinBalance(ghost m: Machine) returns (o: Outcome)
      requires Sees(m)
      modifies stack
      ensures Agrees(StepAppRead(MinBalance, m, c), o, Now(m)) && Fits()
    {
      o := Pass;
      :- stack.AssertMinStackLen(1);
      var index :- stack.PopInt();
      var a :- GetAccount(index, m.st);
      o := stack.Push(Int(store.accounts[a].minBalance));
    }

    static function HoldingEntry(m: Machine, assets: map<nat, Holding>, id: int, field: HoldingField): Result<Machine> {
      if !(id >= 0 && id in assets) then PushPair(m, Int(0), Int(0))
      else match field
        case AssetBalance => PushPair(m, Int(assets[id].amount), Int(1))
        case AssetFrozen => PushPair(m, Int(if assets[id].frozen then 1 else 0), Int(1))
        case OtherHoldingField => Err(InvalidFieldType)
    }

    method PushHoldingEntry(assets: map<nat, Holding>, id: int, field: HoldingField, ghost m: Machine) returns (o: Outcome)
      requires At(m)
      modifies stack
      ensures Agrees(HoldingEntry(m, assets, id, field), o, Now(m)) && Fits()
    {
      if !(id >= 0 && id in assets) {
        o := PushTwo(Int(0), Int(0), m);
      } else {
        match field {
          case AssetBalance => o := PushTwo(Int(assets[id].amount), Int(1), m);
          case AssetFrozen => o := PushTwo(Int(if assets[id].frozen then 1 else 0), Int(1), m);
          case OtherHoldingField => o := Throw(InvalidFieldType);
        }
      }
    }

    method ExecAssetHoldingGet(field: HoldingField, ghost m: Machine) returns (o: Outcome)
      requires Sees(m)
      modifies stack
      ensures Agrees(StepAppRead(AssetHoldingGet(field), m, c), o, Now(m)) && Fits()
    {
      var id, a :- PopIdAndAccount(m);
      o := PushHoldingEntry(store.accounts[a].assets, id, field, Drop(m, 2));
    }

    method ExecAppRead(op: AppReadOp, ghost m: Machine) returns (o: Outcome)
      requires Sees(m)
      modifies stack
      ensures Agrees(StepAppRead(op, m, c), o, Now(m)) && Fits()
    {
      match op {
        case AppOptedIn => o := ExecAppOptedIn(m);
        case AppLocalGet => o := ExecAppLocalGet(m);
        case AppLocalGetEx => o := ExecAppLocalGetEx(m);
        case AppGlobalGet => o := ExecAppGlobalGet(m);
        case AppGlobalGetEx => o := ExecAppGlobalGetEx(m);
        case Balance => o := ExecBalance(m);
        case MinBalance => o := ExecMinBalance(m);
        case AssetHoldingGet(field) => o := ExecAssetHoldingGet(field, m);
      }
    }

    method ExecGlobal(g: GlobalField, ghost m: Machine) returns (o: Outcome)
      requires Sees(m)
      modifies stack, store`heap
      ensures Agrees(StepGlobal(g, m, c), o, Now(m)) && Fits()
      ensures o.Throw? ==> store.Arrays() == old(store.Arrays())
    {
      var v: FieldValue;
      match g {
        case MinTxnFee => v := Number(1000);
        case MinBalanceConst => v := Number(10000);
        case MaxTxnLife => v := Number(1000);
        case ZeroAddress => v := ZeroAddressOfTable;
        case GroupSize => v := Number(|c.gtxs|);
        case LogicSigVersion => v := Number(3);
        case Round => v := Number(c.round);
        case LatestTimestamp => v := Number(c.timestamp);
        case CurrentApplicationID =>
          :- Ensure(c.tx.apid.Some?, AppNotFound);
          var _ :- GetAppOwner(c.tx.apid.value, m.st);
          v := Number(c.tx.apid.value);
        case CreatorAddress =>
          :- Ensure(c.tx.apid.Some?, AppNotFound);
          var a :- GetAppOwner(c.tx.apid.value, m.st);
          v := Data(c.env.publicKey(store.accounts[a].createdApps[c.tx.apid.value].creator));
      }
      o := PushField(v, m);
    }

    method ExecRead(op: ReadOp, ghost m: Machine) returns (o: Outcome)
      requires Sees(m)
      modifies stack, store`heap
      ensures Agrees(StepRead(op, m, c), o, Now(m)) && Fits()
      ensures o.Throw? ==> store.Arrays() == old(store.Arrays())
    {
      match op {
        case ReadTxn(txnOp) => o := ExecTxn(txnOp, m);
        case ReadApp(app) => o := ExecAppRead(app, m);
        case Global(field) => o := ExecGlobal(field, m);
      }
    }

    // ---- Operators with their own outcome ----

    /** `m.st` with the accounts and byte arrays as they are now. */
    ghost function StNow(m: Machine): State
      reads store, store.shared, store.accounts.Values
    {
      m.st.(accounts := store.Accounts(), heap := store.Arrays())
    }

    ghost function AllNow(m: Machine): Machine
      reads `intcblock, `bytecblock, stack, scratch, store, store.shared, store.accounts.Values
    {
      Machine(stack.store, scratch[..], intcblock, bytecblock, StNow(m))
    }

    /** The state and the error, or the machine, that an operator on `m` should have left. */
    ghost predicate Did(e: Exec, o: Outcome, m: Machine)
      reads `intcblock, `bytecblock, stack, scratch, store, store.shared, store.accounts.Values
    {
      match e
      case Cont(m1) => o == Pass && AllNow(m) == m1
      case Fail(error, st) => o == Throw(error) && StNow(m) == st
      case _ => false
    }

    method GetAssetDef(id: nat, ghost st: State) returns (o: Outcome, d: Option<AssetDef>)
      requires store.Accounts() == st.accounts && store.assetDefs == st.assetDefs
      ensures Agrees(FindAssetDef(st, id), o, d)
    {
      d := None;
      if id !in store.assetDefs {
        return Pass, None;
      }
      var a := store.assetDefs[id];
      :- Ensure(a in store.accounts, AccountDoesNotExist);
      var defs := store.accounts[a].createdAssets;
      return Pass, if id in defs then Some(defs[id]) else None;
    }

    /** The parameter and a found flag, or two zeroes; if only the flag overflows, the parameter's array stays allocated. */
    static function ParamExec(d: Option<AssetDef>, field: ParamField, m: Machine, env: Env): Exec {
      if d.None? then ToExec(PushPair(m, Int(0), Int(0)), m.st) else FlaggedExec(ParamValue(d.value, field, env), m)
    }

    static function FlaggedExec(v: FieldValue, m: Machine): Exec {
      match Teal.PushField(m, v)
      case Err(e) => Fail(e, m.st)
      case Ok(m1) => ToExec(Push(m1, Int(1)), m1.st)
    }

    method PushFlagged(v: FieldValue, ghost m: Machine) returns (o: Outcome)
      requires Sees(m)
      modifies stack, store`heap
      ensures Did(FlaggedExec(v, m), o, m) && Fits()
    {
      o := Pass;
      hide Store.Accounts, Store.Abs;
      :- PushField(v, m);
      o := stack.Push(Int(1));
    }

    method PushParam(d: Option<AssetDef>, field: ParamField, ghost m: Machine) returns (o: Outcome)
      requires Sees(m)
      modifies stack, store`heap
      ensures Did(ParamExec(d, field, m, c.env), o, m) && Fits()
    {
      if d.None? {
        o := PushTwo(Int(0), Int(0), m);
      } else {
        o := PushFlagged(ParamValue(d.value, field, c.env), m);
      }
    }

    lemma AssetParamsParts(field: ParamField, m: Machine)
      ensures StepAssetParams(field, m, c) ==
              match AssetParamsArg(m, c)
              case Err(e) => Fail(e, m.st)
              case Ok(d) => ParamExec(d, field, Drop(m, 1), c.env)
    {
    }

    /** The asset definition that the index on top of the stack denotes. */
    static function AssetParamsArg(m: Machine, c: TealCtx): (r: Result<Option<AssetDef>>)
      ensures r.Ok? ==> |m.stack| >= 1
    {
      var _ :- Require(|m.stack| >= 1, AssertStackLength);
      var index :- AsInt(Peek(m, 0));
      var _ :- Require(c.tx.apas.Some?, JsTypeError);
      var _ :- Require(InBounds(index, |c.tx.apas.value|), IndexOutOfBound);
      FindAssetDef(m.st, c.tx.apas.value[index])
    }

    method PopAssetParamsArg(ghost m: Machine) returns (o: Outcome, d: Option<AssetDef>)
      requires Sees(m)
      modifies stack
      ensures Agrees(AssetParamsArg(m, c), o, d) && Fits()
      ensures o == Pass ==> |m.stack| >= 1 && stack.store == Drop(m, 1).stack
    {
      d := None;
      :- stack.AssertMinStackLen(1);
      var index :- stack.PopInt();
      :- Ensure(c.tx.apas.Some?, JsTypeError);
      :- Ensure(InBounds(index, |c.tx.apas.value|), IndexOutOfBound);
      o, d := GetAssetDef(c.tx.apas.value[index], m.st);
    }

    method ExecAssetParams(field: ParamField, ghost m: Machine) returns (o: Outcome)
      requires Sees(m)
      modifies stack, store`heap
      ensures Did(StepAssetParams(field, m, c), o, m) && Fits()
    {
      AssetParamsParts(field, m);
      var d :- PopAssetParamsArg(m);
      o := PushParam(d, field, Drop(m, 1));
    }

    /** Value, key and account of a local write, from the top of the stack. */
    static function LocalPutArgs(m: Machine, c: TealCtx): Result<(StackElem, Loc, Address)> {
      var _ :- Require(|m.stack| >= 3, AssertStackLength);
      var key :- AsRef(Peek(m, 1));
      var index :- AsInt(Peek(m, 2));
      var a :- AccountAt(m.st, c, index);
      Ok((Peek(m, 0), key, a))
    }

    method PopLocalPutArgs(ghost m: Machine) returns (o: Outcome, value: StackElem, key: Loc, a: Address)
      requires Sees(m)
      modifies stack
      ensures Agrees(LocalPutArgs(m, c), o, (value, key, a)) && Fits()
      ensures o == Pass ==> |m.stack| >= 3 && stack.store == Drop(m, 3).stack
    {
      hide Teal.AccountAt;
      value, key, a := Int(0), Own(0), "";
      :- stack.AssertMinStackLen(3);
      o, value := stack.Pop();
      var index: int;
      key, index :- stack.PopKeyAndIndex();
      o, a := GetAccount(index, m.st);
    }

    /** The new pair is stored before the schema is checked, in the account object itself. */
    method ExecLocalPut(ghost m: Machine) returns (o: Outcome)
      requires Sees(m) && store.Valid()
      modifies stack, store.accounts.Values
      ensures Did(StepLocalPut(m, c), o, m) && Valid()
    {
      hide Store.Accounts, ValidSchema, WithLocal;
      var value, key, a :- PopLocalPutArgs(m);
      store.SameKeys();
      o := store.PutLocal(a, AppIdOf(c.tx), Deref(store.Arrays(), key), value);
    }

    /** Value and key of a global write, and the creator of the current application. */
    static function GlobalPutArgs(m: Machine, c: TealCtx): Result<(StackElem, Loc, Address)> {
      var _ :- Require(|m.stack| >= 2, AssertStackLength);
      var key :- AsRef(Peek(m, 1));
      var a :- AppOwner(m.st, AppIdOf(c.tx));
      Ok((Peek(m, 0), key, a))
    }

    method PopGlobalPutArgs(ghost m: Machine) returns (o: Outcome, value: StackElem, key: Loc, a: Address)
      requires Sees(m)
      modifies stack
      ensures Agrees(GlobalPutArgs(m, c), o, (value, key, a)) && Fits()
      ensures o == Pass ==> |m.stack| >= 2 && stack.store == Drop(m, 2).stack
    {
      value, key, a := Int(0), Own(0), "";
      :- stack.AssertMinStackLen(2);
      o, value := stack.Pop();
      key :- stack.PopRef();
      o, a := GetAppOwner(AppIdOf(c.tx), m.st);
    }

    method ExecGlobalPut(ghost m: Machine) returns (o: Outcome)
      requires Sees(m) && store.Valid()
      modifies stack, store.accounts.Values
      ensures Did(StepGlobalPut(m, c), o, m) && Valid()
    {
      hide Store.Accounts, ValidSchema, WithGlobals;
      var value, key, a :- PopGlobalPutArgs(m);
      store.SameKeys();
      store.ValueAt(a);
      o := store.PutGlobal(a, AppIdOf(c.tx), Deref(store.Arrays(), key), value);
    }

    static function LocalDelArgs(m: Machine, c: TealCtx): Result<(Loc, Address)> {
      var _ :- Require(|m.stack| >= 1, AssertStackLength);
      var key :- AsRef(Peek(m, 0));
      var _ :- Require(|m.stack| >= 2, StackEmpty);
      var index :- AsInt(Peek(m, 1));
      var a :- AccountAt(m.st, c, index);
      Ok((key, a))
    }

    method PopLocalDelArgs(ghost m: Machine) returns (o: Outcome, key: Loc, a: Address)
      requires Sees(m)
      modifies stack
      ensures Agrees(LocalDelArgs(m, c), o, (key, a)) && Fits()
      ensures o == Pass ==> |m.stack| >= 2 && stack.store == Drop(m, 2).stack
    {
      hide Teal.AccountAt;
      key, a := Own(0), "";
      :- stack.AssertMinStackLen(1);
      var index: int;
      key, index :- stack.PopKeyAndIndex();
      o, a := GetAccount(index, m.st);
    }

    method ExecLocalDel(ghost m: Machine) returns (o: Outcome)
      requires Sees(m) && store.Valid()
      modifies stack, store.accounts.Values
      ensures Did(ToExec(StepLocalDel(m, c), m.st), o, m) && Valid()
    {
      hide Store.Accounts;
      var key, a :- PopLocalDelArgs(m);
      store.SameKeys();
      store.ValueAt(a);
      if AppIdOf(c.tx) in store.accounts[a].appsLocalState {
        store.DeleteLocal(a, AppIdOf(c.tx), Deref(store.Arrays(), key));
      }
      return Pass;
    }

    static function GlobalDelArgs(m: Machine, c: TealCtx): Result<(Loc, Address)> {
      var _ :- Require(|m.stack| >= 1, AssertStackLength);
      var key :- AsRef(Peek(m, 0));
      var a :- AppOwner(m.st, AppIdOf(c.tx));
      Ok((key, a))
    }

    method PopGlobalDelArgs(ghost m: Machine) returns (o: Outcome, key: Loc, a: Address)
      requires Sees(m)
      modifies stack
      ensures Agrees(GlobalDelArgs(m, c), o, (key, a)) && Fits()
      ensures o == Pass ==> |m.stack| >= 1 && stack.store == Drop(m, 1).stack
    {
      key, a := Own(0), "";
      :- stack.AssertMinStackLen(1);
      key :- stack.PopRef();
      o, a := GetAppOwner(AppIdOf(c.tx), m.st);
    }

    method ExecGlobalDel(ghost m: Machine) returns (o: Outcome)
      requires Sees(m) && store.Valid()
      modifies stack, store.accounts.Values
      ensures Did(ToExec(StepGlobalDel(m, c), m.st), o, m) && Valid()
    {
      var key, a :- PopGlobalDelArgs(m);
      store.DeleteGlobal(a, AppIdOf(c.tx), Deref(store.Arrays(), key));
      return Pass;
    }

    // ---- Control flow ----

    /** Moves to the end of the first later run of labels that contains the target. */
    method JumpForward(target: string) returns (o: Outcome)
      modifies this`instructionIndex
      ensures match TealRun.JumpForward(instructions, old(instructionIndex), target)
              case None => o == Throw(LabelNotFound)
              case Some(u) => o == Pass && instructionIndex == u
    {
      instructionIndex := instructionIndex + 1;
      while instructionIndex < |instructions|
        invariant FindLabel(instructions, old(instructionIndex) + 1, target) == FindLabel(instructions, instructionIndex, target)
        decreases |instructions| - instructionIndex
      {
        if instructions[instructionIndex].op == Label(target) {
          ghost var t := instructionIndex;
          while instructionIndex < |instructions| - 1
            invariant t <= instructionIndex < |instructions|
            invariant EndOfLabels(instructions, t) == EndOfLabels(instructions, instructionIndex)
            decreases |instructions| - instructionIndex
          {
            if !instructions[instructionIndex + 1].op.Label? {
              break;
            }
            instructionIndex := instructionIndex + 1;
          }
          return Pass;
        }
        instructionIndex := instructionIndex + 1;
      }
      return Throw(LabelNotFound);
    }

    /** Empties the stack down to its last value and ends the program. */
    method ExecReturn() returns (o: Outcome)
      requires Fits()
      modifies stack, this`instructionIndex
      ensures |old(stack.store)| < 1 ==> o == Throw(AssertStackLength) && Fits()
      ensures |old(stack.store)| >= 1 ==>
                && o == Pass && instructionIndex == |instructions|
                && stack.store == [old(stack.store)[|old(stack.store)| - 1]] && Fits()
    {
      o := Pass;
      :- stack.AssertMinStackLen(1);
      var _, last := stack.Pop();
      while |stack.store| != 0
        invariant Fits()
        decreases |stack.store|
      {
        var _, _ := stack.Pop();
      }
      var _ := stack.Push(last);
      instructionIndex := |instructions|;
      return Pass;
    }

    /** What the turn of the loop that starts in `m` should have done, up to the final increment of the index. */
    ghost predicate DidTurn(t: Turn, o: Outcome, m: Machine)
      reads this, stack, scratch, store, store.shared, store.accounts.Values
    {
      match t
      case Goto(next, m1) => o == Pass && instructionIndex + 1 == next && AllNow(m) == m1
      case Stop(Failed(e, st)) => o == Throw(e) && StNow(m) == st
      case Stop(Done(_)) => false
    }

    method ExecBranchIf(op: BranchOp, ghost m: Machine) returns (o: Outcome)
      requires Sees(m) && instructionIndex < |instructions| && (op.BranchIfZero? || op.BranchIfNotZero?)
      modifies stack, this`instructionIndex
      ensures DidTurn(TurnAfter(StepBranch(op, m), instructions, old(instructionIndex)), o, m) && Fits()
    {
      o := Pass;
      hide FindLabel, EndOfLabels, Store.Abs, Store.Accounts;
      :- stack.AssertMinStackLen(1);
      var last :- stack.PopInt();
      if (last == 0) == op.BranchIfZero? {
        o := JumpForward(op.target);
      } else {
        o := Pass;
      }
    }

    method ExecBranch(op: BranchOp, ghost m: Machine) returns (o: Outcome)
      requires Sees(m) && instructionIndex < |instructions|
      modifies stack, this`instructionIndex
      ensures DidTurn(TurnAfter(StepBranch(op, m), instructions, old(instructionIndex)), o, m) && Fits()
    {
      match op {
        case Branch(target) => o := JumpForward(target);
        case BranchIfZero(target) => o := ExecBranchIf(op, m);
        case BranchIfNotZero(target) => o := ExecBranchIf(op, m);
        case Return => o := ExecReturn();
      }
    }

    /** Every operator but the branches. */
    method ExecPlain(op: Op, ghost m: Machine) returns (o: Outcome)
      requires !op.Control? && Sees(m) && store.Valid() && m.st.args == args
      modifies this`intcblock, this`bytecblock, stack, scratch, store`heap, store.shared, store.accounts.Values
      ensures Did(Step(op, m, c), o, m) && Valid()
    {
      hide StepValue, StepRead, StepAssetParams, StepLocalPut, StepGlobalPut, StepLocalDel, StepGlobalDel, Store.Accounts;
      match op {
        case Pragma => o := Pass;
        case Label(_) => o := Pass;
        case ErrOp => o := Throw(EncounteredErr);
        case Value(value) => o := ExecValue(value, m);
        case Read(read) => o := ExecRead(read, m);
        case AssetParamsGet(field) => o := ExecAssetParams(field, m);
        case AppLocalPut => o := ExecLocalPut(m);
        case AppGlobalPut => o := ExecGlobalPut(m);
        case AppLocalDel => o := ExecLocalDel(m);
        case AppGlobalDel => o := ExecGlobalDel(m);
      }
    }

    /** One turn of the loop in `Execute`, before the index is incremented. */
    method ExecuteInstruction() returns (o: Outcome)
      requires Valid() && instructionIndex < |instructions|
      modifies this`intcblock, this`bytecblock, this`instructionIndex
      modifies stack, scratch, store`heap, store.shared, store.accounts.Values
      ensures Valid()
      ensures match LoopTurn(instructions, old(instructionIndex), old(M()), StepperOf(c))
              case Goto(next, m1) => o == Pass && instructionIndex + 1 == next && M() == m1
              case Stop(Failed(e, st)) => o == Throw(e) && store.Abs(args) == st
              case Stop(Done(_)) => false
    {
      ghost var m := M();
      var op := instructions[instructionIndex].op;
      if op.Control? {
        o := ExecBranch(op.branch, m);
      } else {
        o := ExecPlain(op, m);
      }
      assert DidTurn(TurnAfter(Step(op, m, c), instructions, old(instructionIndex)), o, m);
      assert M() == AllNow(m) && store.Abs(args) == StNow(m);
    }

    /** The body of the loop below. */
    method TurnOnce() returns (o: Outcome)
      requires Valid() && instructionIndex < |instructions|
      modifies this`intcblock, this`bytecblock, this`instructionIndex
      modifies stack, scratch, store`heap, store.shared, store.accounts.Values
      ensures Valid()
      ensures match LoopTurn(instructions, old(instructionIndex), old(M()), StepperOf(c))
              case Goto(next, m1) => o == Pass && instructionIndex == next && M() == m1
              case Stop(Failed(e, st)) => o == Throw(e) && store.Abs(args) == st
              case Stop(Done(_)) => false
    {
      o := Pass;
      :- ExecuteInstruction();
      instructionIndex := instructionIndex + 1;
      return Pass;
    }

    /** The loop over instructions computes the recursive semantics. */
    method RunInstructions() returns (o: Outcome)
      requires Valid() && instructionIndex == 0
      modifies this`intcblock, this`bytecblock, this`instructionIndex
      modifies stack, scratch, store`heap, store.shared, store.accounts.Values
      ensures Valid()
      ensures match RunFrom(instructions, 0, old(M()), StepperOf(c))
              case Done(m) => o == Pass && M() == m
              case Failed(e, st) => o == Throw(e) && store.Abs(args) == st
    {
      ghost var f := StepperOf(c);
      ghost var goal := RunFrom(instructions, 0, M(), f);
      TealSkipsLabels(c);
      LoopRefinesRecursion(instructions, 0, M(), f);
      while instructionIndex < |instructions|
        invariant Valid()
        invariant Loop(instructions, instructionIndex, M(), f) == goal
        decreases |instructions| - instructionIndex
      {
        o := Pass;
        :- TurnOnce();
      }
      return Pass;
    }

    /** Parses and runs a program; the verdict is that of the recursive semantics, and the store is left as it says even
        when the program fails. */
    method Execute(program: string, mode: Parser.Mode) returns (o: Outcome)
      requires Valid() && instructionIndex == 0
      modifies this`instructions, this`intcblock, this`bytecblock, this`instructionIndex
      modifies stack, scratch, store`heap, store.shared, store.accounts.Values
      ensures Valid()
      ensures ProgramVerdict(program, mode, old(M()), c) == Verdict(store.Abs(args), ErrorOf(o))
    {
      hide Store.Accounts, RunFrom, Parser.Parse, Judge;
      var parsed := Parser.ParseProgram(program, mode, |args|, c.env);
      if parsed.Err? {
        return Throw(parsed.error);
      }
      instructions := parsed.value.instrs;
      assert M() == old(M());
      o := RunToVerdict();
    }

    static function ProgramVerdict(program: string, mode: Parser.Mode, m: Machine, c: TealCtx): Verdict {
      match Parser.Parse(program, mode, |m.st.args|, c.env)
      case Err(e) => Verdict(m.st, Some(e))
      case Ok(parsed) => Judge(RunFrom(parsed.instrs, 0, m, StepperOf(c)))
    }

    method RunToVerdict() returns (o: Outcome)
      requires Valid() && instructionIndex == 0
      modifies this`intcblock, this`bytecblock, this`instructionIndex
      modifies stack, scratch, store`heap, store.shared, store.accounts.Values
      ensures Valid()
      ensures Judge(RunFrom(instructions, 0, old(M()), StepperOf(c))) == Verdict(store.Abs(args), ErrorOf(o))
    {
      o := Pass;
      hide Store.Accounts, RunFrom, Accepts;
      :- RunInstructions();
      o := FinalVerdict(M());
    }

    /** Accepts if exactly one positive integer is left. */
    method FinalVerdict(ghost m: Machine) returns (o: Outcome)
      requires Fits() && m.stack == stack.store
      modifies stack
      ensures Fits() && o == Ensure(Accepts(Done(m)), RejectedByLogic)
    {
      if |stack.store| == 1 {
        var _, s := stack.Pop();
        if s.Int? && s.n > 0 {
          return Pass;
        }
      }
      return Throw(RejectedByLogic);
    }
  }
}
