/** Byte arrays are shared: `dup` copies a reference, and `setbit`/`setbyte` write through it. */
module TealAliasing {
  import opened Values
  import opened Bits
  import opened Teal
  import opened TealRun

  /** What an operator on an array stores, if it succeeds. */
  function Written(op: BitsOp, m: Machine): Result<Bytes>
    requires (op.SetBit? || op.SetByte?) && |m.stack| >= 3 && Peek(m, 0).Int? && Peek(m, 1).Int? && Peek(m, 2).Ref?
  {
    var bytes, i, v := Deref(m.st.heap, Peek(m, 2).r), Peek(m, 1).n, Peek(m, 0).n;
    if op.SetBit? then SetBitBytes(bytes, i, v) else Ok(if 0 <= i < |bytes| && IsUint8(v) then bytes[i := v] else bytes)
  }

  /** A write through a reference is seen by exactly that reference's copies, wherever they are stored. */
  lemma WriteIsShared(op: BitsOp, m: Machine, q: Loc)
    requires (op.SetBit? || op.SetByte?) && |m.stack| >= 3 && Peek(m, 2).Ref? && Allocated(m.st.heap, Peek(m, 2).r)
    requires StepBits(op, m).Ok?
    ensures var r, after := Peek(m, 2).r, StepBits(op, m).value;
            && after.stack == m.stack[..|m.stack| - 3] + [Ref(r)]
            && Written(op, m).Ok?
            && Deref(after.st.heap, q) == if q == r then Written(op, m).value else Deref(m.st.heap, q)
  {
  }

  function WithByte(b: Bytes, i: nat, v: byte): Bytes
    requires i < |b|
  {
    b[i := v]
  }

  lemma WithByteSame(b: Bytes, i: nat, v: byte)
    requires i < |b|
    ensures WithByte(b, i, v) == b <==> v == b[i]
  {
    assert WithByte(b, i, v)[i] == v;
  }

  function HeapWithByte(heap: Heap, r: Loc, i: nat, v: byte): Heap
    requires i < |Deref(heap, r)|
  {
    Write(heap, r, WithByte(Deref(heap, r), i, v))
  }

  lemma HeapWithByteAt(heap: Heap, r: Loc, i: nat, v: byte)
    requires i < |Deref(heap, r)|
    ensures Deref(HeapWithByte(heap, r, i, v), r) == WithByte(Deref(heap, r), i, v)
  {
  }

  lemma RunCont(p: Program, pc: nat, m: Machine, m1: Machine, f: Stepper)
    requires pc < |p| && f(p[pc].op, m) == Cont(m1)
    ensures RunFrom(p, pc, m, f) == RunFrom(p, pc + 1, m1, f)
  {
  }

  lemma RunEnd(p: Program, m: Machine, f: Stepper)
    ensures RunFrom(p, |p|, m, f) == Done(m)
  {
  }

  lemma DupStep(m: Machine, c: TealCtx)
    requires 1 <= |m.stack| < STACK_CAPACITY
    ensures Step(Value(OnStack(Dup)), m, c) == Cont(m.(stack := m.stack + [Peek(m, 0)]))
  {
  }

  lemma PushIntStep(m: Machine, n: int, c: TealCtx)
    requires |m.stack| < STACK_CAPACITY
    ensures Step(Value(Const(PushInt(n))), m, c) == Cont(m.(stack := m.stack + [Int(n)]))
  {
  }

  lemma SetByteStep(m: Machine, r: Loc, i: nat, v: byte, c: TealCtx)
    requires |m.stack| < STACK_CAPACITY - 2 && i < |Deref(m.st.heap, r)|
    ensures Step(Value(OnBits(SetByte)), m.(stack := m.stack + [Ref(r)] + [Int(i)] + [Int(v)]), c)
            == Cont(m.(stack := m.stack + [Ref(r)], st := m.st.(heap := HeapWithByte(m.st.heap, r, i, v))))
  {
    var m3 := m.(stack := m.stack + [Ref(r)] + [Int(i)] + [Int(v)]);
    assert Drop(m3, 3).stack == m.stack;
  }

  function DupSetByte(i: int, v: int): Program {
    [Instr(Value(OnStack(Dup)), "dup"), Instr(Value(Const(PushInt(i))), "int"),
     Instr(Value(Const(PushInt(v))), "int"), Instr(Value(OnBits(SetByte)), "setbyte")]
  }

  /** `dup; int i; int v; setbyte`: the copy below the result changes with it, so it keeps its old value, as TEAL's
      by-value arrays would, exactly when the stored byte is the one already there. */
  lemma DupThenSetByte(m: Machine, i: nat, v: byte, c: TealCtx)
    requires 1 <= |m.stack| && |m.stack| + 3 <= STACK_CAPACITY
    requires Peek(m, 0).Ref? && i < |Deref(m.st.heap, Peek(m, 0).r)|
    ensures var r := Peek(m, 0).r;
            var after := m.st.(heap := HeapWithByte(m.st.heap, r, i, v));
            && RunFrom(DupSetByte(i, v), 0, m, StepperOf(c)) == Done(m.(stack := m.stack + [Ref(r)], st := after))
            && (Deref(after.heap, r) == Deref(m.st.heap, r) <==> v == Deref(m.st.heap, r)[i])
  {
    hide Step, RunFrom, WithByte, HeapWithByte;
    var p, f, r := DupSetByte(i, v), StepperOf(c), Peek(m, 0).r;
    var m1 := m.(stack := m.stack + [Ref(r)]);
    var m2 := m.(stack := m.stack + [Ref(r)] + [Int(i)]);
    var m3 := m.(stack := m.stack + [Ref(r)] + [Int(i)] + [Int(v)]);
    var m4 := m1.(st := m.st.(heap := HeapWithByte(m.st.heap, r, i, v)));
    DupStep(m, c);
    RunCont(p, 0, m, m1, f);
    PushIntStep(m1, i, c);
    RunCont(p, 1, m1, m2, f);
    PushIntStep(m2, v, c);
    RunCont(p, 2, m2, m3, f);
    SetByteStep(m, r, i, v, c);
    RunCont(p, 3, m3, m4, f);
    RunEnd(p, m4, f);
    HeapWithByteAt(m.st.heap, r, i, v);
    WithByteSame(Deref(m.st.heap, r), i, v);
  }
}
