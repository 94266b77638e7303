/** Running a program: the recursive semantics, the loop with its forward jumps, and what a run visits. */
module TealRun {
  import opened Values
  import opened Teal

  /** A parsed instruction keeps the opcode name it was priced under. */
  datatype Instr = Instr(op: Op, opcode: string)

  type Program = seq<Instr>

  /** What one operator does to a machine; the runs below hold for any such function. */
  type Stepper = (Op, Machine) -> Exec

  /** The operators of `Teal.Step`, in a given context. */
  function StepperOf(c: TealCtx): Stepper {
    (op, m) => Step(op, m, c)
  }

  datatype RunResult = Done(m: Machine) | Failed(error: Error, st: State)

  /** First position at or after `from` that carries the label. */
  function FindLabel(p: Program, from: nat, name: string): (t: Option<nat>)
    ensures t.Some? ==> from <= t.value < |p| && p[t.value].op == Label(name)
    ensures t.Some? ==> forall k :: from <= k < t.value ==> p[k].op != Label(name)
    ensures t.None? ==> forall k :: from <= k < |p| ==> p[k].op != Label(name)
    decreases |p| - from
  {
    if from >= |p| then None
    else if p[from].op == Label(name) then Some(from)
    else FindLabel(p, from + 1, name)
  }

  /** Recursive semantics: a jump continues at the first later matching label. */
  function RunFrom(p: Program, pc: nat, m: Machine, f: Stepper): RunResult
    decreases |p| - pc
  {
    if pc >= |p| then Done(m)
    else match f(p[pc].op, m)
      case Cont(m1) => RunFrom(p, pc + 1, m1, f)
      case Halt(m1) => Done(m1)
      case Fail(e, st) => Failed(e, st)
      case Jump(name, m1) =>
        match FindLabel(p, pc + 1, name)
        case None => Failed(LabelNotFound, m1.st)
        case Some(t) => RunFrom(p, t, m1, f)
  }

  /** Last position of the run of labels that contains `t`. */
  function EndOfLabels(p: Program, t: nat): (u: nat)
    requires t < |p|
    ensures t <= u < |p|
    ensures forall k :: t < k <= u ==> p[k].op.Label?
    ensures u + 1 < |p| ==> !p[u + 1].op.Label?
    decreases |p| - t
  {
    if t + 1 < |p| && p[t + 1].op.Label? then EndOfLabels(p, t + 1) else t
  }

  /** The instruction index after a jump: the end of the label run, or none if the label is missing. */
  function JumpForward(p: Program, pc: nat, name: string): Option<nat> {
    match FindLabel(p, pc + 1, name)
    case None => None
    case Some(t) => Some(EndOfLabels(p, t))
  }

  /** One turn of the interpreter's loop. */
  datatype Turn = Goto(pc: nat, m: Machine) | Stop(r: RunResult)

  function LoopTurn(p: Program, pc: nat, m: Machine, f: Stepper): (t: Turn)
    requires pc < |p|
    ensures t.Goto? ==> t.pc > pc
  {
    TurnAfter(f(p[pc].op, m), p, pc)
  }

  /** Where the loop goes after an operator at `pc` ended as `e`. */
  function TurnAfter(e: Exec, p: Program, pc: nat): (t: Turn)
    requires pc < |p|
    ensures t.Goto? ==> t.pc > pc
  {
    match e
    case Cont(m1) => Goto(pc + 1, m1)
    case Halt(m1) => Goto(|p| + 1, m1)
    case Fail(e, st) => Stop(Failed(e, st))
    case Jump(name, m1) =>
      match JumpForward(p, pc, name)
      case None => Stop(Failed(LabelNotFound, m1.st))
      case Some(u) => Goto(u + 1, m1)
  }

  /** The loop as a function, with the positions it executes. */
  function Loop(p: Program, pc: nat, m: Machine, f: Stepper): RunResult
    decreases |p| - pc
  {
    if pc >= |p| then Done(m)
    else match LoopTurn(p, pc, m, f)
      case Goto(next, m1) => Loop(p, next, m1, f)
      case Stop(r) => r
  }

  function Visited(p: Program, pc: nat, m: Machine, f: Stepper): seq<nat>
    decreases |p| - pc
  {
    if pc >= |p| then []
    else match LoopTurn(p, pc, m, f)
      case Goto(next, m1) => [pc] + Visited(p, next, m1, f)
      case Stop(_) => [pc]
  }

  /** The machines of a run of the loop: the first one, and the one after each turn that does not fail. */
  function Machines(p: Program, pc: nat, m: Machine, f: Stepper): (ms: seq<Machine>)
    ensures |ms| > 0 && ms[0] == m
    decreases |p| - pc
  {
    if pc >= |p| then [m]
    else match LoopTurn(p, pc, m, f)
      case Goto(next, m1) => [m] + Machines(p, next, m1, f)
      case Stop(_) => [m]
  }

  predicate IsNoOp(op: Op, m: Machine, f: Stepper) {
    f(op, m) == Cont(m)
  }

  ghost predicate SkipsLabels(f: Stepper) {
    forall op: Op, m: Machine :: op.Label? ==> IsNoOp(op, m, f)
  }

  lemma TealSkipsLabels(c: TealCtx)
    ensures SkipsLabels(StepperOf(c))
  {
  }

  /** Labels do nothing, so starting inside a run of labels or right after it is the same. */
  lemma {:induction false} LabelsAreNoOps(p: Program, t: nat, u: nat, m: Machine, f: Stepper)
    requires t <= u <= |p| && forall k :: t <= k < u ==> p[k].op.Label?
    requires SkipsLabels(f)
    ensures RunFrom(p, t, m, f) == RunFrom(p, u, m, f)
    decreases u - t
  {
    if t < u {
      assert IsNoOp(p[t].op, m, f);
      LabelsAreNoOps(p, t + 1, u, m, f);
    }
  }

  /** The loop that skips label runs computes the recursive semantics. */
  lemma {:induction false} LoopRefinesRecursion(p: Program, pc: nat, m: Machine, f: Stepper)
    requires SkipsLabels(f)
    ensures Loop(p, pc, m, f) == RunFrom(p, pc, m, f)
    decreases |p| - pc
  {
    if pc < |p| {
      match LoopTurn(p, pc, m, f)
      case Stop(_) =>
      case Goto(next, m1) =>
        LoopRefinesRecursion(p, next, m1, f);
        match f(p[pc].op, m)
        case Jump(name, m2) =>
          var t := FindLabel(p, pc + 1, name).value;
          LabelsAreNoOps(p, t, EndOfLabels(p, t) + 1, m2, f);
        case _ =>
    }
  }

  predicate Increasing(s: seq<nat>) {
    forall i, j :: 0 <= i < j < |s| ==> s[i] < s[j]
  }

  lemma IncreasingCons(x: nat, s: seq<nat>, lo: nat, hi: nat)
    requires Increasing(s) && x < lo && x < hi && forall k :: 0 <= k < |s| ==> lo <= s[k] < hi
    ensures Increasing([x] + s)
    ensures forall k :: 0 <= k <= |s| ==> x <= ([x] + s)[k] < hi
  {
  }

  /** Every instruction executes at most once: the visited positions strictly increase. */
  lemma {:induction false} VisitedIncreasing(p: Program, pc: nat, m: Machine, f: Stepper)
    ensures Increasing(Visited(p, pc, m, f))
    ensures forall k :: 0 <= k < |Visited(p, pc, m, f)| ==> pc <= Visited(p, pc, m, f)[k] < |p|
    decreases |p| - pc
  {
    if pc < |p| {
      match LoopTurn(p, pc, m, f)
      case Stop(_) =>
      case Goto(next, m1) =>
        VisitedIncreasing(p, next, m1, f);
        IncreasingCons(pc, Visited(p, next, m1, f), next, |p|);
    }
  }

  // ---- Invariants of runs ----

  /** One operator keeps `inv` while the run goes on, and leaves a state in `final` when it fails. */
  predicate StepKeeps(e: Exec, inv: Machine -> bool, final: State -> bool) {
    match e
    case Cont(m) => inv(m)
    case Jump(_, m) => inv(m) && final(m.st)
    case Halt(m) => inv(m)
    case Fail(_, st) => final(st)
  }

  predicate RunKeeps(r: RunResult, inv: Machine -> bool, final: State -> bool) {
    match r
    case Done(m) => inv(m)
    case Failed(_, st) => final(st)
  }

  /** An invariant of the single operators is an invariant of every run. */
  lemma {:induction false} RunInvariant(p: Program, pc: nat, m: Machine, f: Stepper, inv: Machine -> bool, final: State -> bool)
    requires inv(m)
    requires forall k, m1 :: 0 <= k < |p| && inv(m1) ==> StepKeeps(f(p[k].op, m1), inv, final)
    ensures RunKeeps(RunFrom(p, pc, m, f), inv, final)
    decreases |p| - pc
  {
    if pc < |p| {
      assert StepKeeps(f(p[pc].op, m), inv, final);
      match f(p[pc].op, m)
      case Cont(m1) => RunInvariant(p, pc + 1, m1, f, inv, final);
      case Halt(_) =>
      case Fail(_, _) =>
      case Jump(name, m1) =>
        var t := FindLabel(p, pc + 1, name);
        if t.Some? {
          RunInvariant(p, t.value, m1, f, inv, final);
        }
    }
  }

  /** The same invariant holds of every machine the loop goes through, not only of the last. */
  lemma {:induction false} MachinesInvariant(p: Program, pc: nat, m: Machine, f: Stepper, inv: Machine -> bool, final: State -> bool)
    requires inv(m)
    requires forall k, m1 :: 0 <= k < |p| && inv(m1) ==> StepKeeps(f(p[k].op, m1), inv, final)
    ensures forall k :: 0 <= k < |Machines(p, pc, m, f)| ==> inv(Machines(p, pc, m, f)[k])
    decreases |p| - pc
  {
    if pc < |p| {
      assert StepKeeps(f(p[pc].op, m), inv, final);
      match LoopTurn(p, pc, m, f)
      case Stop(_) =>
      case Goto(next, m1) => MachinesInvariant(p, next, m1, f, inv, final);
    }
  }

  /** A run that ends ends in the last of its machines, and each turn executes one instruction. */
  lemma {:induction false} MachinesEnd(p: Program, pc: nat, m: Machine, f: Stepper)
    requires SkipsLabels(f)
    ensures var ms, r := Machines(p, pc, m, f), RunFrom(p, pc, m, f);
            && |Visited(p, pc, m, f)| <= |ms| <= |Visited(p, pc, m, f)| + 1
            && (r.Done? ==> ms[|ms| - 1] == r.m && |ms| == |Visited(p, pc, m, f)| + 1)
    decreases |p| - pc
  {
    LoopRefinesRecursion(p, pc, m, f);
    if pc < |p| {
      match LoopTurn(p, pc, m, f)
      case Stop(_) =>
      case Goto(next, m1) =>
        MachinesEnd(p, next, m1, f);
        LoopRefinesRecursion(p, next, m1, f);
    }
  }

  // ---- Acceptance ----

  /** A program accepts when exactly one positive integer is left. */
  predicate Accepts(r: RunResult) {
    r.Done? && |r.m.stack| == 1 && r.m.stack[0].Int? && r.m.stack[0].n > 0
  }

  function InitMachine(st: State): Machine {
    Machine([], seq(SCRATCH_SIZE, _ => Int(0)), [], [], st)
  }

  function StateOf(r: RunResult): State {
    match r
    case Done(m) => m.st
    case Failed(_, st) => st
  }

  /** Verdict of a whole run: the state left behind, and the error if the program did not accept. */
  datatype Verdict = Verdict(st: State, error: Option<Error>)

  function Judge(r: RunResult): Verdict {
    match r
    case Failed(e, st) => Verdict(st, Some(e))
    case Done(m) => Verdict(m.st, if Accepts(r) then None else Some(RejectedByLogic))
  }
}
