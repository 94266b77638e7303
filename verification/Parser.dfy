/** The TEAL parser: lines to instructions, with the gas they cost. */
module Parser {
  import opened Values
  import opened Teal
  import opened TealRun
  import Tokenizer

  datatype Mode = Signature | Application

  const LOGIC_SIG_MAX_COST := 20000
  const MAX_APP_PROGRAM_COST := 700
  const MAX_TEAL_VERSION := 3

  /** What the parser has accumulated: TEAL version, gas and instructions. */
  datatype Parsed = Parsed(version: int, gas: nat, instrs: Program)

  /** Cost of an opcode name in a TEAL version. */
  function OpGasCost(version: int, opcode: string): nat {
    if opcode == "sha256" then (if version == 1 then 7 else 35)
    else if opcode == "sha512_256" then (if version == 1 then 9 else 45)
    else if opcode == "keccak256" then (if version == 1 then 26 else 130)
    else if opcode == "ed25519verify" then 1900
    else 1
  }

  /** Labels and the version pragma are free. */
  function InstrCost(version: int, i: Instr): nat {
    if i.op.Label? || i.opcode == "#pragma" then 0 else OpGasCost(version, i.opcode)
  }

  function TotalCost(version: int, p: Program): nat {
    if p == [] then 0 else TotalCost(version, p[..|p| - 1]) + InstrCost(version, p[|p| - 1])
  }

  predicate StartsWith(s: string, prefix: string) {
    prefix <= s
  }

  /** `split(':')[0]`. */
  function BeforeColon(s: string): string {
    if s == [] || s[0] == ':' then [] else [s[0]] + BeforeColon(s[1..])
  }

  /** Rewrites `arg_N`, `intc_N` and `bytec_N` to the opcode with N as its argument. */
  function Expand(words: seq<string>): Result<(string, seq<string>)>
    requires words != []
  {
    var first := words[0];
    if StartsWith(first, "arg_") then (if |words| == 1 then Ok(("arg", [first[4..]])) else Err(AssertLength))
    else if StartsWith(first, "intc_") then (if |words| == 1 then Ok(("intc", [first[5..]])) else Err(AssertLength))
    else if StartsWith(first, "bytec_") then (if |words| == 1 then Ok(("bytec", [first[6..]])) else Err(AssertLength))
    else Ok((first, words[1..]))
  }

  /** Reads the version pragma, which only the first line may carry. */
  function PragmaVersion(args: seq<string>, line: nat, env: Env): Result<int> {
    if |args| != 2 then Err(AssertLength)
    else if line > 1 then Err(PragmaNotAtFirstLine)
    else if args[0] == "version" && env.number(args[1]).Some? && env.number(args[1]).value <= MAX_TEAL_VERSION
    then Ok(env.number(args[1]).value)
    else Err(PragmaVersionError)
  }

  predicate ReadsArg(op: Op) {
    op.Value? && op.value.Const? && op.value.const_.Arg?
  }

  /** Builds the operator; an argument opcode reads its argument already here. */
  function Construct(opcode: string, args: seq<string>, version: int, nargs: nat, env: Env): Result<Op> {
    var built := env.construct(opcode, args, version);
    if built.None? || built.value.Label? then Err(InvalidOperand) // only `name:` makes a label
    else
      var op := built.value;
      if ReadsArg(op) && !InBounds(op.value.const_.index, nargs) then Err(IndexOutOfBound) else Ok(op)
  }

  /** One sentence. `nargs` is the number of logic-signature arguments in the context. */
  function OpcodeFromSentence(words: seq<string>, line: nat, p: Parsed, nargs: nat, env: Env): Result<Parsed>
    requires words != []
  {
    var expanded :- Expand(words);
    var (opcode, args) := expanded;
    if p.version !in {1, 2, 3} then Err(JsTypeError)
    else if opcode != [] && opcode[|opcode| - 1] == ':' then
      if |args| != 0 then Err(AssertLength)
      else if env.knownOpcode(p.version, opcode[..|opcode| - 1]) then Err(InvalidLabel)
      else Ok(p.(instrs := p.instrs + [Instr(Label(BeforeColon(opcode)), opcode)]))
    else if opcode == "#pragma" then
      var version :- PragmaVersion(args, line, env);
      Ok(p.(version := version, instrs := p.instrs + [Instr(Pragma, opcode)]))
    else if !env.knownOpcode(p.version, opcode) then Err(UnknownOpcode)
    else
      var op :- Construct(opcode, args, p.version, nargs, env);
      Ok(p.(gas := p.gas + OpGasCost(p.version, opcode), instrs := p.instrs + [Instr(op, opcode)]))
  }

  predicate SkippedLine(line: string) {
    |line| == 0 || StartsWith(line, "//")
  }

  function ParseLine(line: string, counter: nat, p: Parsed, nargs: nat, env: Env): Result<Parsed> {
    if SkippedLine(line) || Tokenizer.Words(line) == [] then Ok(p)
    else OpcodeFromSentence(Tokenizer.Words(line), counter, p, nargs, env)
  }

  /** Lines before `k`, in order. */
  function ParseLines(lines: seq<string>, k: nat, nargs: nat, env: Env): Result<Parsed>
    requires k <= |lines|
  {
    if k == 0 then Ok(Parsed(1, 0, []))
    else
      var p :- ParseLines(lines, k - 1, nargs, env);
      ParseLine(lines[k - 1], k, p, nargs, env)
  }

  function MaxCost(mode: Mode): nat {
    if mode == Signature then LOGIC_SIG_MAX_COST else MAX_APP_PROGRAM_COST
  }

  /** `split('\n')`. */
  function SplitLines(text: string): seq<string> {
    SplitFrom(text, 0, 0)
  }

  function SplitFrom(text: string, start: nat, i: nat): seq<string>
    requires start <= i <= |text|
    decreases |text| - i
  {
    if i == |text| then [text[start..]]
    else if text[i] == '\n' then [text[start..i]] + SplitFrom(text, i + 1, i + 1)
    else SplitFrom(text, start, i + 1)
  }

  function Parse(text: string, mode: Mode, nargs: nat, env: Env): Result<Parsed> {
    var lines := SplitLines(text);
    var p :- ParseLines(lines, |lines|, nargs, env);
    if p.gas > MaxCost(mode) then Err(MaxCostExceeded) else Ok(p)
  }

  /** The parser's loop over lines, accumulating version, gas and instructions. */
  method ParseProgram(text: string, mode: Mode, nargs: nat, env: Env) returns (r: Result<Parsed>)
    ensures r == Parse(text, mode, nargs, env)
  {
    var parsed := Parsed(1, 0, []);
    var counter := 0;
    var lines := SplitLines(text);
    for k := 0 to |lines|
      invariant counter == k
      invariant ParseLines(lines, k, nargs, env) == Ok(parsed)
    {
      counter := counter + 1;
      var line := lines[k];
      var step := Ok(parsed);
      if line != [] && !StartsWith(line, "//") {
        var words := Tokenizer.WordsFromLine(line);
        if words != [] {
          step := OpcodeFromSentence(words, counter, parsed, nargs, env);
        }
      }
      assert step == ParseLines(lines, k + 1, nargs, env);
      if step.Err? {
        FailedPrefix(lines, k + 1, |lines|, nargs, env);
        return Err(step.error);
      }
      parsed := step.value;
    }
    if parsed.gas > MaxCost(mode) {
      return Err(MaxCostExceeded);
    }
    return Ok(parsed);
  }

  /** A failing line fails the whole text with the same error. */
  lemma {:induction false} FailedPrefix(lines: seq<string>, k: nat, n: nat, nargs: nat, env: Env)
    requires k <= n <= |lines| && ParseLines(lines, k, nargs, env).Err?
    ensures ParseLines(lines, n, nargs, env) == Err(ParseLines(lines, k, nargs, env).error)
    decreases n
  {
    if k < n {
      FailedPrefix(lines, k, n - 1, nargs, env);
    }
  }

  // ---- Gas ----

  /** The gas the parser accumulates is the cost of the instructions it returns, priced at the final version;
      only the first line can change the version, and everything before it is free. */
  lemma {:induction false} GasIsTotalCost(lines: seq<string>, k: nat, nargs: nat, env: Env)
    requires k <= |lines| && ParseLines(lines, k, nargs, env).Ok?
    ensures var p := ParseLines(lines, k, nargs, env).value; p.gas == TotalCost(p.version, p.instrs)
    ensures k == 0 ==> ParseLines(lines, k, nargs, env).value.instrs == []
  {
    hide OpGasCost, Tokenizer.Words;
    if k > 0 {
      GasIsTotalCost(lines, k - 1, nargs, env);
      var before, p := ParseLines(lines, k - 1, nargs, env).value, ParseLines(lines, k, nargs, env).value;
      if p.instrs != before.instrs {
        assert p.instrs[..|p.instrs| - 1] == before.instrs;
      }
    }
  }

  /** Summed cost of the instructions at a list of positions. */
  function CostAt(version: int, p: Program, positions: seq<nat>): nat {
    if positions == [] then 0
    else
      (if positions[0] < |p| then InstrCost(version, p[positions[0]]) else 0) + CostAt(version, p, positions[1..])
  }

  /** Cost of the instructions from a position on. */
  function CostFrom(version: int, p: Program, k: nat): nat
    decreases |p| - k
  {
    if k >= |p| then 0 else InstrCost(version, p[k]) + CostFrom(version, p, k + 1)
  }

  lemma {:induction false} CostFromMonotone(version: int, p: Program, j: nat, k: nat)
    requires j <= k
    ensures CostFrom(version, p, k) <= CostFrom(version, p, j)
    decreases k - j
  {
    if j < k {
      CostFromMonotone(version, p, j + 1, k);
    }
  }

  lemma {:induction false} CostOfPrefix(version: int, p: Program, k: nat)
    requires k <= |p|
    ensures TotalCost(version, p) == TotalCost(version, p[..k]) + CostFrom(version, p, k)
    decreases |p| - k
  {
    if k == |p| {
      assert p[..k] == p;
    } else {
      CostOfPrefix(version, p, k + 1);
      assert p[..k + 1][..k] == p[..k];
    }
  }

  /** What a run from `pc` executes costs at most the instructions from `pc` on. */
  lemma {:induction false} VisitedCost(version: int, p: Program, pc: nat, m: Machine, f: Stepper)
    ensures CostAt(version, p, Visited(p, pc, m, f)) <= CostFrom(version, p, pc)
    decreases |p| - pc
  {
    if pc < |p| {
      match LoopTurn(p, pc, m, f)
      case Stop(_) =>
      case Goto(next, m1) =>
        VisitedCost(version, p, next, m1, f);
        CostFromMonotone(version, p, pc + 1, next);
        assert ([pc] + Visited(p, next, m1, f))[1..] == Visited(p, next, m1, f);
    }
  }

  /** For every accepted program, the opcode cost any run incurs is at most the parser's gas, hence at most 20000
      in signature mode and 700 in application mode. */
  lemma StaticGasBoundsDynamicCost(text: string, mode: Mode, nargs: nat, env: Env, m: Machine, f: Stepper)
    requires Parse(text, mode, nargs, env).Ok?
    ensures var p := Parse(text, mode, nargs, env).value;
            && CostAt(p.version, p.instrs, Visited(p.instrs, 0, m, f)) <= p.gas
            && p.gas <= (if mode == Signature then 20000 else 700)
  {
    var lines := SplitLines(text);
    GasIsTotalCost(lines, |lines|, nargs, env);
    var p := Parse(text, mode, nargs, env).value;
    VisitedCost(p.version, p.instrs, 0, m, f);
    CostOfPrefix(p.version, p.instrs, 0);
    assert p.instrs[..0] == [];
  }
}
