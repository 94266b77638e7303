/** Schema limits of committed stores, and the one way to break them: a clear program whose offending write survives it. */
module SchemaRuns {
  import opened Values
  import opened Teal
  import opened TealRun
  import opened TealFrames
  import opened TealSchema
  import opened Ledger
  import opened LedgerFrames
  import opened LedgerRuns
  import Parser

  predicate FitsAt(st: State, x: Place) {
    match x
    case Local(a, id) =>
      a in st.accounts && id in st.accounts[a].appsLocalState ==>
        ValidSchema(st.accounts[a].appsLocalState[id].kv, st.accounts[a].appsLocalState[id].schema)
    case Globals(a, id) =>
      a in st.accounts && id in st.accounts[a].createdApps ==>
        ValidSchema(st.accounts[a].createdApps[id].globals, st.accounts[a].createdApps[id].globalSchema)
  }

  lemma FitsEverywhere(st: State)
    ensures SchemaFits(st) <==> forall x :: FitsAt(st, x)
  {
    if forall x :: FitsAt(st, x) {
      forall a | a in st.accounts
        ensures AccountFits(st.accounts[a])
      {
        forall id | id in st.accounts[a].createdApps
          ensures ValidSchema(st.accounts[a].createdApps[id].globals, st.accounts[a].createdApps[id].globalSchema)
        {
          assert FitsAt(st, Globals(a, id));
        }
        forall id | id in st.accounts[a].appsLocalState
          ensures ValidSchema(st.accounts[a].appsLocalState[id].kv, st.accounts[a].appsLocalState[id].schema)
        {
          assert FitsAt(st, Local(a, id));
        }
      }
    } else {
      var x :| !FitsAt(st, x);
      assert x.a in st.accounts && !AccountFits(st.accounts[x.a]);
    }
  }

  /** The limits hold except at one place. */
  ghost predicate BrokenOnlyAt(st: State, x: Place) {
    forall y :: FitsAt(st, y) <==> y != x
  }

  /** Where an operator writes application state. */
  function WritePlace(op: Op, m: Machine, c: TealCtx): Option<Place> {
    if op.AppLocalPut? && |m.stack| >= 3 && Peek(m, 2).Int? && AccountAt(m.st, c, Peek(m, 2).n).Ok? then
      Some(Local(AccountAt(m.st, c, Peek(m, 2).n).value, AppIdOf(c.tx)))
    else if op.AppGlobalPut? && AppOwner(m.st, AppIdOf(c.tx)).Ok? then
      Some(Globals(AppOwner(m.st, AppIdOf(c.tx)).value, AppIdOf(c.tx)))
    else None
  }

  /** The place of the write that ends a run in a schema error. */
  function Offence(p: Program, pc: nat, m: Machine, c: TealCtx): Option<Place>
    decreases |p| - pc
  {
    if pc >= |p| then None
    else match Step(p[pc].op, m, c)
      case Cont(m1) => Offence(p, pc + 1, m1, c)
      case Halt(_) => None
      case Fail(e, _) => if e == InvalidSchema then WritePlace(p[pc].op, m, c) else None
      case Jump(name, m1) =>
        match FindLabel(p, pc + 1, name)
        case None => None
        case Some(t) => Offence(p, t, m1, c)
  }

  lemma LocalPutOffends(m: Machine, c: TealCtx)
    requires SchemaFits(m.st) && StepLocalPut(m, c).Fail? && StepLocalPut(m, c).error == InvalidSchema
    ensures var x := WritePlace(AppLocalPut, m, c); x.Some? && BrokenOnlyAt(StepLocalPut(m, c).st, x.value)
  {
    FitsEverywhere(m.st);
    var x, st := WritePlace(AppLocalPut, m, c).value, StepLocalPut(m, c).st;
    forall y
      ensures FitsAt(st, y) <==> y != x
    {
      assert FitsAt(m.st, y);
    }
  }

  lemma GlobalPutOffends(m: Machine, c: TealCtx)
    requires SchemaFits(m.st) && StepGlobalPut(m, c).Fail? && StepGlobalPut(m, c).error == InvalidSchema
    ensures var x := WritePlace(AppGlobalPut, m, c); x.Some? && BrokenOnlyAt(StepGlobalPut(m, c).st, x.value)
  {
    FitsEverywhere(m.st);
    var x, st := WritePlace(AppGlobalPut, m, c).value, StepGlobalPut(m, c).st;
    forall y
      ensures FitsAt(st, y) <==> y != x
    {
      assert FitsAt(m.st, y);
    }
  }

  lemma StepOffends(op: Op, m: Machine, c: TealCtx)
    requires SchemaFits(m.st) && Step(op, m, c).Fail? && Step(op, m, c).error == InvalidSchema
    ensures var x := WritePlace(op, m, c); x.Some? && BrokenOnlyAt(Step(op, m, c).st, x.value)
  {
    match op
    case AppLocalPut => LocalPutOffends(m, c);
    case AppGlobalPut => GlobalPutOffends(m, c);
    case AppLocalDel => LocalDelFits(m, c);
    case AppGlobalDel => GlobalDelFits(m, c);
    case _ => OtherNoSchemaError(op, m, c);
  }

  /** A run that ends in a schema error breaks the limits at the place of its last write, and nowhere else. */
  lemma {:induction false} RunOffends(p: Program, pc: nat, m: Machine, c: TealCtx)
    requires SchemaFits(m.st)
    ensures var st := StateOf(RunFrom(p, pc, m, StepperOf(c)));
            match Offence(p, pc, m, c)
            case None => SchemaFits(st)
            case Some(x) => BrokenOnlyAt(st, x)
    decreases |p| - pc
  {
    if pc < |p| {
      StepFits(p[pc].op, m, c);
      match Step(p[pc].op, m, c)
      case Cont(m1) => RunOffends(p, pc + 1, m1, c);
      case Halt(_) =>
      case Fail(e, _) =>
        if e == InvalidSchema {
          StepOffends(p[pc].op, m, c);
        }
      case Jump(name, m1) =>
        var t := FindLabel(p, pc + 1, name);
        if t.Some? {
          RunOffends(p, t.value, m1, c);
        }
    }
  }

  // ---- Transactions ----

  function ProgramOffence(s: State, program: string, p: Param, gtxs: seq<Txn>, chain: Chain): Option<Place> {
    match Parser.Parse(program, Parser.Application, |s.args|, chain.env)
    case Err(_) => None
    case Ok(parsed) => Offence(parsed.instrs, 0, InitMachine(s), TealCtx(p.txn, gtxs, chain.round, chain.timestamp, chain.env))
  }

  /** A clear transaction spoils the limits when its program's offending write is not in the local state it removes. */
  predicate Spoils(s: State, p: Param, gtxs: seq<Txn>, chain: Chain) {
    && p.kind.Clear? && GetApp(s, p.kind.appID).Ok?
    && var x := ProgramOffence(s, GetApp(s, p.kind.appID).value.clear, p, gtxs, chain);
       x.Some? && x.value != Local(p.sender, p.kind.appID)
  }

  lemma RunTealOffends(s: State, program: string, p: Param, gtxs: seq<Txn>, chain: Chain)
    requires SchemaFits(s)
    ensures var st := RunTeal(s, program, Parser.Application, p, gtxs, chain).st;
            match ProgramOffence(s, program, p, gtxs, chain)
            case None => SchemaFits(st)
            case Some(x) => BrokenOnlyAt(st, x)
  {
    var parsed := Parser.Parse(program, Parser.Application, |s.args|, chain.env);
    if parsed.Ok? {
      RunOffends(parsed.value.instrs, 0, InitMachine(s), TealCtx(p.txn, gtxs, chain.round, chain.timestamp, chain.env));
    }
  }

  lemma RunAcceptedFits(s: State, program: string, mode: Parser.Mode, p: Param, gtxs: seq<Txn>, chain: Chain)
    requires SchemaFits(s) && RunAccepted(s, program, mode, p, gtxs, chain).Ok?
    ensures SchemaFits(RunAccepted(s, program, mode, p, gtxs, chain).value)
  {
    var parsed := Parser.Parse(program, mode, |s.args|, chain.env).value;
    RunFits(parsed.instrs, 0, InitMachine(s), TealCtx(p.txn, gtxs, chain.round, chain.timestamp, chain.env));
  }

  lemma CountsBounded(kv: StateMap)
    ensures NumInts(kv) <= |kv| && NumByteSlices(kv) <= |kv|
  {
    CardinalityMonotone((set k | k in kv && kv[k].Int?), kv.Keys);
    CardinalityMonotone((set k | k in kv && kv[k].Ref?), kv.Keys);
  }

  lemma EmptyFits(schema: Schema)
    ensures ValidSchema(map[], schema)
  {
    CountsBounded(map[]);
  }

  lemma SameAppStatesFits(s: State, t: State)
    requires SchemaFits(s) && SameAppStates(s, t)
    ensures SchemaFits(t)
  {
    forall a | a in t.accounts
      ensures AccountFits(t.accounts[a])
    {
      assert AccountFits(s.accounts[a]);
    }
  }

  lemma ReplaceFits(s: State, a: Address, acc: Account)
    requires SchemaFits(s) && AccountFits(acc)
    ensures SchemaFits(WithAccount(s, a, acc))
  {
  }

  lemma JoinAppFits(s: State, a: Address, appID: nat)
    requires SchemaFits(s) && JoinApp(s, a, appID).Ok?
    ensures SchemaFits(JoinApp(s, a, appID).value)
  {
    assert AccountFits(s.accounts[a]);
    EmptyFits(GetApp(s, appID).value.localSchema);
    ReplaceFits(s, a, JoinApp(s, a, appID).value.accounts[a]);
  }

  lemma BeginAppFits(s: State, a: Address, k: Kind, clear: string)
    requires SchemaFits(s) && k.DeploySSC? && BeginApp(s, a, k, clear).Ok?
    ensures SchemaFits(BeginApp(s, a, k, clear).value)
  {
    assert AccountFits(s.accounts[a]);
    EmptyFits(k.globalSchema);
    ReplaceFits(s, a, BeginApp(s, a, k, clear).value.accounts[a]);
  }

  lemma FinishAppFits(s: State, a: Address)
    requires SchemaFits(s) && FinishApp(s, a).Ok?
    ensures SchemaFits(FinishApp(s, a).value)
  {
    var app := GetApp(s, 0).value;
    assert AccountFits(s.accounts[AppOwner(s, 0).value]) && AccountFits(s.accounts[a]);
    assert ValidSchema(app.globals, app.globalSchema);
    ReplaceFits(s, a, FinishApp(s, a).value.accounts[a]);
  }

  lemma LeaveAppFits(s: State, a: Address, appID: nat)
    requires SchemaFits(s) && LeaveApp(s, a, appID).Ok?
    ensures SchemaFits(LeaveApp(s, a, appID).value)
  {
    assert AccountFits(s.accounts[a]);
    ReplaceFits(s, a, LeaveApp(s, a, appID).value.accounts[a]);
  }

  lemma RemoveAppFits(s: State, appID: nat)
    requires SchemaFits(s) && RemoveApp(s, appID).Ok?
    ensures SchemaFits(RemoveApp(s, appID).value)
  {
    var a := AppOwner(s, appID).value;
    assert AccountFits(s.accounts[a]);
    ReplaceFits(s, a, RemoveApp(s, appID).value.accounts[a]);
  }

  lemma SetProgramsFits(s: State, appID: nat, approval: string, clear: string)
    requires SchemaFits(s) && SetPrograms(s, appID, approval, clear).Ok?
    ensures SchemaFits(SetPrograms(s, appID, approval, clear).value)
  {
    var a := AppOwner(s, appID).value;
    assert AccountFits(s.accounts[a]);
    ReplaceFits(s, a, SetPrograms(s, appID, approval, clear).value.accounts[a]);
  }

  /** Leaving removes one place, so it repairs exactly a breach in that place. */
  lemma LeaveAppRepairs(s: State, a: Address, appID: nat, x: Place)
    requires BrokenOnlyAt(s, x) && LeaveApp(s, a, appID).Ok?
    ensures SchemaFits(LeaveApp(s, a, appID).value) <==> x == Local(a, appID)
  {
    var t := LeaveApp(s, a, appID).value;
    forall y
      ensures FitsAt(t, y) <==> FitsAt(s, y) || y == Local(a, appID)
    {
    }
    FitsEverywhere(t);
    assert FitsAt(s, x) <==> x != x;
  }

  lemma ClearFits(s: State, p: Param, gtxs: seq<Txn>, chain: Chain)
    requires SchemaFits(s) && p.kind.Clear? && ClearApp(s, p, p.kind.appID, gtxs, chain).Ok?
    ensures SchemaFits(ClearApp(s, p, p.kind.appID, gtxs, chain).value) <==> !Spoils(s, p, gtxs, chain)
  {
    var program := GetApp(s, p.kind.appID).value.clear;
    var st := RunTeal(s, program, Parser.Application, p, gtxs, chain).st;
    RunTealOffends(s, program, p, gtxs, chain);
    match ProgramOffence(s, program, p, gtxs, chain)
    case None => LeaveAppFits(st, p.sender, p.kind.appID);
    case Some(x) => LeaveAppRepairs(st, p.sender, p.kind.appID, x);
  }

  lemma AppKindFits(s: State, p: Param, gtxs: seq<Txn>, chain: Chain)
    requires SchemaFits(s) && IsAppKind(p.kind) && ApplyAppKind(s, p, gtxs, chain).Ok?
    ensures SchemaFits(ApplyAppKind(s, p, gtxs, chain).value) <==> !Spoils(s, p, gtxs, chain)
  {
    match p.kind
    case CallNoOp(appID) =>
      RunAcceptedFits(s, GetApp(s, appID).value.approval, Parser.Application, p, gtxs, chain);
    case CloseOut(appID) =>
      RunAcceptedFits(s, GetApp(s, appID).value.approval, Parser.Application, p, gtxs, chain);
      LeaveAppFits(CallApp(s, p, appID, gtxs, chain).value, p.sender, appID);
    case Clear(_) => ClearFits(s, p, gtxs, chain);
    case Delete(appID) =>
      RunAcceptedFits(s, GetApp(s, appID).value.approval, Parser.Application, p, gtxs, chain);
      RemoveAppFits(CallApp(s, p, appID, gtxs, chain).value, appID);
    case Update(appID, approval, clear) =>
      RunAcceptedFits(s, GetApp(s, appID).value.approval, Parser.Application, p, gtxs, chain);
      SetProgramsFits(CallApp(s, p, appID, gtxs, chain).value, appID, approval, clear);
    case DeploySSC(approval, _, _) =>
      BeginAppFits(s, p.sender, p.kind, approval);
      var s1 := BeginApp(s, p.sender, p.kind, approval).value;
      RunAcceptedFits(s1, approval, Parser.Application, p, gtxs, chain);
      FinishAppFits(RunAccepted(s1, approval, Parser.Application, p, gtxs, chain).value, p.sender);
    case OptInSSC(appID) =>
      JoinAppFits(s, p.sender, appID);
      RunAcceptedFits(JoinApp(s, p.sender, appID).value, GetApp(s, appID).value.approval, Parser.Application, p, gtxs, chain);
  }

  lemma ApplyFits(s: State, p: Param, gtxs: seq<Txn>, chain: Chain)
    requires SchemaFits(s) && Apply(s, p, gtxs, chain).Ok?
    ensures SchemaFits(Apply(s, p, gtxs, chain).value) <==> !Spoils(s, p, gtxs, chain)
  {
    var t := Apply(s, p, gtxs, chain).value;
    if IsAppKind(p.kind) {
      AppKindFits(s, p, gtxs, chain);
    } else {
      if p.kind.TransferAlgo? {
        PaymentFrame(s, p.sender, p.kind.to, p.kind.microAlgos, p.closeTo);
        OnlyAmountsKeeps(s, t);
      } else if p.kind.DeployASA? {
        AddAssetFrame(s, p.sender, p.kind.name, chain.asaDefs[p.kind.name]);
      } else {
        AssetKindFrame(s, p);
      }
      SameAppStatesFits(s, t);
    }
  }

  lemma PrepareFits(s: State, p: Param, gtxs: seq<Txn>, chain: Chain)
    requires SchemaFits(s) && Prepare(s, p, gtxs, chain).Ok?
    ensures SchemaFits(Prepare(s, p, gtxs, chain).value)
  {
    var s1 := DeductFee(s, p.sender, p.txn.fee).value;
    FeeFrame(s, p.sender, p.txn.fee);
    OnlyAmountsKeeps(s, s1);
    SameAppStatesFits(s, s1);
    match p.sign
    case SecretKey =>
    case LogicSignature(lsig) =>
      var s2 := WithArgs(s1, lsig.value.args);
      SameAppStatesFits(s1, s2);
      RunAcceptedFits(s2, lsig.value.program, Parser.Signature, p, gtxs, chain);
  }

  /** A transaction that succeeds keeps every schema limit exactly unless it is a clear call that spoils them. */
  lemma TransactFits(s: State, p: Param, gtxs: seq<Txn>, chain: Chain)
    requires SchemaFits(s) && Transact(s, p, gtxs, chain).Ok?
    ensures SchemaFits(Transact(s, p, gtxs, chain).value) <==> !Spoils(Prepare(s, p, gtxs, chain).value, p, gtxs, chain)
  {
    PrepareFits(s, p, gtxs, chain);
    ApplyFits(Prepare(s, p, gtxs, chain).value, p, gtxs, chain);
  }

  // ---- Which clear programs spoil ----

  /** The program holds neither of the two operators that put a pair. */
  predicate PutsNothing(p: Program) {
    forall k :: 0 <= k < |p| ==> !p[k].op.AppLocalPut? && !p[k].op.AppGlobalPut?
  }

  lemma {:induction false} PutsNothingOffendsNothing(p: Program, pc: nat, m: Machine, c: TealCtx)
    requires PutsNothing(p)
    ensures Offence(p, pc, m, c) == None
    decreases |p| - pc
  {
    if pc < |p| {
      match Step(p[pc].op, m, c)
      case Cont(m1) => PutsNothingOffendsNothing(p, pc + 1, m1, c);
      case Halt(_) =>
      case Fail(_, _) =>
      case Jump(name, m1) =>
        var t := FindLabel(p, pc + 1, name);
        if t.Some? {
          PutsNothingOffendsNothing(p, t.value, m1, c);
        }
    }
  }

  /** The clear program of the call as it parses in the state the call finds. */
  function ClearProgram(s: State, p: Param, chain: Chain): Result<Parser.Parsed>
    requires p.kind.Clear?
  {
    var app :- GetApp(s, p.kind.appID);
    Parser.Parse(app.clear, Parser.Application, |s.args|, chain.env)
  }

  /** A clear call whose program has no put operator leaves every limit intact. */
  lemma PutsNothingSpoilsNothing(s: State, p: Param, gtxs: seq<Txn>, chain: Chain)
    requires p.kind.Clear?
    requires ClearProgram(s, p, chain).Ok? ==> PutsNothing(ClearProgram(s, p, chain).value.instrs)
    ensures !Spoils(s, p, gtxs, chain)
  {
    var parsed := ClearProgram(s, p, chain);
    if parsed.Ok? {
      var c := TealCtx(p.txn, gtxs, chain.round, chain.timestamp, chain.env);
      PutsNothingOffendsNothing(parsed.value.instrs, 0, InitMachine(s), c);
    }
  }

  /** The program pushes a key, pushes an integer, and puts the pair into the global state. */
  predicate PutsOneInteger(p: Program, key: Bytes, n: int) {
    && |p| == 3 && p[0].op == Value(Const(PushBytes(key))) && p[1].op == Value(Const(PushInt(n)))
    && p[2].op == AppGlobalPut
  }

  lemma PushedPair(m: Machine, c: TealCtx, key: Bytes, n: int)
    requires m.stack == []
    ensures var r := Ref(Own(|m.st.heap.own|));
            var m1 := m.(stack := [r], st := m.st.(heap := Alloc(m.st.heap, [key])));
            && Step(Value(Const(PushBytes(key))), m, c) == Cont(m1)
            && Step(Value(Const(PushInt(n))), m1, c) == Cont(m1.(stack := [r, Int(n)]))
  {
  }

  /** Putting the pair goes on when there is room for it, and otherwise fails the schema check. */
  lemma PutPair(m: Machine, c: TealCtx, r: Loc, n: int)
    requires m.stack == [Ref(r), Int(n)] && AppOwner(m.st, AppIdOf(c.tx)).Ok?
    ensures var owner, id := AppOwner(m.st, AppIdOf(c.tx)).value, AppIdOf(c.tx);
            var app, e := m.st.accounts[owner].createdApps[id], StepGlobalPut(m, c);
            && WritePlace(AppGlobalPut, m, c) == Some(Globals(owner, id))
            && if ValidSchema(app.globals[Deref(m.st.heap, r) := Int(n)], app.globalSchema) then e.Cont?
               else e.Fail? && e.error == InvalidSchema
  {
  }

  /** That program offends exactly when the application's global schema has no room for the pair. */
  lemma OneIntegerOffendsIff(p: Program, m: Machine, c: TealCtx, key: Bytes, n: int)
    requires PutsOneInteger(p, key, n) && m.stack == [] && AppOwner(m.st, AppIdOf(c.tx)).Ok?
    ensures var owner, id := AppOwner(m.st, AppIdOf(c.tx)).value, AppIdOf(c.tx);
            var app := m.st.accounts[owner].createdApps[id];
            Offence(p, 0, m, c) ==
            if ValidSchema(app.globals[key := Int(n)], app.globalSchema) then None else Some(Globals(owner, id))
  {
    hide StepValue, StepGlobalPut, WritePlace, ValidSchema;
    PushedPair(m, c, key, n);
    var r := Own(|m.st.heap.own|);
    var m1 := m.(stack := [Ref(r)], st := m.st.(heap := Alloc(m.st.heap, [key])));
    var m2 := m1.(stack := [Ref(r), Int(n)]);
    assert Offence(p, 0, m, c) == Offence(p, 1, m1, c) == Offence(p, 2, m2, c);
    assert Deref(m2.st.heap, r) == key;
    PutPair(m2, c, r, n);
    var e := Step(AppGlobalPut, m2, c);
    if e.Cont? {
      assert Offence(p, 3, e.m, c) == None;
    }
  }

  lemma NoRoomForIntegers(kv: StateMap, schema: Schema, key: Bytes, n: int)
    requires schema.numUint == 0
    ensures !ValidSchema(kv[key := Int(n)], schema)
  {
    var more := kv[key := Int(n)];
    CardinalityMonotone({key}, set k | k in more && more[k].Int?);
  }

  /** Whatever its program does, a clear call succeeds exactly when the application exists and the sender is in it. */
  lemma ClearSucceedsIff(s: State, p: Param, appID: nat, gtxs: seq<Txn>, chain: Chain)
    ensures ClearApp(s, p, appID, gtxs, chain).Ok?
            <==> GetApp(s, appID).Ok? && p.sender in s.accounts && appID in s.accounts[p.sender].appsLocalState
  {
    if GetApp(s, appID).Ok? {
      var program := GetApp(s, appID).value.clear;
      var t, owner := RunTeal(s, program, Parser.Application, p, gtxs, chain).st, AppOwner(s, appID).value;
      RunTealFrame(s, program, Parser.Application, p, gtxs, chain);
      assert SameAccount(s.accounts[owner], t.accounts[owner]) && AppOwner(t, appID) == Ok(owner);
      if p.sender in s.accounts {
        assert SameAccount(s.accounts[p.sender], t.accounts[p.sender]);
      }
    }
  }

  /** The clear call runs that program and the application's schema allows no integer in its global state. */
  predicate ClearsWithOneInteger(s: State, p: Param, chain: Chain, key: Bytes, n: int) {
    && p.kind.Clear? && GetApp(s, p.kind.appID).Ok? && AppIdOf(p.txn) == p.kind.appID
    && GetApp(s, p.kind.appID).value.globalSchema.numUint == 0
    && ClearProgram(s, p, chain).Ok? && PutsOneInteger(ClearProgram(s, p, chain).value.instrs, key, n)
  }

  lemma OneIntegerSpoils(s: State, p: Param, gtxs: seq<Txn>, chain: Chain, key: Bytes, n: int)
    requires ClearsWithOneInteger(s, p, chain, key, n)
    ensures Spoils(s, p, gtxs, chain)
  {
    var app := GetApp(s, p.kind.appID).value;
    var c := TealCtx(p.txn, gtxs, chain.round, chain.timestamp, chain.env);
    OneIntegerOffendsIff(ClearProgram(s, p, chain).value.instrs, InitMachine(s), c, key, n);
    NoRoomForIntegers(app.globals, app.globalSchema, key, n);
  }

  /** Such a call spoils the limits: it commits, and the integer stays. */
  lemma ClearWithOneIntegerSpoils(s: State, p: Param, gtxs: seq<Txn>, chain: Chain, key: Bytes, n: int)
    requires SchemaFits(s) && ClearsWithOneInteger(s, p, chain, key, n)
    requires p.sender in s.accounts && p.kind.appID in s.accounts[p.sender].appsLocalState
    ensures var r := ClearApp(s, p, p.kind.appID, gtxs, chain); r.Ok? && !SchemaFits(r.value)
  {
    OneIntegerSpoils(s, p, gtxs, chain, key, n);
    ClearSucceedsIff(s, p, p.kind.appID, gtxs, chain);
    ClearFits(s, p, gtxs, chain);
  }

  // ---- Runs ----

  predicate CleanGroup(s: State, g: Group, i: nat, gtxs: seq<Txn>, chain: Chain)
    requires i <= |g|
    decreases |g| - i
  {
    i == |g| || Transact(s, g[i], gtxs, chain).Err?
    || (!Spoils(Prepare(s, g[i], gtxs, chain).value, g[i], gtxs, chain)
        && CleanGroup(Transact(s, g[i], gtxs, chain).value, g, i + 1, gtxs, chain))
  }

  /** No committed group of the run holds a clear call that spoils the limits. */
  predicate CleanRun(s: State, calls: seq<Call>)
    decreases |calls|
  {
    calls == []
    || (var front, last := calls[..|calls| - 1], calls[|calls| - 1];
        && CleanRun(s, front)
        && (ExecuteTx(Run(s, front), last.group, last.chain).Ok? ==>
              CleanGroup(Opened(Run(s, front)), last.group, 0, Txns(last.group), last.chain)))
  }

  lemma {:induction false} GroupFits(s: State, g: Group, i: nat, gtxs: seq<Txn>, chain: Chain)
    requires i <= |g| && SchemaFits(s) && CleanGroup(s, g, i, gtxs, chain)
    ensures var r := Process(s, g, i, gtxs, chain); r.Ok? ==> SchemaFits(r.value)
    decreases |g| - i
  {
    if i < |g| {
      var r := Transact(s, g[i], gtxs, chain);
      if r.Ok? {
        TransactFits(s, g[i], gtxs, chain);
        GroupFits(r.value, g, i + 1, gtxs, chain);
      }
    }
  }

  lemma DetachedKvFits(kv: StateMap, m: nat, n: nat, schema: Schema)
    requires ValidSchema(kv, schema)
    ensures ValidSchema(DetachedKv(kv, m, n), schema)
  {
    var copy := DetachedKv(kv, m, n);
    assert (set k | k in copy && copy[k].Int?) == (set k | k in kv && kv[k].Int?);
    assert (set k | k in copy && copy[k].Ref?) == (set k | k in kv && kv[k].Ref?);
  }

  /** A deep copy keeps every limit: it has the same keys, with integers and byte slices in the same places. */
  lemma OpenedFits(s: State)
    requires SchemaFits(s)
    ensures SchemaFits(Opened(s))
  {
    hide ValidSchema, RefersOutside;
    var t, m, n := Opened(s), |s.heap.own|, |s.heap.shared|;
    forall a | a in t.accounts
      ensures AccountFits(t.accounts[a])
    {
      var acc := s.accounts[a];
      assert AccountFits(acc);
      forall id | id in acc.createdApps
        ensures ValidSchema(DetachedKv(acc.createdApps[id].globals, m, n), acc.createdApps[id].globalSchema)
      {
        DetachedKvFits(acc.createdApps[id].globals, m, n, acc.createdApps[id].globalSchema);
      }
      forall id | id in acc.appsLocalState
        ensures ValidSchema(DetachedKv(acc.appsLocalState[id].kv, m, n), acc.appsLocalState[id].schema)
      {
        DetachedKvFits(acc.appsLocalState[id].kv, m, n, acc.appsLocalState[id].schema);
      }
    }
  }

  lemma {:induction false} RunsFit(s: State, calls: seq<Call>)
    requires SchemaFits(s) && CleanRun(s, calls)
    ensures SchemaFits(Run(s, calls))
    decreases |calls|
  {
    if calls != [] {
      var front, last := calls[..|calls| - 1], calls[|calls| - 1];
      RunsFit(s, front);
      var s0, g := Opened(Run(s, front)), last.group;
      if ExecuteTx(Run(s, front), g, last.chain).Ok? {
        OpenedFits(Run(s, front));
        GroupFits(s0, g, 0, Txns(g), last.chain);
        var t := Process(s0, g, 0, Txns(g), last.chain).value;
        SameAppStatesFits(t, WithArgs(t, []));
      } else {
        SameAppStatesFits(Run(s, front), WithShared(Run(s, front), LeftShared(Run(s, front), g, last.chain)));
      }
    }
  }

  /** In every store committed from fresh accounts without a spoiling clear call, each global map and each opted-in local map
      holds at most its schema's number of integers and of byte slices. */
  lemma SchemaLimitsOverRuns(s: State, calls: seq<Call>)
    requires Fresh(s) && CleanRun(s, calls)
    ensures SchemaFits(Run(s, calls))
  {
    RunsFit(s, calls);
  }
}
