/** Schema limits under TEAL writes: a pair is stored first and checked afterwards. */
module TealSchema {
  import opened Values
  import opened Teal
  import opened TealRun
  import opened TealFrames

  predicate AccountFits(acc: Account) {
    && (forall id :: id in acc.createdApps ==> ValidSchema(acc.createdApps[id].globals, acc.createdApps[id].globalSchema))
    && (forall id :: id in acc.appsLocalState ==> ValidSchema(acc.appsLocalState[id].kv, acc.appsLocalState[id].schema))
  }

  /** Every global and every local map holds at most its schema's number of integers and of byte slices. */
  predicate SchemaFits(st: State) {
    forall a :: a in st.accounts ==> AccountFits(st.accounts[a])
  }

  lemma CardinalityMonotone<T>(x: set<T>, y: set<T>)
    requires x <= y
    ensures |x| <= |y|
  {
    assert y == x + (y - x);
  }

  /** Deleting keys never adds to either count. */
  lemma RemovalFits(kv: StateMap, key: Bytes, schema: Schema)
    requires ValidSchema(kv, schema)
    ensures ValidSchema(kv - {key}, schema)
  {
    var less := kv - {key};
    CardinalityMonotone(set k | k in less && less[k].Int?, set k | k in kv && kv[k].Int?);
    CardinalityMonotone(set k | k in less && less[k].Ref?, set k | k in kv && kv[k].Ref?);
  }

  lemma SetAccountFits(st: State, a: Address, acc: Account)
    requires SchemaFits(st)
    ensures SchemaFits(SetAccount(st, a, acc)) <==> AccountFits(acc)
  {
    if SchemaFits(SetAccount(st, a, acc)) {
      assert a in SetAccount(st, a, acc).accounts;
    }
  }

  lemma WithLocalFits(acc: Account, appID: nat, kv: StateMap)
    requires AccountFits(acc) && appID in acc.appsLocalState
    ensures AccountFits(WithLocal(acc, appID, kv)) <==> ValidSchema(kv, acc.appsLocalState[appID].schema)
  {
    var after := WithLocal(acc, appID, kv);
    if AccountFits(after) {
      assert appID in after.appsLocalState;
    }
  }

  lemma WithGlobalsFits(acc: Account, appID: nat, globals: StateMap)
    requires AccountFits(acc) && appID in acc.createdApps
    ensures AccountFits(WithGlobals(acc, appID, globals)) <==> ValidSchema(globals, acc.createdApps[appID].globalSchema)
  {
    var after := WithGlobals(acc, appID, globals);
    if AccountFits(after) {
      assert appID in after.createdApps;
    }
  }

  /** A step that goes on keeps the limits; one that fails breaks them exactly when it fails the schema check. */
  predicate FitsAfter(e: Exec) {
    match e
    case Cont(m) => SchemaFits(m.st)
    case Jump(_, m) => SchemaFits(m.st)
    case Halt(m) => SchemaFits(m.st)
    case Fail(error, st) => SchemaFits(st) <==> error != InvalidSchema
  }

  lemma LocalPutFits(m: Machine, c: TealCtx)
    requires SchemaFits(m.st)
    ensures FitsAfter(StepLocalPut(m, c))
  {
    if |m.stack| >= 3 && Peek(m, 1).Ref? && Peek(m, 2).Int? && AccountAt(m.st, c, Peek(m, 2).n).Ok? {
      var a, appID := AccountAt(m.st, c, Peek(m, 2).n).value, AppIdOf(c.tx);
      var acc := m.st.accounts[a];
      assert AccountFits(acc);
      if appID in acc.appsLocalState {
        var kv := acc.appsLocalState[appID].kv[Deref(m.st.heap, Peek(m, 1).r) := Peek(m, 0)];
        WithLocalFits(acc, appID, kv);
        SetAccountFits(m.st, a, WithLocal(acc, appID, kv));
      }
    }
  }

  lemma GlobalPutFits(m: Machine, c: TealCtx)
    requires SchemaFits(m.st)
    ensures FitsAfter(StepGlobalPut(m, c))
  {
    if |m.stack| >= 2 && Peek(m, 1).Ref? && AppOwner(m.st, AppIdOf(c.tx)).Ok? {
      var a, appID := AppOwner(m.st, AppIdOf(c.tx)).value, AppIdOf(c.tx);
      var acc := m.st.accounts[a];
      assert AccountFits(acc);
      var globals := acc.createdApps[appID].globals[Deref(m.st.heap, Peek(m, 1).r) := Peek(m, 0)];
      WithGlobalsFits(acc, appID, globals);
      SetAccountFits(m.st, a, WithGlobals(acc, appID, globals));
    }
  }

  predicate ResultFits(r: Result<Machine>) {
    match r
    case Ok(m) => SchemaFits(m.st)
    case Err(e) => e != InvalidSchema
  }

  lemma LocalDelFits(m: Machine, c: TealCtx)
    requires SchemaFits(m.st)
    ensures ResultFits(StepLocalDel(m, c))
  {
    if StepLocalDel(m, c).Ok? {
      var a, appID := AccountAt(m.st, c, Peek(m, 1).n).value, AppIdOf(c.tx);
      var acc := m.st.accounts[a];
      assert AccountFits(acc);
      if appID in acc.appsLocalState {
        var key := Deref(m.st.heap, Peek(m, 0).r);
        RemovalFits(acc.appsLocalState[appID].kv, key, acc.appsLocalState[appID].schema);
        WithLocalFits(acc, appID, acc.appsLocalState[appID].kv - {key});
        SetAccountFits(m.st, a, WithLocal(acc, appID, acc.appsLocalState[appID].kv - {key}));
      }
    }
  }

  lemma GlobalDelFits(m: Machine, c: TealCtx)
    requires SchemaFits(m.st)
    ensures ResultFits(StepGlobalDel(m, c))
  {
    if StepGlobalDel(m, c).Ok? {
      var a, appID := AppOwner(m.st, AppIdOf(c.tx)).value, AppIdOf(c.tx);
      var acc := m.st.accounts[a];
      assert AccountFits(acc);
      var key := Deref(m.st.heap, Peek(m, 0).r);
      RemovalFits(acc.createdApps[appID].globals, key, acc.createdApps[appID].globalSchema);
      WithGlobalsFits(acc, appID, acc.createdApps[appID].globals - {key});
      SetAccountFits(m.st, a, WithGlobals(acc, appID, acc.createdApps[appID].globals - {key}));
    }
  }

  lemma OnlyHeapFits(s: State, t: State)
    requires SchemaFits(s) && OnlyHeap(s, t)
    ensures SchemaFits(t)
  {
  }

  /** The other operators never report a schema error. */
  predicate NoSchemaError(e: Exec) {
    e.Fail? ==> e.error != InvalidSchema
  }

  lemma ArithNoSchemaError(op: ArithOp, m: Machine)
    ensures StepArith(op, m) != Err(InvalidSchema)
  {
  }

  lemma BytesNoSchemaError(op: BytesOp, m: Machine, env: Env)
    ensures StepBytes(op, m, env) != Err(InvalidSchema)
  {
  }

  lemma BitsNoSchemaError(op: BitsOp, m: Machine)
    ensures StepBits(op, m) != Err(InvalidSchema)
  {
  }

  lemma StackNoSchemaError(op: StackOp, m: Machine)
    ensures StepStack(op, m) != Err(InvalidSchema)
  {
  }

  lemma ConstNoSchemaError(op: ConstOp, m: Machine)
    ensures StepConst(op, m) != Err(InvalidSchema)
  {
  }

  lemma ValueNoSchemaError(op: ValueOp, m: Machine, env: Env)
    ensures StepValue(op, m, env) != Err(InvalidSchema)
  {
    match op
    case OnInts(o) => ArithNoSchemaError(o, m);
    case OnBytes(o) => BytesNoSchemaError(o, m, env);
    case OnBits(o) => BitsNoSchemaError(o, m);
    case OnStack(o) => StackNoSchemaError(o, m);
    case Const(o) => ConstNoSchemaError(o, m);
  }

  lemma TxnNoSchemaError(op: TxnOp, m: Machine, c: TealCtx)
    ensures StepTxn(op, m, c) != Err(InvalidSchema)
  {
  }

  lemma AppReadNoSchemaError(op: AppReadOp, m: Machine, c: TealCtx)
    ensures StepAppRead(op, m, c) != Err(InvalidSchema)
  {
  }

  lemma ReadNoSchemaError(op: ReadOp, m: Machine, c: TealCtx)
    ensures StepRead(op, m, c) != Err(InvalidSchema)
  {
    match op
    case ReadTxn(o) => TxnNoSchemaError(o, m, c);
    case ReadApp(o) => AppReadNoSchemaError(o, m, c);
    case Global(_) =>
  }

  lemma AssetParamsNoSchemaError(f: ParamField, m: Machine, c: TealCtx)
    ensures NoSchemaError(StepAssetParams(f, m, c))
  {
  }

  lemma StepFits(op: Op, m: Machine, c: TealCtx)
    requires SchemaFits(m.st)
    ensures FitsAfter(Step(op, m, c))
  {
    match op
    case AppLocalPut => LocalPutFits(m, c);
    case AppGlobalPut => GlobalPutFits(m, c);
    case AppLocalDel => LocalDelFits(m, c);
    case AppGlobalDel => GlobalDelFits(m, c);
    case _ =>
      StepOnlyHeap(op, m, c);
      OnlyHeapFits(m.st, StateAfter(Step(op, m, c)));
      OtherNoSchemaError(op, m, c);
  }

  lemma OtherNoSchemaError(op: Op, m: Machine, c: TealCtx)
    requires !WritesState(op)
    ensures NoSchemaError(Step(op, m, c))
  {
    match op
    case Value(o) => ValueNoSchemaError(o, m, c.env);
    case Read(o) => ReadNoSchemaError(o, m, c);
    case AssetParamsGet(f) => AssetParamsNoSchemaError(f, m, c);
    case _ =>
  }

  /** A run keeps the limits exactly unless it ends in a schema error, because the offending pair stays stored. */
  lemma {:induction false} RunFits(p: Program, pc: nat, m: Machine, c: TealCtx)
    requires SchemaFits(m.st)
    ensures var r := RunFrom(p, pc, m, StepperOf(c));
            SchemaFits(StateOf(r)) <==> !(r.Failed? && r.error == InvalidSchema)
    decreases |p| - pc
  {
    if pc < |p| {
      var f := StepperOf(c);
      StepFits(p[pc].op, m, c);
      match f(p[pc].op, m)
      case Cont(m1) => RunFits(p, pc + 1, m1, c);
      case Halt(_) =>
      case Fail(_, _) =>
      case Jump(name, m1) =>
        var t := FindLabel(p, pc + 1, name);
        if t.Some? {
          RunFits(p, t.value, m1, c);
        }
    }
  }
}
