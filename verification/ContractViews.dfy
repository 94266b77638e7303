/** The contracts' state is a view of the ledger's: the operators that their programs use act on the view as modelled. */
module ContractViews {
  import opened Values
  import opened Teal
  import L = Ledger
  import opened LocalSchemas
  import opened ContractStates

  function KvView(heap: Heap, kv: StateMap): Kv {
    map k | k in kv :: ContentOf(heap, kv[k])
  }

  predicate OptedIn(s: State, a: Address, id: nat) {
    a in s.accounts && id in s.accounts[a].appsLocalState
  }

  function LocalsView(s: State, id: nat): map<Address, Kv> {
    map a | a in s.accounts && OptedIn(s, a, id) :: KvView(s.heap, s.accounts[a].appsLocalState[id].kv)
  }

  /** What the programs of application `id` see of the ledger. */
  function View(s: State, id: nat): AppState
    requires L.GetApp(s, id).Ok?
  {
    var app := L.GetApp(s, id).value;
    AppState(KvView(s.heap, app.globals), LocalsView(s, id), app.globalSchema, app.localSchema)
  }

  lemma ViewOfPut(heap: Heap, kv: StateMap, key: Bytes, v: StackElem, schema: Schema)
    ensures KvView(heap, kv[key := v]) == KvView(heap, kv)[key := ContentOf(heap, v)]
    ensures ValidSchema(kv, schema) <==> Fits(KvView(heap, kv), schema)
  {
    var view := KvView(heap, kv);
    assert (set k | k in view && view[k].Integer?) == (set k | k in kv && kv[k].Int?);
    assert (set k | k in view && view[k].Array?) == (set k | k in kv && kv[k].Ref?);
  }

  /** `app_global_put` stores a value exactly when the model does, and the view changes as the model says. */
  lemma GlobalPutIsPut(m: Machine, c: TealCtx, id: nat)
    requires id == AppIdOf(c.tx) && L.GetApp(m.st, id).Ok? && |m.stack| >= 2 && Peek(m, 1).Ref?
    ensures var put := GlobalPut(View(m.st, id), Deref(m.st.heap, Peek(m, 1).r), ContentOf(m.st.heap, Peek(m, 0)));
            match Teal.Step(AppGlobalPut, m, c)
            case Cont(after) => L.GetApp(after.st, id).Ok? && put == Ok(View(after.st, id)) && after.stack == Drop(m, 2).stack
            case Fail(e, _) => put == Err(e)
            case _ => false
  {
    hide ValidSchema, Fits, KvView;
    var a, key, v := AppOwner(m.st, id).value, Deref(m.st.heap, Peek(m, 1).r), Peek(m, 0);
    var app := m.st.accounts[a].createdApps[id];
    var globals := app.globals[key := v];
    ViewOfPut(m.st.heap, app.globals, key, v, app.globalSchema);
    ViewOfPut(m.st.heap, globals, key, v, app.globalSchema);
    assert globals[key := v] == globals;
    var st := SetAccount(m.st, a, WithGlobals(m.st.accounts[a], id, globals));
    assert Teal.Step(AppGlobalPut, m, c)
        == if ValidSchema(globals, app.globalSchema) then Cont(Drop(m, 2).(st := st)) else Fail(InvalidSchema, st);
    SameLocals(m.st, st, id);
  }

  /** Accounts with the same local states give the same view of them. */
  lemma SameLocals(s: State, t: State, id: nat)
    requires s.heap == t.heap && s.accounts.Keys == t.accounts.Keys
    requires forall a :: a in s.accounts ==> t.accounts[a].appsLocalState == s.accounts[a].appsLocalState
    ensures LocalsView(t, id) == LocalsView(s, id)
  {
    hide KvView;
    assert LocalsView(t, id).Keys == LocalsView(s, id).Keys;
  }

  /** `app_local_put` likewise. That local states have the layout of their application holds after every run and while programs
      run. */
  lemma LocalPutIsPut(m: Machine, c: TealCtx, id: nat, a: Address)
    requires id == AppIdOf(c.tx) && L.GetApp(m.st, id).Ok? && |m.stack| >= 3 && Peek(m, 1).Ref? && Peek(m, 2).Int?
    requires AccountAt(m.st, c, Peek(m, 2).n) == Ok(a)
    requires LocalsAgree(m.st)
    ensures var put := LocalPut(View(m.st, id), a, Deref(m.st.heap, Peek(m, 1).r), ContentOf(m.st.heap, Peek(m, 0)));
            match Teal.Step(AppLocalPut, m, c)
            case Cont(after) => L.GetApp(after.st, id).Ok? && put == Ok(View(after.st, id)) && after.stack == Drop(m, 3).stack
            case Fail(e, _) => put == Err(e)
            case _ => false
  {
    hide ValidSchema, Fits, KvView;
    if OptedIn(m.st, a, id) {
      assert AgreesAt(m.st, m.st.accounts[a].appsLocalState[id].schema, id);
      var key, v, local := Deref(m.st.heap, Peek(m, 1).r), Peek(m, 0), m.st.accounts[a].appsLocalState[id];
      var kv := local.kv[key := v];
      ViewOfPut(m.st.heap, local.kv, key, v, local.schema);
      ViewOfPut(m.st.heap, kv, key, v, local.schema);
      assert kv[key := v] == kv;
      var st := SetAccount(m.st, a, WithLocal(m.st.accounts[a], id, kv));
      assert Teal.Step(AppLocalPut, m, c)
          == if ValidSchema(kv, local.schema) then Cont(Drop(m, 3).(st := st)) else Fail(InvalidSchema, st);
      OneLocal(m.st, st, id, a);
    }
  }

  /** A change of one account's local state changes the view at that account. */
  lemma OneLocal(s: State, t: State, id: nat, a: Address)
    requires s.heap == t.heap && s.accounts.Keys == t.accounts.Keys && OptedIn(s, a, id) && OptedIn(t, a, id)
    requires forall b :: b in s.accounts && b != a ==> t.accounts[b] == s.accounts[b]
    ensures LocalsView(t, id) == LocalsView(s, id)[a := KvView(t.heap, t.accounts[a].appsLocalState[id].kv)]
  {
    hide KvView;
    forall b | b in s.accounts
      ensures OptedIn(t, b, id) <==> OptedIn(s, b, id)
    {
    }
  }

  /** `app_global_get` pushes what the model reads; an absent key and a stored zero both read as zero. */
  lemma GlobalGetIsGet(m: Machine, c: TealCtx, id: nat)
    requires id == AppIdOf(c.tx) && L.GetApp(m.st, id).Ok? && 1 <= |m.stack| <= STACK_CAPACITY && Peek(m, 0).Ref?
    ensures var r := StepAppRead(AppGlobalGet, m, c);
            && r.Ok? && |r.value.stack| == |m.stack| && r.value.st == m.st
            && ContentOf(m.st.heap, Peek(r.value, 0)) == GlobalGet(View(m.st, id), Deref(m.st.heap, Peek(m, 0).r))
  {
  }

  lemma LocalGetIsGet(m: Machine, c: TealCtx, id: nat, a: Address)
    requires id == AppIdOf(c.tx) && L.GetApp(m.st, id).Ok? && 2 <= |m.stack| <= STACK_CAPACITY && Peek(m, 0).Ref? && Peek(m, 1).Int?
    requires AccountAt(m.st, c, Peek(m, 1).n) == Ok(a)
    ensures var r := StepAppRead(AppLocalGet, m, c);
            && r.Ok? && |r.value.stack| == |m.stack| - 1 && r.value.st == m.st
            && ContentOf(m.st.heap, Peek(r.value, 0)) == LocalGet(View(m.st, id), a, Deref(m.st.heap, Peek(m, 0).r))
  {
  }

  lemma NothingStored(heap: Heap)
    ensures KvView(heap, map[]) == map[]
  {
  }

  /** Opting in to an application and leaving it act on the view as the contracts' life cycle says. */
  lemma JoinIsJoin(s: State, id: nat, a: Address)
    requires L.JoinApp(s, a, id).Ok?
    ensures var t := L.JoinApp(s, a, id).value;
            L.GetApp(s, id).Ok? && L.GetApp(t, id).Ok? && View(t, id) == Join(View(s, id), a)
  {
    hide KvView;
    var t := L.JoinApp(s, a, id).value;
    if OptedIn(s, a, id) {
      SameLocals(s, t, id);
    } else {
      NothingStored(s.heap);
      assert LocalsView(t, id) == LocalsView(s, id)[a := map[]];
    }
  }

  lemma LeaveIsLeave(s: State, id: nat, a: Address)
    requires L.GetApp(s, id).Ok? && a in s.accounts
    ensures match L.LeaveApp(s, a, id)
            case Ok(t) => L.GetApp(t, id).Ok? && Leave(View(s, id), a) == Ok(View(t, id))
            case Err(e) => Leave(View(s, id), a) == Err(e)
  {
    hide KvView, SchemaCost;
    if L.LeaveApp(s, a, id).Ok? {
      assert LocalsView(L.LeaveApp(s, a, id).value, id) == LocalsView(s, id) - {a};
    }
  }
}
