/** The runtime's mutable state: account objects and the store that indexes them. */
module Stores {
  import opened Values
  import opened Teal
  import opened Ledger

  /** How a method ends: normally, or by throwing. */
  datatype Outcome = Pass | Throw(error: Error) {
    predicate IsFailure() {
      Throw?
    }
    function PropagateFailure(): Outcome
      requires Throw?
    {
      this
    }
  }

  /** A method agrees with its specification: same error, or the specified value. */
  predicate Agrees<T(==)>(spec: Result<T>, o: Outcome, now: T) {
    match spec
    case Ok(v) => o == Pass && now == v
    case Err(e) => o == Throw(e)
  }

  function OutcomeOf<T>(r: Result<T>): Outcome {
    if r.Ok? then Pass else Throw(r.error)
  }

  function ErrorOf(o: Outcome): Option<Error> {
    if o.Throw? then Some(o.error) else None
  }

  function Ensure(cond: bool, error: Error): Outcome {
    if cond then Pass else Throw(error)
  }

  /** Counts integers and byte slices one pair at a time. */
  method AssertValidSchema(kv: StateMap, schema: Schema) returns (o: Outcome)
    ensures o == Ensure(ValidSchema(kv, schema), InvalidSchema)
  {
    var numUint, byteSlices := 0, 0;
    var left := kv.Keys;
    ghost var ints, slices: set<Bytes> := {}, {};
    while left != {}
      invariant left <= kv.Keys
      invariant ints == (set k | k in kv && k !in left && kv[k].Int?) && numUint == |ints|
      invariant slices == (set k | k in kv && k !in left && kv[k].Ref?) && byteSlices == |slices|
      decreases |left|
    {
      var k :| k in left;
      left := left - {k};
      if kv[k].Ref? {
        byteSlices := byteSlices + 1;
        slices := slices + {k};
      } else {
        numUint := numUint + 1;
        ints := ints + {k};
      }
    }
    assert ints == (set k | k in kv && kv[k].Int?) && slices == (set k | k in kv && kv[k].Ref?);
    if numUint > schema.numUint || byteSlices > schema.numByteSlice {
      return Throw(InvalidSchema);
    }
    return Pass;
  }

  function FieldFor(f: ModFields, r: Role): Option<Address> {
    match r
    case Manager => f.manager
    case Reserve => f.reserve
    case Freezer => f.freeze
    case Clawback => f.clawback
  }

  function WithRole(d: AssetDef, r: Role, a: Address): AssetDef {
    match r
    case Manager => d.(manager := a)
    case Reserve => d.(reserve := a)
    case Freezer => d.(freeze := a)
    case Clawback => d.(clawback := a)
  }

  /** Goes over the four roles in order, changing the definition as it goes. */
  method CheckAndSetASAFields(fields: ModFields, asset: AssetDef) returns (o: Outcome, d: AssetDef)
    ensures Agrees(SetRoles(fields, asset), o, d)
  {
    var roles := [Manager, Reserve, Freezer, Clawback];
    d := asset;
    var i := 0;
    while i < |roles|
      invariant 0 <= i <= |roles|
      invariant forall j :: 0 <= j < i ==>
                  SetRole(FieldFor(fields, roles[j]), RoleOf(asset, roles[j])) == Ok(RoleOf(d, roles[j]))
      invariant forall j :: i <= j < |roles| ==> RoleOf(d, roles[j]) == RoleOf(asset, roles[j])
      invariant d == asset.(manager := d.manager, reserve := d.reserve, freeze := d.freeze, clawback := d.clawback)
    {
      var x := roles[i];
      var custom := FieldFor(fields, x);
      assert RoleOf(d, roles[i]) == RoleOf(asset, roles[i]);
      if IsDefined(custom) && RoleOf(d, x) == "" {
        assert SetRole(FieldFor(fields, roles[i]), RoleOf(asset, roles[i])).Err?;
        return Throw(BlankAddressError), d;
      } else if custom.Some? && RoleOf(d, x) != "" {
        d := WithRole(d, x, custom.value);
      }
      i := i + 1;
    }
    assert SetRole(FieldFor(fields, roles[0]), RoleOf(asset, roles[0])).Ok?;
    assert SetRole(FieldFor(fields, roles[1]), RoleOf(asset, roles[1])).Ok?;
    assert SetRole(FieldFor(fields, roles[2]), RoleOf(asset, roles[2])).Ok?;
    assert SetRole(FieldFor(fields, roles[3]), RoleOf(asset, roles[3])).Ok?;
    return Pass, d;
  }

  /** An account of the runtime; its maps are updated in place. */
  class AccountStore {
    const address: Address
    var amount: int
    var minBalance: int
    var assets: map<nat, Holding>
    var appsLocalState: map<nat, LocalState>
    var createdApps: map<nat, App>
    var createdAssets: map<nat, AssetDef>

    function Value(): Account
      reads this
    {
      Account(amount, minBalance, assets, appsLocalState, createdApps, createdAssets)
    }

    constructor (address: Address, balance: int)
      ensures this.address == address && Value() == FreshAccount(balance)
    {
      this.address := address;
      amount, minBalance := balance, ACCOUNT_MIN_BALANCE;
      assets, appsLocalState, createdApps, createdAssets := map[], map[], map[], map[];
    }

    /** A new object with the given contents. */
    constructor Filled(address: Address, acc: Account)
      ensures this.address == address && Value() == acc
    {
      this.address := address;
      amount, minBalance := acc.amount, acc.minBalance;
      assets, appsLocalState := acc.assets, acc.appsLocalState;
      createdApps, createdAssets := acc.createdApps, acc.createdAssets;
    }

    method AddAsset(id: nat, name: string, d: AsaSpec) returns (o: Outcome)
      modifies this
      ensures Agrees(AccountAddAsset(old(Value()), address, id, name, d), o, Value())
    {
      if |createdAssets| == MAX_ACCOUNT_ASSETS {
        return Throw(MaxLimitAssets);
      }
      minBalance := minBalance + ASSET_CREATION_FEE;
      createdAssets := createdAssets[id := NewAsset(address, name, d)];
      assets := assets[id := Holding(d.total, address, false)];
      return Pass;
    }

    method ModifyAsset(id: nat, fields: ModFields) returns (o: Outcome)
      modifies this`createdAssets
      ensures o == Pass <==> id in old(createdAssets) && SetRoles(fields, old(createdAssets[id])).Ok?
      ensures o == Pass ==> createdAssets == old(createdAssets)[id := SetRoles(fields, old(createdAssets[id])).value]
      ensures o.Throw? && id in old(createdAssets) ==> SetRoles(fields, old(createdAssets[id])) == Err(o.error)
      ensures id !in old(createdAssets) ==> o == Throw(AssetNotFound)
    {
      if id !in createdAssets {
        return Throw(AssetNotFound);
      }
      var d;
      o, d := CheckAndSetASAFields(fields, createdAssets[id]);
      createdAssets := createdAssets[id := d];
    }

    method CloseAsset(id: nat)
      modifies this
      ensures Value() == AccountCloseAsset(old(Value()), id)
    {
      if id in assets {
        minBalance := minBalance - ASSET_CREATION_FEE;
        assets := assets - {id};
      }
    }

    method SetFreezeState(id: nat, state: bool) returns (o: Outcome)
      modifies this`assets
      ensures o == Ensure(id in old(assets), AsaNotOptIn)
      ensures o == Pass ==> assets == old(assets)[id := old(assets[id]).(frozen := state)]
    {
      if id !in assets {
        return Throw(AsaNotOptIn);
      }
      assets := assets[id := assets[id].(frozen := state)];
      return Pass;
    }

    /** Adds to the amount of a holding; a debit is a negative credit. */
    method MoveUnits(id: nat, delta: int)
      requires id in assets
      modifies this`assets
      ensures assets == old(assets)[id := old(assets[id]).(amount := old(assets[id]).amount + delta)]
    {
      assets := assets[id := assets[id].(amount := assets[id].amount + delta)];
    }

    method DestroyAsset(id: nat) returns (o: Outcome)
      modifies this
      ensures Agrees(AccountDestroyAsset(old(Value()), id), o, Value())
    {
      if id !in assets || id !in createdAssets {
        return Throw(AssetNotFound);
      }
      if assets[id].amount != createdAssets[id].total {
        return Throw(AssetTotalError);
      }
      minBalance := minBalance - ASSET_CREATION_FEE;
      createdAssets := createdAssets - {id};
      assets := assets - {id};
      return Pass;
    }

    method OptInToASA(id: nat, holding: Holding) returns (o: Outcome)
      modifies this
      ensures Agrees(AccountOptInASA(old(Value()), id, holding), o, Value())
    {
      if id !in assets {
        if |createdAssets| + |assets| == MAX_ACCOUNT_ASSETS {
          return Throw(MaxLimitAssets);
        }
        minBalance := minBalance + ASSET_CREATION_FEE;
        assets := assets[id := holding];
      }
      return Pass;
    }

    method AddApp(appID: nat, k: Kind, clear: string) returns (o: Outcome)
      requires k.DeploySSC?
      modifies this
      ensures Agrees(AccountAddApp(old(Value()), address, appID, k, clear), o, Value())
    {
      if |createdApps| == MAX_ACCOUNT_APPS {
        return Throw(MaxLimitApps);
      }
      minBalance := minBalance + SchemaCost(k.globalSchema);
      createdApps := createdApps[appID := App(k.approval, clear, address, map[], k.globalSchema, k.localSchema)];
      return Pass;
    }

    method OptInToApp(appID: nat, schema: Schema) returns (o: Outcome)
      modifies this
      ensures Agrees(AccountOptInApp(old(Value()), appID, schema), o, Value())
    {
      if appID !in appsLocalState {
        if |appsLocalState| == MAX_ACCOUNT_APPS {
          return Throw(MaxLimitOptIn);
        }
        minBalance := minBalance + SchemaCost(schema);
        appsLocalState := appsLocalState[appID := LocalState(map[], schema)];
      }
      return Pass;
    }

    method DeleteApp(appID: nat) returns (o: Outcome)
      modifies this
      ensures o == Ensure(appID in old(createdApps), AppNotFound)
      ensures o == Pass ==>
                Value() == old(Value()).(minBalance := old(minBalance) - SchemaCost(old(createdApps[appID]).globalSchema),
                                         createdApps := old(createdApps) - {appID})
    {
      if appID !in createdApps {
        return Throw(AppNotFound);
      }
      minBalance := minBalance - SchemaCost(createdApps[appID].globalSchema);
      createdApps := createdApps - {appID};
      return Pass;
    }

    method CloseApp(appID: nat) returns (o: Outcome)
      modifies this
      ensures o == Ensure(appID in old(appsLocalState), AppNotFound)
      ensures o == Pass ==>
                Value() == old(Value()).(minBalance := old(minBalance) - SchemaCost(old(appsLocalState[appID]).schema),
                                         appsLocalState := old(appsLocalState) - {appID})
    {
      if appID !in appsLocalState {
        return Throw(AppNotFound);
      }
      minBalance := minBalance - SchemaCost(appsLocalState[appID].schema);
      appsLocalState := appsLocalState - {appID};
      return Pass;
    }

    /** Stores the pair first and checks the schema afterwards, so a pair that breaks the schema stays stored. */
    method SetLocalState(appID: nat, key: Bytes, value: StackElem) returns (o: Outcome)
      modifies this`appsLocalState
      ensures appID !in old(appsLocalState) ==> o == Throw(AppNotFound) && appsLocalState == old(appsLocalState)
      ensures appID in old(appsLocalState) ==>
                var kv := old(appsLocalState[appID]).kv[key := value];
                && Value() == WithLocal(old(Value()), appID, kv)
                && o == Ensure(ValidSchema(kv, old(appsLocalState[appID]).schema), InvalidSchema)
    {
      if appID !in appsLocalState {
        return Throw(AppNotFound);
      }
      var localState := appsLocalState[appID];
      appsLocalState := appsLocalState[appID := localState.(kv := localState.kv[key := value])];
      o := AssertValidSchema(appsLocalState[appID].kv, localState.schema);
    }

    method SetGlobalState(appID: nat, key: Bytes, value: StackElem) returns (o: Outcome)
      modifies this`createdApps
      ensures appID !in old(createdApps) ==> o == Throw(AppNotFound) && createdApps == old(createdApps)
      ensures appID in old(createdApps) ==>
                var globals := old(createdApps[appID]).globals[key := value];
                && Value() == WithGlobals(old(Value()), appID, globals)
                && o == Ensure(ValidSchema(globals, old(createdApps[appID]).globalSchema), InvalidSchema)
    {
      if appID !in createdApps {
        return Throw(AppNotFound);
      }
      var app := createdApps[appID];
      createdApps := createdApps[appID := app.(globals := app.globals[key := value])];
      o := AssertValidSchema(createdApps[appID].globals, app.globalSchema);
    }
  }

  /** Byte arrays that exist once for all stores and programs: the constant table's zero address, and the arrays that callers
      pass to logic signatures. */
  class SharedBytes {
    var arrays: seq<Bytes>

    constructor (arrays: seq<Bytes>)
      ensures this.arrays == arrays
    {
      this.arrays := arrays;
    }
  }

  /** Accounts by address, the indices of applications and assets, and the byte arrays that stack elements refer to: the
      store's own, and the shared ones, which belong to no store. */
  class Store {
    var accounts: map<Address, AccountStore>
    var globalApps: map<nat, Address>
    var assetDefs: map<nat, Address>
    var appCounter: nat
    var assetCounter: nat
    var heap: seq<Bytes>
    const shared: SharedBytes

    function Arrays(): Heap
      reads `heap, shared
    {
      Heap(heap, shared.arrays)
    }

    /** Every account object is filed under its own address, so different addresses are different objects. */
    ghost predicate Valid()
      reads this`accounts, accounts.Values
    {
      forall a :: a in accounts ==> accounts[a].address == a
    }

    ghost function Accounts(): map<Address, Account>
      reads this`accounts, accounts.Values
    {
      map a | a in accounts :: accounts[a].Value()
    }

    ghost function Abs(args: seq<nat>): State
      reads this, shared, accounts.Values
    {
      State(Accounts(), globalApps, assetDefs, appCounter, assetCounter, Arrays(), args)
    }

    lemma SameKeys()
      ensures Accounts().Keys == accounts.Keys
    {
    }

    lemma ValueAt(a: Address)
      requires a in accounts
      ensures a in Accounts() && Accounts()[a] == accounts[a].Value()
    {
    }

    /** Changing one account object changes one entry of the abstract map. */
    twostate lemma Replaced(a: Address)
      requires old(Valid()) && a in accounts && accounts == old(accounts)
      requires forall b :: b in accounts && b != a ==> unchanged(accounts[b])
      ensures Valid() && Accounts() == old(Accounts())[a := accounts[a].Value()]
    {
    }

    method PutLocal(a: Address, appID: nat, key: Bytes, value: StackElem) returns (o: Outcome)
      requires Valid() && a in accounts
      modifies accounts[a]
      ensures Valid()
      ensures var acc := old(Accounts()[a]);
              if appID !in acc.appsLocalState then o == Throw(AppNotFound) && Accounts() == old(Accounts())
              else var kv := acc.appsLocalState[appID].kv[key := value];
                   && Accounts() == old(Accounts())[a := WithLocal(acc, appID, kv)]
                   && o == Ensure(ValidSchema(kv, acc.appsLocalState[appID].schema), InvalidSchema)
    {
      o := accounts[a].SetLocalState(appID, key, value);
      Replaced(a);
    }

    method PutGlobal(a: Address, appID: nat, key: Bytes, value: StackElem) returns (o: Outcome)
      requires Valid() && a in accounts && appID in accounts[a].createdApps
      modifies accounts[a]
      ensures Valid()
      ensures var acc := old(Accounts()[a]);
              var globals := acc.createdApps[appID].globals[key := value];
              && Accounts() == old(Accounts())[a := WithGlobals(acc, appID, globals)]
              && o == Ensure(ValidSchema(globals, acc.createdApps[appID].globalSchema), InvalidSchema)
    {
      o := accounts[a].SetGlobalState(appID, key, value);
      Replaced(a);
    }

    method DeleteLocal(a: Address, appID: nat, key: Bytes)
      requires Valid() && a in accounts && appID in accounts[a].appsLocalState
      modifies accounts[a]
      ensures Valid()
      ensures var acc := old(Accounts()[a]);
              Accounts() == old(Accounts())[a := WithLocal(acc, appID, acc.appsLocalState[appID].kv - {key})]
    {
      var acc := accounts[a];
      var localState := acc.appsLocalState[appID];
      acc.appsLocalState := acc.appsLocalState[appID := localState.(kv := localState.kv - {key})];
      Replaced(a);
    }

    method DeleteGlobal(a: Address, appID: nat, key: Bytes)
      requires Valid() && a in accounts && appID in accounts[a].createdApps
      modifies accounts[a]
      ensures Valid()
      ensures var acc := old(Accounts()[a]);
              Accounts() == old(Accounts())[a := WithGlobals(acc, appID, acc.createdApps[appID].globals - {key})]
    {
      var acc := accounts[a];
      var app := acc.createdApps[appID];
      acc.createdApps := acc.createdApps[appID := app.(globals := app.globals - {key})];
      Replaced(a);
    }

    constructor (shared: SharedBytes)
      ensures accounts == map[] && globalApps == map[] && assetDefs == map[]
      ensures appCounter == 0 && assetCounter == 0 && heap == [] && this.shared == shared
    {
      accounts, globalApps, assetDefs, appCounter, assetCounter, heap := map[], map[], map[], 0, 0, [];
      this.shared := shared;
    }

    /** The given accounts and own arrays, with everything else as in another store. */
    constructor From(accs: map<Address, AccountStore>, heap: seq<Bytes>, other: Store)
      ensures accounts == accs && globalApps == other.globalApps && assetDefs == other.assetDefs
      ensures appCounter == other.appCounter && assetCounter == other.assetCounter
      ensures this.heap == heap && shared == other.shared
    {
      accounts, globalApps, assetDefs := accs, other.globalApps, other.assetDefs;
      appCounter, assetCounter, this.heap, shared := other.appCounter, other.assetCounter, heap, other.shared;
    }

    ghost predicate CopyOf(acc: AccountStore, a: Address, value: Account)
      reads acc
    {
      acc.address == a && acc.Value() == value
    }

    /** What a copied account holds, when some account of the store refers to one of the `n` shared arrays and when not. */
    static function Copied(outside: bool, acc: Account, m: nat, n: nat): Account {
      if outside then DetachedAccount(acc, m, n) else acc
    }

    method CloneAccounts(outside: bool, m: nat, n: nat) returns (accs: map<Address, AccountStore>)
      requires Valid()
      ensures accs.Keys == accounts.Keys && fresh(accs.Values)
      ensures forall a :: a in accs ==> CopyOf(accs[a], a, Copied(outside, accounts[a].Value(), m, n))
    {
      accs := map[];
      var left := accounts.Keys;
      while left != {}
        invariant accs.Keys == accounts.Keys - left && left <= accounts.Keys
        invariant forall a :: a in accs ==>
                    fresh(accs[a]) && CopyOf(accs[a], a, Copied(outside, accounts[a].Value(), m, n))
        decreases |left|
      {
        var a :| a in left;
        left := left - {a};
        var acc := new AccountStore.Filled(a, Copied(outside, accounts[a].Value(), m, n));
        accs := accs[a := acc];
      }
    }

    lemma RefersOutsideIff()
      ensures RefersOutside(Abs([])) <==> exists a :: a in accounts && AccountRefersOutside(accounts[a].Value(), |shared.arrays|)
    {
      hide AccountRefersOutside;
      var s, n := Abs([]), |shared.arrays|;
      if RefersOutside(s) {
        var a :| a in s.accounts && AccountRefersOutside(s.accounts[a], n);
        assert AccountRefersOutside(accounts[a].Value(), n);
      }
      if a :| a in accounts && AccountRefersOutside(accounts[a].Value(), n) {
        ValueAt(a);
        assert AccountRefersOutside(s.accounts[a], n);
      }
    }

    lemma CopiedAccounts(copy: Store, outside: bool)
      requires copy.accounts.Keys == accounts.Keys
      requires forall a :: a in accounts ==>
                 copy.accounts[a].Value() == Copied(outside, accounts[a].Value(), |heap|, |shared.arrays|)
      ensures copy.Accounts() ==
              if outside then map a | a in Accounts() :: DetachedAccount(Accounts()[a], |heap|, |shared.arrays|) else Accounts()
    {
      hide DetachedAccount;
    }

    /** The copied accounts and arrays make up the deep copy. */
    lemma CopyIsDetached(copy: Store, outside: bool)
      requires outside <==> exists a :: a in accounts && AccountRefersOutside(accounts[a].Value(), |shared.arrays|)
      requires copy.shared == shared && copy.heap == if outside then heap + shared.arrays else heap
      requires copy.globalApps == globalApps && copy.assetDefs == assetDefs
      requires copy.appCounter == appCounter && copy.assetCounter == assetCounter
      requires copy.accounts.Keys == accounts.Keys
      requires forall a :: a in accounts ==>
                 copy.accounts[a].Value() == Copied(outside, accounts[a].Value(), |heap|, |shared.arrays|)
      ensures copy.Abs([]) == Opened(Abs([]))
    {
      hide DetachedAccount, RefersOutside, Store.Accounts;
      RefersOutsideIff();
      CopiedAccounts(copy, outside);
    }

    /** A deep copy: new account objects, and new arrays for the shared ones that stored values refer to. */
    method Clone() returns (copy: Store)
      requires Valid()
      ensures copy.Valid() && fresh(copy) && fresh(copy.accounts.Values) && copy.shared == shared
      ensures copy.Abs([]) == Opened(Abs([]))
    {
      hide DetachedAccount, AccountRefersOutside;
      var m, n := |heap|, |shared.arrays|;
      var outside := exists a :: a in accounts && AccountRefersOutside(accounts[a].Value(), n);
      var accs := CloneAccounts(outside, m, n);
      copy := new Store.From(accs, if outside then heap + shared.arrays else heap, this);
      CopyIsDetached(copy, outside);
    }
  }
}
