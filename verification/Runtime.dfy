/** The runtime: groups execute on a copy of the store, which replaces the store only if the whole group succeeds. */
module Runtimes {
  import opened Values
  import opened Teal
  import opened Ledger
  import opened Stores
  import opened Contexts

  /** An account put into the store, with its applications and assets entered in the indices. */
  function Filed(s: State, a: Address, acc: Account): State {
    s.(accounts := s.accounts[a := acc],
       globalApps := s.globalApps + Owned(acc.createdApps.Keys, a),
       assetDefs := s.assetDefs + Owned(acc.createdAssets.Keys, a))
  }

  function Owned(ids: set<nat>, a: Address): map<nat, Address> {
    map id | id in ids :: a
  }

  ghost function FiledAll(s: State, accs: seq<AccountStore>): State
    reads accs
  {
    if accs == [] then s
    else
      var front, last := accs[..|accs| - 1], accs[|accs| - 1];
      Filed(FiledAll(s, front), last.address, last.Value())
  }

  /** A store without accounts, among the given shared arrays. */
  function Bare(shared: seq<Bytes>): State {
    State(map[], map[], map[], 0, 0, Heap([], shared), [])
  }

  /** A store set up from fresh accounts is fresh, so every property of runs from fresh accounts is one of this runtime. */
  lemma {:induction false} FreshAccountsMakeFreshStore(accs: seq<AccountStore>, shared: seq<Bytes>)
    requires forall i :: 0 <= i < |accs| ==>
               accs[i].address != "" && accs[i].amount >= 0 && accs[i].Value() == FreshAccount(accs[i].amount)
    ensures Fresh(FiledAll(Bare(shared), accs)) && FiledAll(Bare(shared), accs).args == []
  {
    if accs != [] {
      var front, last := accs[..|accs| - 1], accs[|accs| - 1];
      FreshAccountsMakeFreshStore(front, shared);
      var s := FiledAll(Bare(shared), front);
      assert last == accs[|accs| - 1];
      assert s.globalApps + Owned(last.Value().createdApps.Keys, last.address) == map[];
      assert s.assetDefs + Owned(last.Value().createdAssets.Keys, last.address) == map[];
    }
  }

  class Runtime {
    var store: Store
    var round: int
    var timestamp: int
    const env: Env
    const loadedAssetsDefs: map<string, AsaSpec>

    function CurrentChain(): Chain
      reads this`round, this`timestamp
    {
      Chain(env, round, timestamp, loadedAssetsDefs)
    }

    constructor (accounts: seq<AccountStore>, env: Env, defs: map<string, AsaSpec>, shared: SharedBytes)
      ensures store.Valid() && store.Abs([]) == FiledAll(Bare(shared.arrays), accounts) && store.shared == shared
      ensures round == 2 && timestamp == 1 && this.env == env && loadedAssetsDefs == defs
    {
      var s := new Store(shared);
      store, round, timestamp := s, 2, 1;
      this.env, loadedAssetsDefs := env, defs;
      new;
      InitializeAccounts(accounts);
    }

    /** Files the given account objects themselves, not copies of them. */
    method InitializeAccounts(accounts: seq<AccountStore>)
      requires store.Valid()
      modifies store`accounts, store`globalApps, store`assetDefs
      ensures store.Valid() && store.Abs([]) == FiledAll(old(store.Abs([])), accounts)
    {
      hide Store.Accounts, Store.Abs, Filed;
      ghost var s := store.Abs([]);
      for i := 0 to |accounts|
        invariant store.Valid() && store.Abs([]) == FiledAll(s, accounts[..i])
      {
        assert accounts[..i + 1][..i] == accounts[..i];
        FileAccount(accounts[i]);
      }
      assert accounts[..|accounts|] == accounts;
    }

    method PutAccount(acc: AccountStore)
      requires store.Valid()
      modifies store`accounts
      ensures store.Valid() && store.Accounts() == old(store.Accounts())[acc.address := acc.Value()]
    {
      store.accounts := store.accounts[acc.address := acc];
    }

    method FileAccount(acc: AccountStore)
      requires store.Valid()
      modifies store`accounts, store`globalApps, store`assetDefs
      ensures store.Valid() && store.Abs([]) == Filed(old(store.Abs([])), acc.address, acc.Value())
    {
      hide Store.Accounts;
      PutAccount(acc);
      store.globalApps := store.globalApps + Owned(acc.createdApps.Keys, acc.address);
      store.assetDefs := store.assetDefs + Owned(acc.createdAssets.Keys, acc.address);
    }

    /** The encoded transactions of a group; too large a group, or an unknown asset definition, is an error. */
    method CreateTxnContext(g: Group) returns (o: Outcome, txns: seq<Txn>)
      ensures o == if |g| > MAX_GROUP then Throw(GroupTooLarge)
                   else Ensure(forall i :: 0 <= i < |g| ==> Encodable(g[i], CurrentChain()), AsaDefNotFound)
      ensures o == Pass ==> txns == Txns(g)
    {
      txns := [];
      :- Ensure(|g| <= MAX_GROUP, GroupTooLarge);
      for i := 0 to |g|
        invariant txns == Txns(g)[..i]
        invariant forall k :: 0 <= k < i ==> Encodable(g[k], CurrentChain())
      {
        if g[i].kind.DeployASA? && g[i].kind.name !in loadedAssetsDefs {
          assert !Encodable(g[i], CurrentChain());
          return Throw(AsaDefNotFound), txns;
        }
        txns := txns + [g[i].txn];
      }
      return Pass, txns;
    }

    method ValidateTxRound(gtxns: seq<Txn>) returns (o: Outcome)
      ensures o == Ensure(forall i :: 0 <= i < |gtxns| ==> ValidRound(gtxns[i], round), InvalidRound)
    {
      for i := 0 to |gtxns|
        invariant forall k :: 0 <= k < i ==> ValidRound(gtxns[k], round)
      {
        if gtxns[i].fv >= round || gtxns[i].lv <= round {
          assert !ValidRound(gtxns[i], round);
          return Throw(InvalidRound);
        }
      }
      return Pass;
    }

    method CheckTxns(g: Group) returns (o: Outcome, gtxs: seq<Txn>)
      ensures o == OutcomeOf(CheckGroup(g, CurrentChain()))
      ensures o == Pass ==> gtxs == Txns(g)
    {
      gtxs :- CreateTxnContext(g);
      o := ValidateTxRound(gtxs);
      assert forall i :: 0 <= i < |g| ==> gtxs[i] == g[i].txn;
    }

    /** A context over a deep copy of the store. */
    method NewContext(gtxs: seq<Txn>) returns (ctx: Ctx)
      requires store.Valid()
      ensures fresh(ctx) && fresh(ctx.state) && fresh(ctx.state.accounts.Values) && ctx.Valid()
      ensures ctx.Abs() == Opened(store.Abs([])) && ctx.state.shared == store.shared && ctx.gtxs == gtxs && ctx.chain == CurrentChain()
    {
      var copy := store.Clone();
      ctx := new Ctx(copy, gtxs, CurrentChain());
    }

    /** Changes nothing that existed before except the shared arrays. */
    method RunOnCopy(g: Group, gtxs: seq<Txn>) returns (o: Outcome, copy: Store, ghost args: seq<nat>)
      requires store.Valid() && gtxs == Txns(g)
      modifies store.shared
      ensures fresh(copy) && copy.Valid() && fresh(copy.accounts.Values) && copy.shared == store.shared
      ensures Agrees(Process(old(Opened(store.Abs([]))), g, 0, gtxs, CurrentChain()), o, copy.Abs(args))
      ensures store.shared.arrays == ProcessShared(old(Opened(store.Abs([]))), g, 0, gtxs, CurrentChain())
    {
      hide Store.Accounts, Process, ProcessShared, Opened;
      var ctx := NewContext(gtxs);
      o := ctx.ProcessTransactions(g);
      copy, args := ctx.state, ctx.args;
    }

    /** Runs a group on a deep copy of the store. On success the copy becomes the store; on failure the store is the same
        object. Either way no field of the old store and none of its account objects has changed; of all that it can reach,
        only the shared arrays may have, and they are as the programs of the group left them. */
    method ExecuteTx(g: Group) returns (o: Outcome)
      requires store.Valid()
      modifies this`store, store.shared
      ensures store.Valid() && store.shared == old(store.shared)
      ensures o == OutcomeOf(Ledger.ExecuteTx(old(store.Abs([])), g, CurrentChain()))
      ensures store.Abs([]) == After(old(store.Abs([])), Call(g, CurrentChain()))
      ensures unchanged(old(store)) && forall a :: a in old(store.accounts) ==> unchanged(old(store.accounts[a]))
      ensures if o == Pass then fresh(store) && fresh(store.accounts.Values) else store == old(store)
    {
      hide Store.Accounts, Process, ProcessShared, CheckGroup, Opened;
      ghost var s := store.Abs([]);
      var gtxs :- CheckTxns(g);
      var copy: Store;
      ghost var args: seq<nat>;
      copy, args :- RunOnCopy(g, gtxs);
      store := copy;
      return Pass;
    }

    /** A logic signature's account starts empty, replacing whatever account had its address. */
    method GetLogicSig(program: string, address: Address) returns (o: Outcome)
      requires store.Valid()
      modifies store`accounts
      ensures store.Valid() && o == Ensure(program != "", InvalidProgram)
      ensures store.Accounts() ==
              if o == Pass then old(store.Accounts())[address := FreshAccount(0)] else old(store.Accounts())
    {
      o := Pass;
      :- Ensure(program != "", InvalidProgram);
      var acc := new AccountStore(address, 0);
      store.accounts := store.accounts[address := acc];
      return Pass;
    }

    method SetRoundAndTimestamp(r: int, timestamp: int)
      modifies this`round, this`timestamp
      ensures CurrentChain() == old(CurrentChain()).(round := r, timestamp := timestamp)
    {
      this.round, this.timestamp := r, timestamp;
    }
  }
}
