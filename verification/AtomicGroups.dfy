/** Atomic groups that run no TEAL are the sequential composition of their transactions. */
module AtomicGroups {
  import opened Values
  import opened Teal
  import opened Ledger
  import opened LedgerFrames

  /** A transaction signed with a secret key whose kind runs no program. */
  predicate RunsNoTeal(p: Param) {
    p.sign.SecretKey? && !IsAppKind(p.kind)
  }

  /** Each transaction of a group executed alone, in order, until one fails. */
  function Sequence(s: State, g: Group, i: nat, chain: Chain): Result<State>
    requires i <= |g|
    decreases |g| - i
  {
    if i == |g| then Ok(s)
    else
      var s1 :- ExecuteTx(s, [g[i]], chain);
      Sequence(s1, g, i + 1, chain)
  }

  /** Neither signature arguments nor byte arrays change, nor do the values of applications. */
  predicate ArraysStay(s: State, r: Result<State>) {
    r.Ok? ==> r.value.args == s.args && r.value.heap == s.heap && SameAppStates(s, r.value)
  }

  lemma AssetKindStays(s: State, p: Param)
    requires IsAssetKind(p.kind)
    ensures ArraysStay(s, ApplyAssetKind(s, p))
  {
    hide ApplyAssetKind;
    if ApplyAssetKind(s, p).Ok? {
      AssetKindFrame(s, p);
      AssetKindArrays(s, p);
    }
  }

  lemma PlainApply(s: State, p: Param, gtxs: seq<Txn>, gtxs': seq<Txn>, chain: Chain)
    requires RunsNoTeal(p)
    ensures Apply(s, p, gtxs, chain) == Apply(s, p, gtxs', chain) && ArraysStay(s, Apply(s, p, gtxs, chain))
  {
    hide TransferAlgos, AddAsset, ApplyAssetKind;
    if IsAssetKind(p.kind) {
      AssetKindStays(s, p);
    } else if Apply(s, p, gtxs, chain).Ok? {
      if p.kind.TransferAlgo? {
        PaymentFrame(s, p.sender, p.kind.to, p.kind.microAlgos, p.closeTo);
        OnlyAmountsKeeps(s, Apply(s, p, gtxs, chain).value);
      } else {
        DeployStays(s, p.sender, p.kind.name, chain.asaDefs[p.kind.name]);
      }
    }
  }

  lemma DeployStays(s: State, a: Address, name: string, d: AsaSpec)
    ensures ArraysStay(s, AddAsset(s, a, name, d))
  {
    if AddAsset(s, a, name, d).Ok? {
      AddAssetFrame(s, a, name, d);
    }
  }

  /** Without TEAL a transaction cannot see the rest of its group. */
  lemma PlainTransact(s: State, p: Param, gtxs: seq<Txn>, gtxs': seq<Txn>, chain: Chain)
    requires RunsNoTeal(p)
    ensures Transact(s, p, gtxs, chain) == Transact(s, p, gtxs', chain) && ArraysStay(s, Transact(s, p, gtxs, chain))
  {
    hide DeductFee, Apply, OnlyAmounts;
    var r := DeductFee(s, p.sender, p.txn.fee);
    assert Prepare(s, p, gtxs, chain) == r == Prepare(s, p, gtxs', chain);
    if r.Ok? {
      FeeArrays(s, p.sender, p.txn.fee);
      PlainApply(r.value, p, gtxs, gtxs', chain);
    }
  }

  lemma FeeArrays(s: State, a: Address, fee: nat)
    ensures ArraysStay(s, DeductFee(s, a, fee))
  {
    if DeductFee(s, a, fee).Ok? {
      FeeFrame(s, a, fee);
      OnlyAmountsKeeps(s, DeductFee(s, a, fee).value);
    }
  }

  /** A store without signature arguments that refers to no shared array: what every committed plain group leaves. */
  predicate Closed(s: State) {
    s.args == [] && !RefersOutside(s)
  }

  lemma ClosedIsOpened(s: State)
    requires Closed(s)
    ensures Opened(s) == s
  {
  }

  lemma ClosedStays(s: State, t: State)
    requires Closed(s) && ArraysStay(s, Ok(t))
    ensures Closed(t)
  {
  }

  /** A deep copy is closed. */
  lemma OpenedIsClosed(s: State)
    ensures Closed(Opened(s))
  {
    var t, m, n := Opened(s), |s.heap.own|, |s.heap.shared|;
    if RefersOutside(s) {
      forall a | a in t.accounts
        ensures !AccountRefersOutside(t.accounts[a], n)
      {
        assert t.accounts[a] == DetachedAccount(s.accounts[a], m, n);
      }
    } else {
      forall a | a in t.accounts
        ensures !AccountRefersOutside(t.accounts[a], n)
      {
        assert !AccountRefersOutside(s.accounts[a], n);
      }
    }
  }

  lemma AloneIsTransact(s: State, p: Param, chain: Chain)
    requires RunsNoTeal(p) && CheckGroup([p], chain).Ok?
    ensures ExecuteTx(s, [p], chain) == Transact(Opened(s), p, [p.txn], chain)
    ensures ExecuteTx(s, [p], chain).Ok? ==> Closed(ExecuteTx(s, [p], chain).value)
  {
    hide Transact, Opened, Closed;
    var gtxs, s0 := Txns([p]), Opened(s);
    assert gtxs == [p.txn];
    OpenedIsClosed(s);
    PlainTransact(s0, p, gtxs, gtxs, chain);
    var r := Transact(s0, p, gtxs, chain);
    if r.Ok? {
      ClosedStays(s0, r.value);
      NoArgs(r.value);
      assert Process(r.value, [p], 1, gtxs, chain) == r;
    }
    assert Process(s0, [p], 0, gtxs, chain) == r;
  }

  lemma NoArgs(s: State)
    requires Closed(s)
    ensures WithArgs(s, []) == s
  {
  }

  lemma CheckGroupSplits(g: Group, chain: Chain)
    ensures CheckGroup(g, chain).Ok? <==> |g| <= MAX_GROUP && forall k :: 0 <= k < |g| ==> CheckGroup([g[k]], chain).Ok?
  {
    forall k | 0 <= k < |g|
      ensures CheckGroup([g[k]], chain).Ok? <==> Encodable(g[k], chain) && ValidRound(g[k].txn, chain.round)
    {
      assert [g[k]][0] == g[k];
    }
  }

  lemma {:induction false} SequenceChecks(s: State, g: Group, i: nat, chain: Chain, k: nat)
    requires i <= k < |g| && CheckGroup([g[k]], chain).Err?
    ensures Sequence(s, g, i, chain).Err?
    decreases k - i
  {
    var r := ExecuteTx(s, [g[i]], chain);
    if i < k && r.Ok? {
      SequenceChecks(r.value, g, i + 1, chain, k);
    }
  }

  lemma {:induction false} ProcessIsSequence(s: State, g: Group, i: nat, gtxs: seq<Txn>, chain: Chain)
    requires i <= |g| && Closed(s)
    requires forall k :: 0 <= k < |g| ==> RunsNoTeal(g[k]) && CheckGroup([g[k]], chain).Ok?
    ensures Process(s, g, i, gtxs, chain) == Sequence(s, g, i, chain)
    ensures Process(s, g, i, gtxs, chain).Ok? ==> Closed(Process(s, g, i, gtxs, chain).value)
    decreases |g| - i
  {
    hide Transact, Closed, CheckGroup, Opened;
    if i < |g| {
      AloneIsTransact(s, g[i], chain);
      ClosedIsOpened(s);
      PlainTransact(s, g[i], gtxs, [g[i].txn], chain);
      var r := Transact(s, g[i], gtxs, chain);
      if r.Ok? {
        ProcessIsSequence(r.value, g, i + 1, gtxs, chain);
      }
    }
  }

  /** The first transaction alone works on the same copy as the group. */
  lemma SequenceFromCopy(s: State, g: Group, chain: Chain)
    requires g != []
    ensures Sequence(s, g, 0, chain) == Sequence(Opened(s), g, 0, chain)
  {
    hide Process, CheckGroup;
    OpenedIsClosed(s);
    ClosedIsOpened(Opened(s));
    assert ExecuteTx(s, [g[0]], chain) == ExecuteTx(Opened(s), [g[0]], chain);
  }

  /** A group of secret-key transactions that runs no TEAL commits exactly when it is not too large and its transactions, each
      executed alone in order, all commit; the final stores are then equal. The empty group commits a deep copy. */
  lemma GroupIsSequence(s: State, g: Group, chain: Chain)
    requires forall k :: 0 <= k < |g| ==> RunsNoTeal(g[k])
    ensures var group, alone := ExecuteTx(s, g, chain), Sequence(s, g, 0, chain);
            && (group.Ok? <==> |g| <= MAX_GROUP && alone.Ok?)
            && (group.Ok? ==> group.value == if g == [] then Opened(s) else alone.value)
  {
    hide CheckGroup, Closed, Opened;
    CheckGroupSplits(g, chain);
    if g == [] {
      OpenedIsClosed(s);
      NoArgs(Opened(s));
    } else if forall k :: 0 <= k < |g| ==> CheckGroup([g[k]], chain).Ok? {
      OpenedIsClosed(s);
      SequenceFromCopy(s, g, chain);
      ProcessIsSequence(Opened(s), g, 0, Txns(g), chain);
      var r := Process(Opened(s), g, 0, Txns(g), chain);
      if r.Ok? {
        NoArgs(r.value);
      }
    } else {
      var k :| 0 <= k < |g| && CheckGroup([g[k]], chain).Err?;
      SequenceChecks(s, g, 0, chain, k);
    }
  }
}
