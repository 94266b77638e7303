/** Assets: the index stays consistent, and the units of every live asset are accounted for. */
module LedgerAssets {
  import opened Values
  import opened MapSums
  import opened Ledger
  import opened LedgerFrames

  /** The asset still exists: its creator has its definition. */
  predicate Live(s: State, id: nat) {
    id in s.assetDefs && s.assetDefs[id] in s.accounts && id in s.accounts[s.assetDefs[id]].createdAssets
  }

  predicate Holds(s: State, a: Address, id: nat) {
    a in s.accounts && id in s.accounts[a].assets
  }

  predicate Created(s: State, a: Address, id: nat) {
    a in s.accounts && id in s.accounts[a].createdAssets
  }

  /** The asset index agrees with the accounts: creators are right, every holding's asset is live, creators hold. */
  ghost predicate AssetIndexOk(s: State) {
    && (forall id :: id in s.assetDefs ==> 1 <= id <= s.assetCounter && s.assetDefs[id] in s.accounts)
    && (forall a, id :: Created(s, a, id) ==>
          id in s.assetDefs && s.assetDefs[id] == a && s.accounts[a].createdAssets[id].creator == a)
    && (forall a, id :: Holds(s, a, id) ==>
          Live(s, id) && s.accounts[a].assets[id].creator == s.assetDefs[id] && s.accounts[a].assets[id].amount >= 0)
    && (forall id :: Live(s, id) ==> Holds(s, s.assetDefs[id], id))
    && "" !in s.accounts
  }

  function UnitsIn(id: nat): Account -> int {
    (acc: Account) => if id in acc.assets then acc.assets[id].amount else 0
  }

  /** Units of an asset over all accounts. */
  ghost function UnitsOf(s: State, id: nat): int {
    MapSum(s.accounts, UnitsIn(id))
  }

  function TotalOf(s: State, id: nat): int
    requires Live(s, id)
  {
    s.accounts[s.assetDefs[id]].createdAssets[id].total
  }

  /** How far the holdings of a live asset are from its total. */
  ghost function Surplus(s: State, id: nat): int {
    if Live(s, id) then UnitsOf(s, id) - TotalOf(s, id) else 0
  }

  ghost predicate NoSurplus(s: State) {
    forall id :: Surplus(s, id) <= 0
  }

  lemma UnitsUpdate(s: State, a: Address, acc: Account, id: nat)
    requires a in s.accounts
    ensures UnitsOf(WithAccount(s, a, acc), id) == UnitsOf(s, id) - UnitsIn(id)(s.accounts[a]) + UnitsIn(id)(acc)
  {
    MapSumUpdate(s.accounts, UnitsIn(id), a, acc);
  }

  /** Definitions stay, and every account holds the same assets from the same creators; only amounts may differ. */
  predicate SameRoster(s: State, t: State) {
    && s.accounts.Keys == t.accounts.Keys && t.assetDefs == s.assetDefs && t.assetCounter == s.assetCounter
    && forall a :: a in s.accounts ==>
         && t.accounts[a].createdAssets == s.accounts[a].createdAssets
         && t.accounts[a].assets.Keys == s.accounts[a].assets.Keys
         && forall id :: id in s.accounts[a].assets ==> t.accounts[a].assets[id].creator == s.accounts[a].assets[id].creator
  }

  ghost predicate NoNegativeHolding(s: State) {
    forall a, id :: Holds(s, a, id) ==> s.accounts[a].assets[id].amount >= 0
  }

  lemma RosterIndex(s: State, t: State)
    requires AssetIndexOk(s) && SameRoster(s, t) && NoNegativeHolding(t)
    ensures AssetIndexOk(t)
    ensures forall id :: Live(s, id) <==> Live(t, id)
    ensures forall id :: Live(s, id) ==> TotalOf(t, id) == TotalOf(s, id)
  {
    forall a, id | Holds(t, a, id)
      ensures Holds(s, a, id) && t.accounts[a].assets[id].creator == s.accounts[a].assets[id].creator
    {
    }
    forall a, id | Created(t, a, id)
      ensures Created(s, a, id)
    {
    }
    forall id
      ensures Live(s, id) <==> Live(t, id)
    {
    }
    forall id | Live(t, id)
      ensures Holds(t, t.assetDefs[id], id)
    {
      assert Holds(s, s.assetDefs[id], id);
    }
  }

  /** With the same roster the surplus moves exactly as the units do. */
  lemma RosterSurplus(s: State, t: State, id: nat, delta: int)
    requires AssetIndexOk(s) && SameRoster(s, t) && NoNegativeHolding(t)
    requires forall j :: UnitsOf(t, j) == UnitsOf(s, j) + if j == id then delta else 0
    ensures AssetIndexOk(t)
    ensures forall j :: Live(s, j) ==> Surplus(t, j) == Surplus(s, j) + if j == id then delta else 0
    ensures forall j :: Live(s, j) <==> Live(t, j)
  {
    RosterIndex(s, t);
  }

  /** Steps that leave assets alone leave every surplus alone. */
  lemma SameAssetsKeep(s: State, t: State)
    requires SameAssets(s, t) && AssetIndexOk(s)
    ensures AssetIndexOk(t) && forall id :: Surplus(t, id) == Surplus(s, id)
  {
    forall a, id | Holds(t, a, id)
      ensures t.accounts[a].assets[id].amount >= 0
    {
      assert Holds(s, a, id);
    }
    forall id
      ensures UnitsOf(t, id) == UnitsOf(s, id)
    {
      MapSumCong(t.accounts, UnitsIn(id), s.accounts, UnitsIn(id));
    }
    RosterSurplus(s, t, 0, 0);
  }

  // ---- Moving units ----

  lemma AddUnitsRoster(s: State, t: State, a: Address, id: nat, delta: int)
    requires SameRoster(s, t) && Holds(t, a, id)
    ensures SameRoster(s, AddUnits(t, a, id, delta))
  {
  }

  lemma AddUnitsSum(t: State, a: Address, id: nat, delta: int, j: nat)
    requires Holds(t, a, id)
    ensures UnitsOf(AddUnits(t, a, id, delta), j) == UnitsOf(t, j) + if j == id then delta else 0
  {
    UnitsUpdate(t, a, AddUnits(t, a, id, delta).accounts[a], j);
  }

  lemma RosterReflexive(s: State)
    ensures SameRoster(s, s)
  {
  }

  lemma MoveUnitsNonNegative(s: State, from: Address, to: Address, amount: nat, id: nat)
    requires AssetIndexOk(s) && MoveUnits(s, from, to, amount, id).Ok?
    ensures NoNegativeHolding(MoveUnits(s, from, to, amount, id).value)
  {
    var t := MoveUnits(s, from, to, amount, id).value;
    forall a, j | Holds(t, a, j)
      ensures t.accounts[a].assets[j].amount >= 0
    {
      assert Holds(s, a, j);
    }
  }

  lemma MoveUnitsRoster(s: State, from: Address, to: Address, amount: nat, id: nat)
    requires MoveUnits(s, from, to, amount, id).Ok?
    ensures var t := MoveUnits(s, from, to, amount, id).value; SameRoster(s, t) && Holds(t, from, id)
  {
    hide SameRoster;
    var s1 := AddUnits(s, from, id, -(amount as int));
    RosterReflexive(s);
    AddUnitsRoster(s, s, from, id, -(amount as int));
    AddUnitsRoster(s, s1, to, id, amount);
  }

  lemma MoveUnitsSum(s: State, from: Address, to: Address, amount: nat, id: nat, j: nat)
    requires MoveUnits(s, from, to, amount, id).Ok?
    ensures UnitsOf(MoveUnits(s, from, to, amount, id).value, j) == UnitsOf(s, j)
  {
    hide UnitsOf;
    AddUnitsSum(s, from, id, -(amount as int), j);
    AddUnitsSum(AddUnits(s, from, id, -(amount as int)), to, id, amount, j);
  }

  /** Moving units between two holdings, which may be the same one, conserves every asset. */
  lemma MoveUnitsAssets(s: State, from: Address, to: Address, amount: nat, id: nat)
    requires AssetIndexOk(s) && MoveUnits(s, from, to, amount, id).Ok?
    ensures var t := MoveUnits(s, from, to, amount, id).value;
            && AssetIndexOk(t) && SameRoster(s, t) && Holds(t, from, id)
            && forall j :: Surplus(t, j) == Surplus(s, j)
  {
    MoveUnitsNonNegative(s, from, to, amount, id);
    MoveUnitsRoster(s, from, to, amount, id);
    forall j
      ensures UnitsOf(MoveUnits(s, from, to, amount, id).value, j) == UnitsOf(s, j)
    {
      MoveUnitsSum(s, from, to, amount, id, j);
    }
    RosterSurplus(s, MoveUnits(s, from, to, amount, id).value, id, 0);
  }

  lemma RemoveHoldingUnits(s: State, from: Address, id: nat, j: nat)
    requires Holds(s, from, id)
    ensures UnitsOf(WithAccount(s, from, AccountCloseAsset(s.accounts[from], id)), j)
            == UnitsOf(s, j) - if j == id then s.accounts[from].assets[id].amount else 0
  {
    UnitsUpdate(s, from, AccountCloseAsset(s.accounts[from], id), j);
  }

  lemma RemoveHoldingIndex(s: State, from: Address, id: nat)
    requires AssetIndexOk(s) && Holds(s, from, id) && from != s.accounts[from].assets[id].creator
    ensures var t := WithAccount(s, from, AccountCloseAsset(s.accounts[from], id));
            && AssetIndexOk(t)
            && (forall j :: Live(t, j) <==> Live(s, j)) && (forall j :: Live(s, j) ==> TotalOf(t, j) == TotalOf(s, j))
  {
    var t := WithAccount(s, from, AccountCloseAsset(s.accounts[from], id));
    forall a, j | Holds(t, a, j)
      ensures Holds(s, a, j)
    {
    }
    forall j
      ensures Live(t, j) <==> Live(s, j)
    {
    }
    forall a, j | Created(t, a, j)
      ensures Created(s, a, j)
    {
    }
    forall j | Live(t, j)
      ensures Holds(t, t.assetDefs[j], j)
    {
      assert Holds(s, s.assetDefs[j], j);
    }
  }

  /** Units that an asset close-out loses: everything left, if the sender closes to itself. */
  function ClosedAway(s: State, from: Address, id: nat, closeTo: Address): int
    requires from in s.accounts && id in s.accounts[from].assets
  {
    if closeTo == from then s.accounts[from].assets[id].amount else 0
  }

  /** Adding units to a holding raises that asset's surplus by as much. */
  lemma AddUnitsAssets(s: State, a: Address, id: nat, delta: nat)
    requires AssetIndexOk(s) && Holds(s, a, id)
    ensures var t := AddUnits(s, a, id, delta);
            && AssetIndexOk(t) && SameRoster(s, t)
            && (forall j :: Live(t, j) <==> Live(s, j))
            && forall j :: Live(s, j) ==> Surplus(t, j) == Surplus(s, j) + if j == id then delta else 0
  {
    var t := AddUnits(s, a, id, delta);
    RosterReflexive(s);
    AddUnitsRoster(s, s, a, id, delta);
    forall b, j | Holds(t, b, j)
      ensures t.accounts[b].assets[j].amount >= 0
    {
      assert Holds(s, b, j);
    }
    forall j
      ensures UnitsOf(t, j) == UnitsOf(s, j) + if j == id then delta else 0
    {
      AddUnitsSum(s, a, id, delta, j);
    }
    RosterSurplus(s, t, id, delta);
  }

  lemma RemoveHoldingAssets(s: State, from: Address, id: nat)
    requires AssetIndexOk(s) && Holds(s, from, id) && from != s.accounts[from].assets[id].creator
    ensures var t := WithAccount(s, from, AccountCloseAsset(s.accounts[from], id));
            && AssetIndexOk(t) && (forall j :: Live(t, j) <==> Live(s, j))
            && forall j :: Live(s, j) ==> Surplus(t, j) == Surplus(s, j) - if j == id then s.accounts[from].assets[id].amount else 0
  {
    RemoveHoldingIndex(s, from, id);
    forall j | Live(s, j)
      ensures var t := WithAccount(s, from, AccountCloseAsset(s.accounts[from], id));
              Surplus(t, j) == Surplus(s, j) - if j == id then s.accounts[from].assets[id].amount else 0
    {
      RemoveHoldingUnits(s, from, id, j);
    }
  }

  lemma CloseUnitsAssets(s: State, from: Address, id: nat, closeTo: Address)
    requires AssetIndexOk(s) && Holds(s, from, id) && CloseUnits(s, from, id, closeTo).Ok?
    ensures var t := CloseUnits(s, from, id, closeTo).value;
            && AssetIndexOk(t)
            && forall j :: Surplus(t, j) == Surplus(s, j) - if j == id then ClosedAway(s, from, id, closeTo) else 0
  {
    hide AccountCloseAsset;
    var amount := s.accounts[from].assets[id].amount;
    var s1 := AddUnits(s, closeTo, id, amount);
    var t := WithAccount(s1, from, AccountCloseAsset(s1.accounts[from], id));
    assert CloseUnits(s, from, id, closeTo) == Ok(t);
    AddUnitsAssets(s, closeTo, id, amount);
    RemoveHoldingAssets(s1, from, id);
    forall j
      ensures Surplus(t, j) == Surplus(s, j) - if j == id then ClosedAway(s, from, id, closeTo) else 0
    {
      assert Live(t, j) <==> Live(s, j);
    }
  }

  // ---- Opt-in ----

  /** Replacing one account: the surplus moves by the change in that account's units, if definitions stay. */
  lemma ReplaceAccountSurplus(s: State, a: Address, acc: Account, j: nat)
    requires a in s.accounts && acc.createdAssets == s.accounts[a].createdAssets
    ensures Live(WithAccount(s, a, acc), j) <==> Live(s, j)
    ensures Live(s, j) ==>
              Surplus(WithAccount(s, a, acc), j) == Surplus(s, j) - UnitsIn(j)(s.accounts[a]) + UnitsIn(j)(acc)
  {
    UnitsUpdate(s, a, acc, j);
  }

  /** One account may change if it keeps its definitions' keys and its holdings stay what the index says. */
  ghost predicate FitsIndex(s: State, a: Address, acc: Account)
    requires a in s.accounts
  {
    && acc.createdAssets.Keys == s.accounts[a].createdAssets.Keys
    && (forall id :: id in acc.createdAssets ==> acc.createdAssets[id].creator == a && id in acc.assets)
    && (forall id :: id in acc.assets ==>
          Live(s, id) && acc.assets[id].creator == s.assetDefs[id] && acc.assets[id].amount >= 0)
  }

  lemma ReplaceIndex(s: State, a: Address, acc: Account)
    requires AssetIndexOk(s) && a in s.accounts && FitsIndex(s, a, acc)
    ensures AssetIndexOk(WithAccount(s, a, acc))
    ensures forall id :: Live(WithAccount(s, a, acc), id) <==> Live(s, id)
  {
    var t := WithAccount(s, a, acc);
    forall id
      ensures Live(t, id) <==> Live(s, id)
    {
    }
    forall b, id | Holds(t, b, id)
      ensures b == a || Holds(s, b, id)
    {
    }
    forall b, id
      ensures Created(t, b, id) <==> Created(s, b, id)
    {
    }
    forall id | Live(t, id)
      ensures Holds(t, t.assetDefs[id], id)
    {
      assert Holds(s, s.assetDefs[id], id);
    }
  }

  /** An account of a right index fits it. */
  lemma OwnFitsIndex(s: State, a: Address)
    requires AssetIndexOk(s) && a in s.accounts
    ensures FitsIndex(s, a, s.accounts[a])
  {
    var acc := s.accounts[a];
    forall id | id in acc.createdAssets
      ensures acc.createdAssets[id].creator == a && id in acc.assets
    {
      assert Created(s, a, id) && Live(s, id) && Holds(s, s.assetDefs[id], id);
    }
    forall id | id in acc.assets
      ensures Live(s, id) && acc.assets[id].creator == s.assetDefs[id] && acc.assets[id].amount >= 0
    {
      assert Holds(s, a, id);
    }
  }

  lemma OptInIndex(s: State, id: nat, a: Address)
    requires AssetIndexOk(s) && OptIntoASA(s, id, a).Ok?
    ensures AssetIndexOk(OptIntoASA(s, id, a).value)
  {
    hide AboveMin;
    var acc := OptIntoASA(s, id, a).value.accounts[a];
    assert Created(s, s.assetDefs[id], id);
    OwnFitsIndex(s, a);
    ReplaceIndex(s, a, acc);
  }

  lemma OptInAssets(s: State, id: nat, a: Address)
    requires AssetIndexOk(s) && OptIntoASA(s, id, a).Ok?
    ensures var t := OptIntoASA(s, id, a).value;
            AssetIndexOk(t) && forall j :: Surplus(t, j) == Surplus(s, j)
  {
    OptInIndex(s, id, a);
    var t := OptIntoASA(s, id, a).value;
    forall j
      ensures Surplus(t, j) == Surplus(s, j)
    {
      ReplaceAccountSurplus(s, a, t.accounts[a], j);
    }
  }

  // ---- Creation ----

  lemma NewIdUnused(s: State, a: Address)
    requires AssetIndexOk(s) && a in s.accounts
    ensures var id := s.assetCounter + 1; id !in s.assetDefs && !Holds(s, a, id) && !Created(s, a, id) && !Live(s, id)
  {
  }

  lemma NoUnitsOfNewId(s: State)
    requires AssetIndexOk(s)
    ensures UnitsOf(s, s.assetCounter + 1) == 0
  {
    var id := s.assetCounter + 1;
    forall a | a in s.accounts
      ensures UnitsIn(id)(s.accounts[a]) == 0
    {
      NewIdUnused(s, a);
    }
    ZeroSum(s.accounts, UnitsIn(id));
  }

  lemma {:induction false} ZeroSum<K(!new), V(!new)>(m: map<K, V>, f: V -> int)
    requires forall k :: k in m ==> f(m[k]) == 0
    ensures MapSum(m, f) == 0
    decreases |m|
  {
    if m != map[] {
      var k :| k in m;
      MapSumPick(m, f, k);
      ZeroSum(m - {k}, f);
    }
  }

  lemma AddAssetIndex(s: State, a: Address, name: string, d: AsaSpec)
    requires AssetIndexOk(s) && AddAsset(s, a, name, d).Ok?
    ensures AssetIndexOk(AddAsset(s, a, name, d).value)
    ensures forall j :: Live(AddAsset(s, a, name, d).value, j) <==> Live(s, j) || j == s.assetCounter + 1
  {
    var t, id := AddAsset(s, a, name, d).value, s.assetCounter + 1;
    NewIdUnused(s, a);
    assert Live(t, id);
    forall j
      ensures Live(t, j) <==> Live(s, j) || j == id
    {
    }
    forall b, j | Holds(t, b, j)
      ensures Holds(s, b, j) || (b == a && j == id)
    {
    }
    forall b, j | Created(t, b, j)
      ensures Created(s, b, j) || (b == a && j == id)
    {
    }
    forall j | Live(t, j)
      ensures Holds(t, t.assetDefs[j], j)
    {
      if j != id {
        assert Holds(s, s.assetDefs[j], j);
      }
    }
  }

  lemma AddAssetSurplus(s: State, a: Address, name: string, d: AsaSpec, j: nat)
    requires AssetIndexOk(s) && AddAsset(s, a, name, d).Ok?
    ensures Surplus(AddAsset(s, a, name, d).value, j) == Surplus(s, j)
  {
    var t, id := AddAsset(s, a, name, d).value, s.assetCounter + 1;
    AddAssetIndex(s, a, name, d);
    NewIdUnused(s, a);
    UnitsUpdate(s, a, t.accounts[a], j);
    assert t.accounts == WithAccount(s, a, t.accounts[a]).accounts;
    if j == id {
      NoUnitsOfNewId(s);
    } else if Live(s, j) {
      assert TotalOf(t, j) == TotalOf(s, j);
    }
  }

  // ---- Roles, freezing ----

  lemma ModifyIndex(s: State, sender: Address, id: nat, f: ModFields)
    requires AssetIndexOk(s) && Modify(s, sender, id, f).Ok?
    ensures var t := Modify(s, sender, id, f).value; AssetIndexOk(t) && forall j :: Live(t, j) <==> Live(s, j)
  {
    hide AssetIndexOk, SetRole;
    var t, c := Modify(s, sender, id, f).value, s.assetDefs[id];
    OwnFitsIndex(s, c);
    ReplaceIndex(s, c, t.accounts[c]);
  }

  lemma ModifyAssets(s: State, sender: Address, id: nat, f: ModFields)
    requires AssetIndexOk(s) && Modify(s, sender, id, f).Ok?
    ensures var t := Modify(s, sender, id, f).value;
            AssetIndexOk(t) && forall j :: Surplus(t, j) == Surplus(s, j)
  {
    hide AssetIndexOk, UnitsOf;
    var t, c := Modify(s, sender, id, f).value, s.assetDefs[id];
    ModifyIndex(s, sender, id, f);
    forall j
      ensures Surplus(t, j) == Surplus(s, j)
    {
      UnitsUpdate(s, c, t.accounts[c], j);
    }
  }

  lemma FreezeRoster(s: State, sender: Address, id: nat, target: Address, frozen: bool)
    requires Freeze(s, sender, id, target, frozen).Ok?
    ensures SameRoster(s, Freeze(s, sender, id, target, frozen).value)
  {
  }

  lemma FreezeKeepsUnits(s: State, sender: Address, id: nat, target: Address, frozen: bool)
    requires Freeze(s, sender, id, target, frozen).Ok?
    ensures forall j :: UnitsOf(Freeze(s, sender, id, target, frozen).value, j) == UnitsOf(s, j)
    ensures AssetIndexOk(s) ==> NoNegativeHolding(Freeze(s, sender, id, target, frozen).value)
  {
    var t := Freeze(s, sender, id, target, frozen).value;
    forall j
      ensures UnitsOf(t, j) == UnitsOf(s, j)
    {
      UnitsUpdate(s, target, t.accounts[target], j);
    }
    forall b, j | AssetIndexOk(s) && Holds(t, b, j)
      ensures t.accounts[b].assets[j].amount >= 0
    {
      assert Holds(s, b, j);
    }
  }

  lemma FreezeAssets(s: State, sender: Address, id: nat, target: Address, frozen: bool)
    requires AssetIndexOk(s) && Freeze(s, sender, id, target, frozen).Ok?
    ensures var t := Freeze(s, sender, id, target, frozen).value;
            AssetIndexOk(t) && forall j :: Surplus(t, j) == Surplus(s, j)
  {
    FreezeRoster(s, sender, id, target, frozen);
    FreezeKeepsUnits(s, sender, id, target, frozen);
    RosterSurplus(s, Freeze(s, sender, id, target, frozen).value, id, 0);
  }

  // ---- Destruction ----

  /** When destruction succeeds the creator holds the whole total, so every other holding is empty. */
  lemma DestroyLeavesNothing(s: State, sender: Address, id: nat)
    requires AssetIndexOk(s) && NoSurplus(s) && Destroy(s, sender, id).Ok?
    ensures Surplus(s, id) == 0
    ensures forall a :: Holds(s, a, id) && a != s.assetDefs[id] ==> s.accounts[a].assets[id].amount == 0
  {
    var c, f := s.assetDefs[id], UnitsIn(id);
    forall a | a in s.accounts
      ensures f(s.accounts[a]) >= 0
    {
      assert Holds(s, a, id) ==> s.accounts[a].assets[id].amount >= 0;
    }
    MapSumNonNegative(s.accounts, f);
    assert Surplus(s, id) <= 0;
    assert f(s.accounts[c]) == TotalOf(s, id);
    MapSumExhausted(s.accounts, f, c);
    forall a | Holds(s, a, id) && a != s.assetDefs[id]
      ensures s.accounts[a].assets[id].amount == 0
    {
      assert f(s.accounts[a]) == 0;
    }
  }

  /** Destruction takes the asset out of every account's holdings and definitions, and leaves the index of creators. */
  lemma DestroyRemoves(s: State, sender: Address, id: nat)
    requires AssetIndexOk(s) && Destroy(s, sender, id).Ok?
    ensures var t := Destroy(s, sender, id).value;
            && t.accounts.Keys == s.accounts.Keys && t.assetDefs == s.assetDefs && t.assetCounter == s.assetCounter
            && forall a :: a in s.accounts ==>
                 && t.accounts[a].assets == s.accounts[a].assets - {id}
                 && t.accounts[a].createdAssets == s.accounts[a].createdAssets - {id}
  {
    hide Live, Holds, Surplus;
    var t := Destroy(s, sender, id).value;
    forall a | a in s.accounts
      ensures t.accounts[a].createdAssets == s.accounts[a].createdAssets - {id}
    {
      assert a != s.assetDefs[id] ==> !Created(s, a, id);
    }
  }

  lemma DestroyIndex(s: State, sender: Address, id: nat)
    requires AssetIndexOk(s) && Destroy(s, sender, id).Ok?
    ensures var t := Destroy(s, sender, id).value;
            AssetIndexOk(t) && forall j :: Live(t, j) <==> Live(s, j) && j != id
  {
    hide Destroy;
    var t := Destroy(s, sender, id).value;
    DestroyRemoves(s, sender, id);
    forall b, j | Holds(t, b, j)
      ensures Holds(s, b, j) && j != id && t.accounts[b].assets[j] == s.accounts[b].assets[j]
    {
    }
    forall b, j | Created(t, b, j)
      ensures Created(s, b, j) && t.accounts[b].createdAssets[j] == s.accounts[b].createdAssets[j]
    {
    }
    forall j
      ensures Live(t, j) <==> Live(s, j) && j != id
    {
      if Live(s, j) && j != id {
        assert j in t.accounts[s.assetDefs[j]].createdAssets;
      }
      if Live(t, j) {
        assert Created(t, t.assetDefs[j], j);
        assert Created(s, s.assetDefs[j], j);
      }
    }
    forall j | Live(t, j)
      ensures Holds(t, t.assetDefs[j], j)
    {
      assert Holds(s, s.assetDefs[j], j);
    }
  }

  lemma DestroySurplus(s: State, sender: Address, id: nat, j: nat)
    requires AssetIndexOk(s) && NoSurplus(s) && Destroy(s, sender, id).Ok?
    ensures Surplus(Destroy(s, sender, id).value, j) == Surplus(s, j)
  {
    hide AssetIndexOk, NoSurplus;
    var t := Destroy(s, sender, id).value;
    DestroyIndex(s, sender, id);
    if j == id {
      DestroyLeavesNothing(s, sender, id);
    } else if Live(s, j) {
      assert Live(t, j);
      MapSumCong(t.accounts, UnitsIn(j), s.accounts, UnitsIn(j));
    }
  }
}
