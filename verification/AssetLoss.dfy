/** A run from fresh accounts that loses units of an asset: the exception in asset conservation does occur. */
module AssetLoss {
  import opened Values
  import opened MapSums
  import opened Teal
  import opened Ledger
  import opened LedgerAssets
  import opened LedgerRuns
  import opened AssetConservation

  // ---- Stores with two accounts and at most one asset ----

  /** Account "c" and account "b"; if there is an asset, it is asset 1 and "c" created it. */
  function Two(c: Account, b: Account, created: bool): State {
    State(map["c" := c, "b" := b], map[], if created then map[1 := "c"] else map[], 0, if created then 1 else 0, TableOnly(), [])
  }

  function Plain(amount: int, minBalance: int, units: Option<int>, defs: map<nat, AssetDef>): Account {
    Account(amount, minBalance, if units.Some? then map[1 := Holding(units.value, "c", false)] else map[], map[], map[], defs)
  }

  function Creator(amount: int, units: int, d: AsaSpec): Account {
    Plain(amount, 200000, Some(units), map[1 := NewAsset("c", "t", d)])
  }

  lemma TwoAccounts(c: Account, b: Account, c': Account, b': Account, created: bool)
    ensures WithAccount(Two(c, b, created), "c", c') == Two(c', b, created)
    ensures WithAccount(Two(c, b, created), "b", b') == Two(c, b', created)
    ensures Two(c, b, created).accounts["c"] == c && Two(c, b, created).accounts["b"] == b
  {
    assert map["c" := c, "b" := b]["c" := c'] == map["c" := c', "b" := b];
    assert map["c" := c, "b" := b]["b" := b'] == map["c" := c, "b" := b'];
  }

  predicate NoApps(acc: Account) {
    acc.appsLocalState == map[] && acc.createdApps == map[]
  }

  lemma TwoIsClosed(c: Account, b: Account, created: bool)
    requires NoApps(c) && NoApps(b)
    ensures !RefersOutside(Two(c, b, created)) && Two(c, b, created).args == []
  {
  }

  lemma PaysFee(c: Account, b: Account, created: bool, a: Address)
    requires a == "c" || a == "b"
    requires c.amount - 1000 >= c.minBalance && b.amount - 1000 >= b.minBalance
    ensures DeductFee(Two(c, b, created), a, 1000)
            == Ok(if a == "c" then Two(c.(amount := c.amount - 1000), b, created)
                  else Two(c, b.(amount := b.amount - 1000), created))
  {
    TwoAccounts(c, b, c.(amount := c.amount - 1000), b.(amount := b.amount - 1000), created);
  }

  // ---- The four transactions ----

  function Signed(sender: Address, closeTo: Address, kind: Kind, txn: Txn): Param {
    Param(sender, SecretKey, closeTo, kind, txn)
  }

  /** Ten units, unfrozen, under the name "t". */
  predicate TenUnits(chain: Chain) {
    "t" in chain.asaDefs && chain.asaDefs["t"].total == 10 && !chain.asaDefs["t"].defaultFrozen
  }

  lemma Deploys(chain: Chain)
    requires TenUnits(chain)
    ensures AddAsset(Two(FreshAccount(999000), FreshAccount(1000000), false), "c", "t", chain.asaDefs["t"])
            == Ok(Two(Creator(999000, 10, chain.asaDefs["t"]), FreshAccount(1000000), true))
  {
    var d := chain.asaDefs["t"];
    TwoAccounts(FreshAccount(999000), FreshAccount(1000000), Creator(999000, 10, d), FreshAccount(1000000), false);
  }

  lemma OptsIn(d: AsaSpec)
    requires !d.defaultFrozen
    ensures OptIntoASA(Two(Creator(999000, 10, d), FreshAccount(999000), true), 1, "b")
            == Ok(Two(Creator(999000, 10, d), Plain(999000, 200000, Some(0), map[]), true))
  {
    TwoAccounts(Creator(999000, 10, d), FreshAccount(999000), Creator(999000, 10, d), Plain(999000, 200000, Some(0), map[]), true);
  }

  lemma Moves(d: AsaSpec, ca: int, ba: int, cu: int, bu: int, a: Address, delta: int)
    requires a == "c" || a == "b"
    ensures AddUnits(Two(Creator(ca, cu, d), Plain(ba, 200000, Some(bu), map[]), true), a, 1, delta)
            == if a == "c" then Two(Creator(ca, cu + delta, d), Plain(ba, 200000, Some(bu), map[]), true)
               else Two(Creator(ca, cu, d), Plain(ba, 200000, Some(bu + delta), map[]), true)
  {
    var c, b := Creator(ca, cu, d), Plain(ba, 200000, Some(bu), map[]);
    assert c.assets[1 := Holding(cu + delta, "c", false)] == map[1 := Holding(cu + delta, "c", false)];
    assert b.assets[1 := Holding(bu + delta, "c", false)] == map[1 := Holding(bu + delta, "c", false)];
    TwoAccounts(c, b, Creator(ca, cu + delta, d), Plain(ba, 200000, Some(bu + delta), map[]), true);
  }

  lemma Pays(d: AsaSpec)
    ensures TransferUnits(Two(Creator(998000, 10, d), Plain(999000, 200000, Some(0), map[]), true), "c", "b", 4, 1, "")
            == Ok(Two(Creator(998000, 6, d), Plain(999000, 200000, Some(4), map[]), true))
  {
    hide AddUnits;
    Moves(d, 998000, 999000, 10, 0, "c", -4);
    Moves(d, 998000, 999000, 6, 0, "b", 4);
  }

  lemma ClosesOut(d: AsaSpec)
    ensures TransferUnits(Two(Creator(998000, 6, d), Plain(998000, 200000, Some(4), map[]), true), "b", "c", 0, 1, "b")
            == Ok(Two(Creator(998000, 6, d), Plain(998000, 100000, None, map[]), true))
  {
    hide AddUnits;
    var c, b := Creator(998000, 6, d), Plain(998000, 200000, Some(4), map[]);
    Moves(d, 998000, 998000, 6, 4, "b", 0);
    Moves(d, 998000, 998000, 6, 4, "c", 0);
    Moves(d, 998000, 998000, 6, 4, "b", 4);
    var left := Plain(998000, 200000, Some(8), map[]);
    assert AccountCloseAsset(left, 1) == Plain(998000, 100000, None, map[]);
    TwoAccounts(c, left, c, Plain(998000, 100000, None, map[]), true);
  }

  /** The run: "c" creates an asset of ten units, "b" opts in, "c" sends it four, and "b" closes out to itself. */
  function Losing(t1: Txn, t2: Txn, t3: Txn, t4: Txn, chain: Chain): seq<Call> {
    [Call([Signed("c", "", DeployASA("t"), t1)], chain)]
    + [Call([Signed("b", "", OptInASA(1), t2)], chain)]
    + [Call([Signed("c", "", TransferAsset("b", 4, 1), t3)], chain)]
    + [Call([Signed("b", "b", TransferAsset("c", 0, 1), t4)], chain)]
  }

  predicate Pays1000(txn: Txn, chain: Chain) {
    txn.fee == 1000 && ValidRound(txn, chain.round)
  }

  function Start(): State {
    Two(FreshAccount(1000000), FreshAccount(1000000), false)
  }

  /** One group of the run, from the store that the groups before it left. */
  lemma OneCall(s: State, calls: seq<Call>, p: Param, chain: Chain, paid: State, t: State)
    requires Run(s, calls).args == [] && !RefersOutside(Run(s, calls)) && t.args == []
    requires p.sign.SecretKey? && Pays1000(p.txn, chain) && Encodable(p, chain)
    requires DeductFee(Run(s, calls), p.sender, 1000) == Ok(paid) && Apply(paid, p, [p.txn], chain) == Ok(t)
    ensures ExecuteTx(Run(s, calls), [p], chain) == Ok(t) && Run(s, calls + [Call([p], chain)]) == t
  {
    hide DeductFee, Apply, RefersOutside, ExecuteTx, LeftShared;
    GroupOfOne(Run(s, calls), p, t, chain);
    assert (calls + [Call([p], chain)])[..|calls|] == calls;
  }

  lemma AfterDeploy(t1: Txn, chain: Chain)
    requires TenUnits(chain) && Pays1000(t1, chain)
    ensures Run(Start(), [Call([Signed("c", "", DeployASA("t"), t1)], chain)])
            == Two(Creator(999000, 10, chain.asaDefs["t"]), FreshAccount(1000000), true)
  {
    hide DeductFee, AddAsset, RefersOutside, ExecuteTx;
    var c, b := FreshAccount(1000000), FreshAccount(1000000);
    TwoIsClosed(c, b, false);
    PaysFee(c, b, false, "c");
    Deploys(chain);
    OneCall(Start(), [], Signed("c", "", DeployASA("t"), t1), chain, Two(FreshAccount(999000), b, false),
            Two(Creator(999000, 10, chain.asaDefs["t"]), b, true));
  }

  lemma AfterOptIn(calls: seq<Call>, t2: Txn, chain: Chain, d: AsaSpec)
    requires Run(Start(), calls) == Two(Creator(999000, 10, d), FreshAccount(1000000), true) && !d.defaultFrozen
    requires Pays1000(t2, chain)
    ensures Run(Start(), calls + [Call([Signed("b", "", OptInASA(1), t2)], chain)])
            == Two(Creator(999000, 10, d), Plain(999000, 200000, Some(0), map[]), true)
  {
    hide DeductFee, OptIntoASA, RefersOutside, ExecuteTx, Run;
    var c, b := Creator(999000, 10, d), FreshAccount(1000000);
    TwoIsClosed(c, b, true);
    PaysFee(c, b, true, "b");
    OptsIn(d);
    OneCall(Start(), calls, Signed("b", "", OptInASA(1), t2), chain, Two(c, FreshAccount(999000), true),
            Two(c, Plain(999000, 200000, Some(0), map[]), true));
  }

  lemma AfterPay(calls: seq<Call>, t3: Txn, chain: Chain, d: AsaSpec)
    requires Run(Start(), calls) == Two(Creator(999000, 10, d), Plain(999000, 200000, Some(0), map[]), true)
    requires Pays1000(t3, chain)
    ensures Run(Start(), calls + [Call([Signed("c", "", TransferAsset("b", 4, 1), t3)], chain)])
            == Two(Creator(998000, 6, d), Plain(999000, 200000, Some(4), map[]), true)
  {
    hide DeductFee, TransferUnits, RefersOutside, ExecuteTx, Run;
    var c, b := Creator(999000, 10, d), Plain(999000, 200000, Some(0), map[]);
    TwoIsClosed(c, b, true);
    PaysFee(c, b, true, "c");
    Pays(d);
    OneCall(Start(), calls, Signed("c", "", TransferAsset("b", 4, 1), t3), chain, Two(Creator(998000, 10, d), b, true),
            Two(Creator(998000, 6, d), Plain(999000, 200000, Some(4), map[]), true));
  }

  lemma AfterCloseOut(calls: seq<Call>, t4: Txn, chain: Chain, d: AsaSpec)
    requires Run(Start(), calls) == Two(Creator(998000, 6, d), Plain(999000, 200000, Some(4), map[]), true)
    requires Pays1000(t4, chain)
    ensures ExecuteTx(Run(Start(), calls), [Signed("b", "b", TransferAsset("c", 0, 1), t4)], chain).Ok?
    ensures Run(Start(), calls + [Call([Signed("b", "b", TransferAsset("c", 0, 1), t4)], chain)])
            == Two(Creator(998000, 6, d), Plain(998000, 100000, None, map[]), true)
  {
    hide DeductFee, TransferUnits, RefersOutside, ExecuteTx, Run;
    var c, b := Creator(998000, 6, d), Plain(999000, 200000, Some(4), map[]);
    TwoIsClosed(c, b, true);
    PaysFee(c, b, true, "b");
    ClosesOut(d);
    OneCall(Start(), calls, Signed("b", "b", TransferAsset("c", 0, 1), t4), chain,
            Two(c, Plain(998000, 200000, Some(4), map[]), true), Two(c, Plain(998000, 100000, None, map[]), true));
  }

  lemma UnitsLeft(d: AsaSpec)
    requires d.total == 10
    ensures var t := Two(Creator(998000, 6, d), Plain(998000, 100000, None, map[]), true);
            Live(t, 1) && UnitsOf(t, 1) == 6 && TotalOf(t, 1) == 10
  {
    var t, f := Two(Creator(998000, 6, d), Plain(998000, 100000, None, map[]), true), UnitsIn(1);
    MapSumPick(t.accounts, f, "c");
    MapSumPick(t.accounts - {"c"}, f, "b");
    assert t.accounts - {"c"} - {"b"} == map[];
  }

  /** The run starts from fresh accounts and its last group commits; then only six of the asset's ten units are left. */
  lemma SelfCloseOutLosesUnits(t1: Txn, t2: Txn, t3: Txn, t4: Txn, chain: Chain)
    requires TenUnits(chain)
    requires Pays1000(t1, chain) && Pays1000(t2, chain) && Pays1000(t3, chain) && Pays1000(t4, chain)
    ensures Fresh(Start())
    ensures var calls := Losing(t1, t2, t3, t4, chain);
            var t := Run(Start(), calls);
            && ExecuteTx(Run(Start(), calls[..3]), calls[3].group, chain).Ok?
            && Live(t, 1) && UnitsOf(t, 1) == 6 && TotalOf(t, 1) == 10
  {
    hide Run, ExecuteTx, Two, UnitsOf, TotalOf, Live, Fresh;
    var d, calls := chain.asaDefs["t"], Losing(t1, t2, t3, t4, chain);
    StartIsFresh();
    AfterDeploy(t1, chain);
    AfterOptIn([calls[0]], t2, chain, d);
    AfterPay([calls[0]] + [calls[1]], t3, chain, d);
    AfterCloseOut([calls[0]] + [calls[1]] + [calls[2]], t4, chain, d);
    assert calls[..3] == [calls[0]] + [calls[1]] + [calls[2]];
    UnitsLeft(d);
  }

  lemma StartIsFresh()
    ensures Fresh(Start())
  {
  }
}
