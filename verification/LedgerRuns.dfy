/** Laws of single transactions carried to groups and to whole runs. */
module LedgerRuns {
  import opened Values
  import opened Teal
  import opened Ledger
  import opened LedgerFrames

  type Weight = (State, Param) -> int

  /** Sum of a weight over the transactions of a group that succeeds; the weight sees the state after fee and signature. */
  function Tally(s: State, g: Group, i: nat, gtxs: seq<Txn>, chain: Chain, w: Weight): int
    requires i <= |g|
    decreases |g| - i
  {
    if i == |g| then 0
    else match Prepare(s, g[i], gtxs, chain)
      case Err(_) => 0
      case Ok(s1) =>
        match Apply(s1, g[i], gtxs, chain)
        case Err(_) => 0
        case Ok(s2) => w(s1, g[i]) + Tally(s2, g, i + 1, gtxs, chain, w)
  }

  function CallTally(s: State, call: Call, w: Weight): int {
    if ExecuteTx(s, call.group, call.chain).Err? then 0
    else Tally(Opened(s), call.group, 0, Txns(call.group), call.chain, w)
  }

  /** Sum of a weight over every transaction that a run commits. */
  function RunTally(s: State, calls: seq<Call>, w: Weight): int
    decreases |calls|
  {
    if calls == [] then 0
    else
      var front := calls[..|calls| - 1];
      RunTally(s, front, w) + CallTally(Run(s, front), calls[|calls| - 1], w)
  }

  /** A transaction that succeeds, and the state after its fee and signature. */
  datatype Event = Event(state: State, param: Param)

  /** The transactions whose weights `Tally` adds up. */
  function Events(s: State, g: Group, i: nat, gtxs: seq<Txn>, chain: Chain): seq<Event>
    requires i <= |g|
    decreases |g| - i
  {
    if i == |g| then []
    else match Prepare(s, g[i], gtxs, chain)
      case Err(_) => []
      case Ok(s1) =>
        match Apply(s1, g[i], gtxs, chain)
        case Err(_) => []
        case Ok(s2) => [Event(s1, g[i])] + Events(s2, g, i + 1, gtxs, chain)
  }

  function CallEvents(s: State, call: Call): seq<Event> {
    if ExecuteTx(s, call.group, call.chain).Err? then []
    else Events(Opened(s), call.group, 0, Txns(call.group), call.chain)
  }

  /** Every transaction that a run commits. */
  function RunEvents(s: State, calls: seq<Call>): seq<Event>
    decreases |calls|
  {
    if calls == [] then []
    else
      var front := calls[..|calls| - 1];
      RunEvents(s, front) + CallEvents(Run(s, front), calls[|calls| - 1])
  }

  /** A transaction that succeeds keeps the invariant and moves the potential by the weight. */
  ghost predicate StepLaw(s: State, p: Param, gtxs: seq<Txn>, chain: Chain, inv: State -> bool, phi: State -> int, w: Weight) {
    inv(s) && Transact(s, p, gtxs, chain).Ok? ==>
      && inv(Transact(s, p, gtxs, chain).value)
      && phi(Transact(s, p, gtxs, chain).value) == phi(s) + w(Prepare(s, p, gtxs, chain).value, p)
  }

  /** Neither the invariant nor the potential looks at byte arrays, at references to them, or at signature arguments. */
  ghost predicate IgnoresArrays(inv: State -> bool, phi: State -> int) {
    forall s, t :: SignatureFrame(s, t) && inv(s) ==> inv(t) && phi(t) == phi(s)
  }

  lemma {:induction false} ProcessLaw(
      s: State, g: Group, i: nat, gtxs: seq<Txn>, chain: Chain, inv: State -> bool, phi: State -> int, w: Weight, ok: Param -> bool)
    requires i <= |g| && inv(s)
    requires forall t, p :: ok(p) ==> StepLaw(t, p, gtxs, chain, inv, phi, w)
    requires Process(s, g, i, gtxs, chain).Ok? && forall e :: e in Events(s, g, i, gtxs, chain) ==> ok(e.param)
    ensures var t := Process(s, g, i, gtxs, chain).value; inv(t) && phi(t) == phi(s) + Tally(s, g, i, gtxs, chain, w)
    decreases |g| - i
  {
    if i < |g| {
      var t := Transact(s, g[i], gtxs, chain).value;
      var first, rest := [Event(Prepare(s, g[i], gtxs, chain).value, g[i])], Events(t, g, i + 1, gtxs, chain);
      assert Events(s, g, i, gtxs, chain) == first + rest;
      assert first[0] in first + rest && ok(g[i]);
      assert StepLaw(s, g[i], gtxs, chain, inv, phi, w);
      ProcessLaw(t, g, i + 1, gtxs, chain, inv, phi, w, ok);
    }
  }

  lemma CallLaw(s: State, call: Call, inv: State -> bool, phi: State -> int, w: Weight, ok: Param -> bool)
    requires inv(s) && IgnoresArrays(inv, phi)
    requires forall t, p, gtxs :: ok(p) ==> StepLaw(t, p, gtxs, call.chain, inv, phi, w)
    requires forall e :: e in CallEvents(s, call) ==> ok(e.param)
    ensures inv(After(s, call)) && phi(After(s, call)) == phi(s) + CallTally(s, call, w)
  {
    hide SignatureFrame, Process, Opened, Events, Tally;
    var g, chain, s0 := call.group, call.chain, Opened(s);
    OpenedFrame(s);
    var r := Process(s0, g, 0, Txns(g), chain);
    if ExecuteTx(s, g, chain).Ok? {
      ProcessLaw(s0, g, 0, Txns(g), chain, inv, phi, w, ok);
      ArgsFrame(r.value, []);
    } else {
      SharedFrame(s, LeftShared(s, g, chain));
    }
  }

  /** The law along a run whose committed transactions all pass a test. */
  lemma {:induction false} RunLawFor(s: State, calls: seq<Call>, inv: State -> bool, phi: State -> int, w: Weight, ok: Param -> bool)
    requires inv(s) && IgnoresArrays(inv, phi)
    requires forall t, p, gtxs, chain :: ok(p) ==> StepLaw(t, p, gtxs, chain, inv, phi, w)
    requires forall e :: e in RunEvents(s, calls) ==> ok(e.param)
    ensures inv(Run(s, calls)) && phi(Run(s, calls)) == phi(s) + RunTally(s, calls, w)
    decreases |calls|
  {
    hide IgnoresArrays, CallEvents, CallTally, After;
    if calls != [] {
      var front, last := calls[..|calls| - 1], calls[|calls| - 1];
      RunLawFor(s, front, inv, phi, w, ok);
      CallLaw(Run(s, front), last, inv, phi, w, ok);
    }
  }

  lemma RunLaw(s: State, calls: seq<Call>, inv: State -> bool, phi: State -> int, w: Weight)
    requires inv(s) && IgnoresArrays(inv, phi)
    requires forall t, p, gtxs, chain :: StepLaw(t, p, gtxs, chain, inv, phi, w)
    ensures inv(Run(s, calls)) && phi(Run(s, calls)) == phi(s) + RunTally(s, calls, w)
  {
    RunLawFor(s, calls, inv, phi, w, _ => true);
  }

  /** Whether the weight is zero on every one of the events. */
  ghost predicate Weightless(es: seq<Event>, w: Weight) {
    forall e :: e in es ==> w(e.state, e.param) == 0
  }

  lemma WeightlessBoth(es: seq<Event>, fs: seq<Event>, w: Weight)
    ensures Weightless(es + fs, w) <==> Weightless(es, w) && Weightless(fs, w)
  {
    if Weightless(es + fs, w) {
      forall e | e in es || e in fs
        ensures w(e.state, e.param) == 0
      {
        assert e in es + fs;
      }
    }
  }

  /** A weight that is nowhere negative sums to zero exactly when it is zero on every transaction. */
  lemma {:induction false} TallyZeroExactly(s: State, g: Group, i: nat, gtxs: seq<Txn>, chain: Chain, w: Weight)
    requires i <= |g|
    requires forall t, p :: w(t, p) >= 0
    ensures var sum := Tally(s, g, i, gtxs, chain, w); sum >= 0 && (sum == 0 <==> Weightless(Events(s, g, i, gtxs, chain), w))
    decreases |g| - i
  {
    hide Weightless;
    WeightlessNone(w);
    if i < |g| {
      var r := Transact(s, g[i], gtxs, chain);
      if r.Ok? {
        var s1 := Prepare(s, g[i], gtxs, chain).value;
        TallyZeroExactly(r.value, g, i + 1, gtxs, chain, w);
        WeightlessBoth([Event(s1, g[i])], Events(r.value, g, i + 1, gtxs, chain), w);
        WeightlessOne(Event(s1, g[i]), w);
      }
    }
  }

  lemma WeightlessNone(w: Weight)
    ensures Weightless([], w)
  {
  }

  lemma WeightlessOne(e: Event, w: Weight)
    ensures Weightless([e], w) <==> w(e.state, e.param) == 0
  {
    assert e in [e];
  }

  lemma {:induction false} RunTallyZeroExactly(s: State, calls: seq<Call>, w: Weight)
    requires forall t, p :: w(t, p) >= 0
    ensures var sum := RunTally(s, calls, w); sum >= 0 && (sum == 0 <==> Weightless(RunEvents(s, calls), w))
    decreases |calls|
  {
    hide Weightless, Tally, Events, Opened, Process, CheckGroup;
    WeightlessNone(w);
    if calls != [] {
      var front, last := calls[..|calls| - 1], calls[|calls| - 1];
      RunTallyZeroExactly(s, front, w);
      TallyZeroExactly(Opened(Run(s, front)), last.group, 0, Txns(last.group), last.chain, w);
      WeightlessBoth(RunEvents(s, front), CallEvents(Run(s, front), last), w);
    }
  }

  /** Along the invariant the weight is never negative, and zero exactly on transactions that are not of the marked kind. */
  ghost predicate SignLaw(s: State, p: Param, gtxs: seq<Txn>, chain: Chain, inv: State -> bool, w: Weight, marked: Param -> bool) {
    inv(s) && Transact(s, p, gtxs, chain).Ok? ==>
      && inv(Transact(s, p, gtxs, chain).value)
      && w(Prepare(s, p, gtxs, chain).value, p) >= 0
      && (w(Prepare(s, p, gtxs, chain).value, p) == 0 <==> !marked(p))
  }

  predicate NoneMarked(g: Group, i: nat, marked: Param -> bool) {
    forall k :: i <= k < |g| ==> !marked(g[k])
  }

  lemma NoneMarkedFrom(g: Group, i: nat, marked: Param -> bool)
    requires i < |g|
    ensures NoneMarked(g, i, marked) <==> !marked(g[i]) && NoneMarked(g, i + 1, marked)
  {
  }

  lemma {:induction false} TallyZeroIff(
      s: State, g: Group, i: nat, gtxs: seq<Txn>, chain: Chain, inv: State -> bool, w: Weight, marked: Param -> bool)
    requires i <= |g| && inv(s)
    requires forall t, k :: 0 <= k < |g| ==> SignLaw(t, g[k], gtxs, chain, inv, w, marked)
    ensures Process(s, g, i, gtxs, chain).Ok? ==>
              var sum := Tally(s, g, i, gtxs, chain, w); sum >= 0 && (sum == 0 <==> NoneMarked(g, i, marked))
    decreases |g| - i
  {
    if i < |g| {
      var r := Transact(s, g[i], gtxs, chain);
      assert SignLaw(s, g[i], gtxs, chain, inv, w, marked);
      if r.Ok? {
        TallyZeroIff(r.value, g, i + 1, gtxs, chain, inv, w, marked);
        NoneMarkedFrom(g, i, marked);
      }
    }
  }

  // ---- Groups of one ----

  /** A group of one transaction is that transaction. */
  lemma GroupOfOne(s: State, p: Param, t: State, chain: Chain)
    requires s.args == [] && t.args == [] && !RefersOutside(s)
    requires Encodable(p, chain) && ValidRound(p.txn, chain.round) && Transact(s, p, [p.txn], chain) == Ok(t)
    ensures ExecuteTx(s, [p], chain) == Ok(t)
  {
    hide Transact, RefersOutside;
    assert Txns([p]) == [p.txn];
    assert Process(t, [p], 1, Txns([p]), chain) == Ok(t);
    assert Process(s, [p], 0, Txns([p]), chain) == Ok(t);
    assert s.(args := []) == s && t.(args := []) == t;
  }

  // ---- Invariants alone ----

  /** A transaction that succeeds keeps the invariant. */
  ghost predicate KeepsLaw(s: State, p: Param, gtxs: seq<Txn>, chain: Chain, inv: State -> bool) {
    inv(s) && Transact(s, p, gtxs, chain).Ok? ==> inv(Transact(s, p, gtxs, chain).value)
  }

  lemma RunKeepsInvariant(s: State, calls: seq<Call>, inv: State -> bool)
    requires inv(s) && forall t, u :: SignatureFrame(t, u) && inv(t) ==> inv(u)
    requires forall t, p, gtxs, chain :: KeepsLaw(t, p, gtxs, chain, inv)
    ensures inv(Run(s, calls))
  {
    var phi, w := (_: State) => 0, (_: State, _: Param) => 0;
    forall t, p, gtxs, chain
      ensures StepLaw(t, p, gtxs, chain, inv, phi, w)
    {
      assert KeepsLaw(t, p, gtxs, chain, inv);
    }
    RunLaw(s, calls, inv, phi, w);
  }

  /** If one transaction of a group fails in every state of the invariant, the group fails. */
  lemma {:induction false} BlockedGroupFails(s: State, g: Group, i: nat, k: nat, gtxs: seq<Txn>, chain: Chain, inv: State -> bool)
    requires i <= k < |g| && inv(s)
    requires forall t, p :: KeepsLaw(t, p, gtxs, chain, inv)
    requires forall t :: inv(t) ==> Transact(t, g[k], gtxs, chain).Err?
    ensures Process(s, g, i, gtxs, chain).Err?
    decreases k - i
  {
    var r := Transact(s, g[i], gtxs, chain);
    assert KeepsLaw(s, g[i], gtxs, chain, inv);
    if i < k && r.Ok? {
      BlockedGroupFails(r.value, g, i + 1, k, gtxs, chain, inv);
    }
  }
}
