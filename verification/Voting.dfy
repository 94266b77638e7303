/** The permissioned voting contract: registration, votes and withdrawals, and what the tallies count. */
module VotingContract {
  import opened Values
  import opened Stores
  import opened ContractStates

  const VOTED := Ascii("voted")
  const CANDIDATE_A := Ascii("candidatea")
  const CANDIDATE_B := Ascii("candidateb")
  const CREATOR := Ascii("Creator")
  const REG_BEGIN := Ascii("RegBegin")
  const REG_END := Ascii("RegEnd")
  const VOTE_BEGIN := Ascii("VoteBegin")
  const VOTE_END := Ascii("VoteEnd")
  const ASSET_ID := Ascii("AssetID")

  predicate IsCandidate(c: Bytes) {
    c == CANDIDATE_A || c == CANDIDATE_B
  }

  /** The value found by `localGetEx`; the interpreter takes a stored zero for an absent one. */
  function VoteOf(s: AppState, a: Address): Option<Content> {
    if a in s.locals && VOTED in s.locals[a] && s.locals[a][VOTED] != Integer(0) then Some(s.locals[a][VOTED]) else None
  }

  function NumAt(s: AppState, key: Bytes): Result<int> {
    AsNum(GlobalGet(s, key))
  }

  function KeyOf(v: Content): Result<Bytes> {
    if v.Array? then Ok(v.b) else Err(InvalidType)
  }

  function Register(s: AppState, t: CallTxn): Result<AppState> {
    var _ :- Check(|t.args| > 0);
    var begin :- NumAt(s, REG_BEGIN);
    var end :- NumAt(s, REG_END);
    var _ :- Check(t.noRekey && t.args[0] == Ascii("register") && begin <= t.round <= end);
    Ok(s)
  }

  /** Withdrawing before the end of the vote takes the vote back. */
  function Withdraw(s: AppState, t: CallTxn): Result<AppState> {
    var end :- NumAt(s, VOTE_END);
    if t.round <= end && VoteOf(s, t.sender).Some? then
      var choice :- KeyOf(VoteOf(s, t.sender).value);
      var less :- Decrement(GlobalGet(s, choice));
      GlobalPut(s, choice, less)
    else Ok(s)
  }

  /** The vote token has to come back to the creator in the second transaction of the group. */
  predicate ReturnsToken(s: AppState, t: CallTxn) {
    && |t.group| == 2 && t.group[1].assetTransfer && Array(t.group[1].receiver) == GlobalGet(s, CREATOR)
    && Integer(t.group[1].asset) == GlobalGet(s, ASSET_ID) && t.group[1].amount == 1
  }

  function Vote(s: AppState, t: CallTxn): Result<AppState> {
    var begin :- NumAt(s, VOTE_BEGIN);
    var end :- NumAt(s, VOTE_END);
    var _ :- Check(t.noRekey && begin <= t.round <= end);
    var _ :- Check(|t.args| > 1 && ReturnsToken(s, t) && IsCandidate(t.args[1]));
    var _ :- Check(VoteOf(s, t.sender).None?);
    var more :- Increment(GlobalGet(s, t.args[1]));
    var s1 :- GlobalPut(s, t.args[1], more);
    LocalPut(s1, t.sender, VOTED, Array(t.args[1]))
  }

  function Approve(s: AppState, e: Event): Result<AppState> {
    var t := e.txn;
    match e.completion
    case CloseOut => Withdraw(s, t)
    case OptIn => Register(s, t)
    case _ =>
      if |t.args| == 0 then Err(IndexOutOfBound)
      else if t.args[0] == Ascii("vote") then Vote(s, t)
      else Err(EncounteredErr)
  }

  /** The globals a creation call stores; the arguments are the five numbers already decoded. */
  function Created(globalSchema: Schema, localSchema: Schema, creator: Bytes, numbers: seq<int>): Result<AppState>
    requires |numbers| == 5
  {
    var s1 :- GlobalPut(AppState(map[], map[], globalSchema, localSchema), CREATOR, Array(creator));
    var s2 :- GlobalPut(s1, REG_BEGIN, Integer(numbers[0]));
    var s3 :- GlobalPut(s2, REG_END, Integer(numbers[1]));
    var s4 :- GlobalPut(s3, VOTE_BEGIN, Integer(numbers[2]));
    var s5 :- GlobalPut(s4, VOTE_END, Integer(numbers[3]));
    GlobalPut(s5, ASSET_ID, Integer(numbers[4]))
  }

  // ---- What the tallies count ----

  function Tally(s: AppState, c: Bytes): int {
    if GlobalGet(s, c).Integer? then GlobalGet(s, c).n else 0
  }

  function Voters(s: AppState, c: Bytes): set<Address> {
    With(s.locals, VOTED, Array(c))
  }

  /** A vote that stays counted although its voter leaves: by a clear call, or by a close-out after the vote has ended. */
  function Departed(c: Bytes): (AppState, Event) -> int {
    (s: AppState, e: Event) =>
      Bit(Transact(Approve, s, e).Ok? && e.txn.sender in Voters(s, c)
          && (e.completion == Clear || (e.completion == CloseOut && !(e.txn.round <= Tally(s, VOTE_END)))))
  }

  ghost predicate VotingInv(s: AppState) {
    && GlobalGet(s, VOTE_END).Integer? && Fits(s.globals, s.globalSchema)
    && (forall a :: a in s.locals && VOTED in s.locals[a] ==>
          s.locals[a][VOTED].Array? && IsCandidate(s.locals[a][VOTED].b))
    && (forall c :: IsCandidate(c) ==> GlobalGet(s, c).Integer?)
  }

  /** Votes counted minus voters present: never falls, and grows by one for each vote that outlives its voter. */
  function Excess(c: Bytes): AppState -> int {
    (s: AppState) => Tally(s, c) - |Voters(s, c)|
  }

  lemma KeysDiffer()
    ensures CANDIDATE_A[9] == 97 && CANDIDATE_B[9] == 98 && |CANDIDATE_A| == |CANDIDATE_B| == 10 && |VOTE_END| == 7
  {
  }

  /** A vote raises the chosen tally by one and marks its voter, who cannot vote again; nothing else changes. */
  lemma VoteEffect(s: AppState, t: CallTxn)
    requires Vote(s, t).Ok?
    ensures var s', a, c := Vote(s, t).value, t.sender, t.args[1];
            && IsCandidate(c) && Tally(s', c) == Tally(s, c) + 1
            && (forall k :: k != c ==> GlobalGet(s', k) == GlobalGet(s, k))
            && VoteOf(s, a) == None && VoteOf(s', a) == Some(Array(c)) && Voters(s', c) == Voters(s, c) + {a}
            && (forall d :: d != c ==> Voters(s', d) == Voters(s, d))
            && (forall k :: k != VOTED ==> LocalGet(s', a, k) == LocalGet(s, a, k))
            && s'.locals - {a} == s.locals - {a} && s'.locals.Keys == s.locals.Keys
            && forall u: CallTxn :: u.sender == a ==> Vote(s', u).Err?
  {
    var s', a, c := Vote(s, t).value, t.sender, t.args[1];
    forall d
      ensures Voters(s', d) == if d == c then Voters(s, d) + {a} else Voters(s, d)
    {
    }
    assert s'.locals - {a} == s.locals - {a};
  }

  /** A vote keeps the tally and the number of voters in step, for both candidates. */
  lemma VoteKeeps(s: AppState, t: CallTxn, c: Bytes)
    requires VotingInv(s) && IsCandidate(c) && Vote(s, t).Ok?
    ensures var s' := Vote(s, t).value; VotingInv(s') && Excess(c)(s') == Excess(c)(s)
  {
    KeysDiffer();
    var s', a := Vote(s, t).value, t.sender;
    var kv := s.locals[a][VOTED := Array(t.args[1])];
    CountUpdate(s.locals, a, kv, VOTED, Array(c));
    assert Get(kv, VOTED) == Array(t.args[1]);
    assert Get(s.locals[a], VOTED) == Integer(0);
  }

  lemma WithdrawKeeps(s: AppState, e: Event, c: Bytes)
    requires VotingInv(s) && IsCandidate(c) && e.completion == CloseOut && Transact(Approve, s, e).Ok?
    ensures var s' := Transact(Approve, s, e).value; VotingInv(s') && Excess(c)(s') == Excess(c)(s) + Departed(c)(s, e)
  {
    hide Fits;
    KeysDiffer();
    var a := e.txn.sender;
    CountRemove(s.locals, a, VOTED, Array(c));
    assert a in s.locals;
    assert VoteOf(s, a).Some? <==> VOTED in s.locals[a];
  }

  lemma StepKeeps(s: AppState, e: Event, c: Bytes)
    requires VotingInv(s) && IsCandidate(c)
    ensures VotingInv(Step(Approve, s, e)) && Excess(c)(Step(Approve, s, e)) == Excess(c)(s) + Departed(c)(s, e)
  {
    if Transact(Approve, s, e).Ok? {
      match e.completion
      case NoOp => VoteKeeps(s, e.txn, c);
      case CloseOut => WithdrawKeeps(s, e, c);
      case Clear => CountRemove(s.locals, e.txn.sender, VOTED, Array(c));
      case OptIn =>
        if e.txn.sender !in s.locals {
          CountUpdate(s.locals, e.txn.sender, map[], VOTED, Array(c));
        }
    }
  }

  lemma CreatedState(globalSchema: Schema, localSchema: Schema, creator: Bytes, numbers: seq<int>, c: Bytes)
    requires |numbers| == 5 && Created(globalSchema, localSchema, creator, numbers).Ok? && IsCandidate(c)
    ensures var s := Created(globalSchema, localSchema, creator, numbers).value; VotingInv(s) && Excess(c)(s) == 0
  {
    KeysDiffer();
    assert |CREATOR| == 7 && |REG_BEGIN| == 8 && |REG_END| == 6 && |VOTE_BEGIN| == 9 && |ASSET_ID| == 7;
    assert VOTE_END[0] == 86 && ASSET_ID[0] == 65;
    var s := Created(globalSchema, localSchema, creator, numbers).value;
    assert Voters(s, c) == {};
  }

  /** Over every run from creation, each candidate's tally is the number of opted-in accounts that voted for it plus the
      number of its voters who have left with their vote still counted. */
  lemma TallyCountsVotes(
      globalSchema: Schema, localSchema: Schema, creator: Bytes, numbers: seq<int>, es: seq<Event>, c: Bytes)
    requires |numbers| == 5 && Created(globalSchema, localSchema, creator, numbers).Ok? && IsCandidate(c)
    ensures var s := Created(globalSchema, localSchema, creator, numbers).value;
            var t := Run(Approve, s, es);
            VotingInv(t) && Tally(t, c) == |Voters(t, c)| + Sum(Approve, s, es, Departed(c)) && Sum(Approve, s, es, Departed(c)) >= 0
  {
    var s := Created(globalSchema, localSchema, creator, numbers).value;
    CreatedState(globalSchema, localSchema, creator, numbers, c);
    forall x, e
      ensures StepLaw(Approve, x, e, VotingInv, Excess(c), Departed(c))
    {
      if VotingInv(x) {
        StepKeeps(x, e, c);
      }
    }
    RunLaw(Approve, s, es, VotingInv, Excess(c), Departed(c));
    SumNonNegative(Approve, s, es, Departed(c));
  }

  lemma WithdrawalSucceeds(s: AppState, e: Event)
    requires VotingInv(s) && Excess(CANDIDATE_A)(s) >= 0 && Excess(CANDIDATE_B)(s) >= 0
    requires e.completion == CloseOut && e.txn.sender in s.locals
    ensures Transact(Approve, s, e).Ok?
  {
    if VoteOf(s, e.txn.sender).Some? {
      var c := s.locals[e.txn.sender][VOTED].b;
      assert e.txn.sender in Voters(s, c);
      assert Tally(s, c) >= 1;
      ReplacedNumFits(s.globals, c, Tally(s, c) - 1, s.globalSchema);
    }
  }

  /** Withdrawing never underflows a tally: in every reachable state, every opted-in account can close out. */
  lemma WithdrawalAlwaysSucceeds(
      globalSchema: Schema, localSchema: Schema, creator: Bytes, numbers: seq<int>, es: seq<Event>, e: Event)
    requires |numbers| == 5 && Created(globalSchema, localSchema, creator, numbers).Ok?
    requires e.completion == CloseOut
    requires e.txn.sender in Run(Approve, Created(globalSchema, localSchema, creator, numbers).value, es).locals
    ensures Transact(Approve, Run(Approve, Created(globalSchema, localSchema, creator, numbers).value, es), e).Ok?
  {
    TallyCountsVotes(globalSchema, localSchema, creator, numbers, es, CANDIDATE_A);
    TallyCountsVotes(globalSchema, localSchema, creator, numbers, es, CANDIDATE_B);
    WithdrawalSucceeds(Run(Approve, Created(globalSchema, localSchema, creator, numbers).value, es), e);
  }

  // ---- The programs as steps on the stored state ----

  method OnCloseOut(app: AppStore, t: CallTxn) returns (o: Outcome)
    modifies app
    ensures Agrees(Withdraw(old(app.State()), t), o, app.State())
  {
    var end := NumAt(app.State(), VOTE_END);
    :- OutcomeOf(end);
    var vote := VoteOf(app.State(), t.sender);
    if t.round <= end.value && vote.Some? {
      var choice := KeyOf(vote.value);
      :- OutcomeOf(choice);
      var less := Decrement(GlobalGet(app.State(), choice.value));
      :- OutcomeOf(less);
      :- app.Put(choice.value, less.value);
    }
    return Pass;
  }

  method OnVote(app: AppStore, t: CallTxn) returns (o: Outcome)
    modifies app
    ensures Agrees(Vote(old(app.State()), t), o, app.State())
  {
    var begin := NumAt(app.State(), VOTE_BEGIN);
    :- OutcomeOf(begin);
    var end := NumAt(app.State(), VOTE_END);
    :- OutcomeOf(end);
    :- Ensure(t.noRekey && begin.value <= t.round <= end.value, RejectedByLogic);
    :- Ensure(|t.args| > 1 && ReturnsToken(app.State(), t) && IsCandidate(t.args[1]), RejectedByLogic);
    :- Ensure(VoteOf(app.State(), t.sender).None?, RejectedByLogic);
    var more := Increment(GlobalGet(app.State(), t.args[1]));
    :- OutcomeOf(more);
    :- app.Put(t.args[1], more.value);
    o := app.PutLocal(t.sender, VOTED, Array(t.args[1]));
  }
}
