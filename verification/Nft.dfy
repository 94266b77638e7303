/** The non-fungible token contract: creation and transfer, and why a token never has two holders. */
module NftContract {
  import opened Values
  import Teal
  import opened Stores
  import opened ContractStates

  const TOTAL := Ascii("total")
  const CREATOR := Ascii("creator")

  function Itob(v: Content): Result<Bytes> {
    var n :- AsNum(v);
    Teal.EncodeUint64(n)
  }

  predicate IsCreator(s: AppState, t: CallTxn) {
    GlobalGet(s, CREATOR) == Array(t.senderKey)
  }

  /** `Int(i)` as an account argument: 0 is the sender, i > 0 the i-th listed account. */
  function AccountAt(t: CallTxn, i: nat): Result<Address> {
    if i == 0 then Ok(t.sender) else if i <= |t.accounts| then Ok(t.accounts[i - 1]) else Err(IndexOutOfBound)
  }

  /** The steps of `create_nft` in order; the identifier is read from the total each time it is used. */
  function Create(s: AppState, t: CallTxn): Result<AppState> {
    var _ :- Check(|t.args| == 3 && IsCreator(s, t) && t.noRekey);
    var total :- Increment(GlobalGet(s, TOTAL));
    var s1 :- GlobalPut(s, TOTAL, total);
    var id1 :- Itob(GlobalGet(s1, TOTAL));
    var s2 :- GlobalPut(s1, id1, Array(t.args[1]));
    var s3 :- GlobalPut(s2, id1 + Ascii("_h"), Array(t.args[2]));
    var id3 :- Itob(GlobalGet(s3, TOTAL));
    var s4 :- LocalPut(s3, t.sender, id3, Integer(1));
    var _ :- Check(IsCreator(s4, t));
    Ok(s4)
  }

  /** The steps of `transfer_nft`; anyone may call it. */
  function Transfer(s: AppState, t: CallTxn): Result<AppState> {
    var _ :- Check(|t.args| == 2 && t.noRekey);
    var from :- AccountAt(t, 1);
    var _ :- Check(LocalGet(s, from, t.args[1]) == Integer(1));
    var s1 := LocalDel(s, from, t.args[1]);
    var to :- AccountAt(t, 2);
    LocalPut(s1, to, t.args[1], Integer(1))
  }

  function Approve(s: AppState, e: Event): Result<AppState> {
    var t := e.txn;
    if e.completion != NoOp then Ok(s)
    else if |t.args| == 0 then Err(IndexOutOfBound)
    else if t.args[0] == Ascii("create") then Create(s, t)
    else if t.args[0] == Ascii("transfer") then Transfer(s, t)
    else Err(EncounteredErr)
  }

  /** `on_deployment`, on the state of an application that is being created. */
  function Deploy(globalSchema: Schema, localSchema: Schema, t: CallTxn): Result<AppState> {
    var s1 :- GlobalPut(AppState(map[], map[], globalSchema, localSchema), CREATOR, Array(t.senderKey));
    var _ :- Check(|t.args| == 0);
    GlobalPut(s1, TOTAL, Integer(0))
  }

  // ---- Identifiers ----

  function Pow256(w: nat): (p: nat)
    ensures p > 0
  {
    if w == 0 then 1 else 256 * Pow256(w - 1)
  }

  lemma {:induction false} BigEndianRoundTrip(n: nat, w: nat)
    requires n < Pow256(w)
    ensures |Teal.BigEndian(n, w)| == w && Teal.FromBigEndian(Teal.BigEndian(n, w)) == n
  {
    if w > 0 {
      BigEndianRoundTrip(n / 256, w - 1);
      var b := Teal.BigEndian(n, w);
      assert b[..|b| - 1] == Teal.BigEndian(n / 256, w - 1);
    }
  }

  lemma ItobRoundTrip(n: int)
    requires IsUint64(n)
    ensures Itob(Integer(n)) == Ok(Teal.BigEndian(n, 8)) && |Teal.BigEndian(n, 8)| == 8 && Teal.FromBigEndian(Teal.BigEndian(n, 8)) == n
  {
    assert Pow256(8) == 256 * (256 * (256 * (256 * (256 * (256 * (256 * (256 * Pow256(0))))))));
    BigEndianRoundTrip(n, 8);
  }

  // ---- The invariant ----

  predicate Holds(s: AppState, a: Address, id: Bytes) {
    a in s.locals && id in s.locals[a]
  }

  predicate Issued(s: AppState, id: Bytes) {
    GlobalGet(s, TOTAL).Integer? && |id| == 8 && 1 <= Teal.FromBigEndian(id) <= GlobalGet(s, TOTAL).n
  }

  /** Whatever is held is an issued token, held once. */
  ghost predicate NftInv(s: AppState) {
    && GlobalGet(s, TOTAL).Integer? && IsUint64(GlobalGet(s, TOTAL).n)
    && (forall a, id :: Holds(s, a, id) ==> s.locals[a][id] == Integer(1) && Issued(s, id))
    && (forall a, b, id :: Holds(s, a, id) && Holds(s, b, id) ==> a == b)
  }

  lemma KeyLengths()
    ensures |TOTAL| == 5 && |CREATOR| == 7 && |Ascii("_h")| == 2
  {
  }

  /** Creation issues the next identifier, which nobody can hold yet, and gives it to the creator. */
  lemma CreateEffect(s: AppState, t: CallTxn)
    requires NftInv(s) && Create(s, t).Ok?
    ensures var n, s' := GlobalGet(s, TOTAL).n + 1, Create(s, t).value;
            && GlobalGet(s', TOTAL) == Integer(n) && IsUint64(n) && t.sender in s.locals
            && s'.locals == s.locals[t.sender := s.locals[t.sender][Teal.BigEndian(n, 8) := Integer(1)]]
            && !Issued(s, Teal.BigEndian(n, 8)) && Issued(s', Teal.BigEndian(n, 8))
  {
    KeyLengths();
    ItobRoundTrip(GlobalGet(s, TOTAL).n + 1);
  }

  lemma CreateKeepsInv(s: AppState, t: CallTxn)
    requires NftInv(s) && Create(s, t).Ok?
    ensures NftInv(Create(s, t).value)
  {
    CreateEffect(s, t);
    var s', id := Create(s, t).value, Teal.BigEndian(GlobalGet(s, TOTAL).n + 1, 8);
    forall a, x | Holds(s', a, x)
      ensures (Holds(s, a, x) || (a == t.sender && x == id)) && s'.locals[a][x] == Integer(1) && Issued(s', x)
    {
    }
  }

  /** A transfer takes the token from its one holder; afterwards the receiver holds it and nobody else does, and no other
      token moves. */
  lemma TransferEffect(s: AppState, t: CallTxn)
    requires NftInv(s) && Transfer(s, t).Ok?
    ensures var s', from, to, id := Transfer(s, t).value, AccountAt(t, 1).value, AccountAt(t, 2).value, t.args[1];
            && (forall a :: Holds(s, a, id) <==> a == from) && (forall a :: Holds(s', a, id) <==> a == to)
            && (forall a, x :: x != id ==> LocalGet(s', a, x) == LocalGet(s, a, x) && (Holds(s', a, x) <==> Holds(s, a, x)))
            && s'.globals == s.globals && s'.locals.Keys == s.locals.Keys
  {
    var s', from, to, id := Transfer(s, t).value, AccountAt(t, 1).value, AccountAt(t, 2).value, t.args[1];
    assert Holds(s, from, id);
    forall a
      ensures Holds(s', a, id) <==> a == to
    {
      if a != from {
        assert !Holds(s, a, id);
      }
    }
  }

  lemma TransferKeepsInv(s: AppState, t: CallTxn)
    requires NftInv(s) && Transfer(s, t).Ok?
    ensures NftInv(Transfer(s, t).value)
  {
    var s', to, id := Transfer(s, t).value, AccountAt(t, 2).value, t.args[1];
    TransferEffect(s, t);
    forall a, x | Holds(s', a, x)
      ensures s'.locals[a][x] == Integer(1) && Issued(s', x)
    {
      if x == id {
        assert Holds(s, AccountAt(t, 1).value, id);
      } else {
        assert Holds(s, a, x) && LocalGet(s', a, x) == LocalGet(s, a, x);
      }
    }
  }

  lemma StepKeepsInv(s: AppState, e: Event)
    requires NftInv(s)
    ensures NftInv(Step(Approve, s, e))
  {
    var t := Step(Approve, s, e);
    if e.completion == NoOp {
      if Approve(s, e).Ok? {
        if e.txn.args[0] == Ascii("create") {
          CreateKeepsInv(s, e.txn);
        } else {
          TransferKeepsInv(s, e.txn);
        }
      }
    } else {
      forall a, id | Holds(t, a, id)
        ensures Holds(s, a, id) && t.locals[a][id] == s.locals[a][id]
      {
      }
    }
  }

  /** Over every run from deployment each token has at most one holder, and only tokens already issued are held. */
  lemma AtMostOneHolder(globalSchema: Schema, localSchema: Schema, deployment: CallTxn, es: seq<Event>, id: Bytes)
    requires Deploy(globalSchema, localSchema, deployment).Ok?
    ensures var t := Run(Approve, Deploy(globalSchema, localSchema, deployment).value, es);
            && (forall a, b :: Holds(t, a, id) && Holds(t, b, id) ==> a == b)
            && (forall a :: Holds(t, a, id) ==> Issued(t, id))
  {
    var inv, phi := (x: AppState) => NftInv(x), (x: AppState) => 0;
    var w := (x: AppState, e: Event) => 0;
    forall x, e
      ensures StepLaw(Approve, x, e, inv, phi, w)
    {
      if NftInv(x) {
        StepKeepsInv(x, e);
      }
    }
    KeyLengths();
    RunLaw(Approve, Deploy(globalSchema, localSchema, deployment).value, es, inv, phi, w);
  }

  // ---- The programs as steps on the stored state ----

  method CreateNft(app: AppStore, t: CallTxn) returns (o: Outcome)
    modifies app
    ensures Agrees(Create(old(app.State()), t), o, app.State())
  {
    o := Pass;
    :- Ensure(|t.args| == 3 && IsCreator(app.State(), t) && t.noRekey, RejectedByLogic);
    var total := Increment(GlobalGet(app.State(), TOTAL));
    :- OutcomeOf(total);
    :- app.Put(TOTAL, total.value);
    var id := Itob(GlobalGet(app.State(), TOTAL));
    :- OutcomeOf(id);
    var idH := id.value + Ascii("_h");
    :- app.Put(id.value, Array(t.args[1]));
    :- app.Put(idH, Array(t.args[2]));
    id := Itob(GlobalGet(app.State(), TOTAL));
    :- OutcomeOf(id);
    :- app.PutLocal(t.sender, id.value, Integer(1));
    return Ensure(IsCreator(app.State(), t), RejectedByLogic);
  }

  method TransferNft(app: AppStore, t: CallTxn) returns (o: Outcome)
    modifies app
    ensures Agrees(Transfer(old(app.State()), t), o, app.State())
  {
    o := Pass;
    :- Ensure(|t.args| == 2 && t.noRekey, RejectedByLogic);
    var from := AccountAt(t, 1);
    :- OutcomeOf(from);
    :- Ensure(LocalGet(app.State(), from.value, t.args[1]) == Integer(1), RejectedByLogic);
    app.DeleteLocal(from.value, t.args[1]);
    var to := AccountAt(t, 2);
    :- OutcomeOf(to);
    o := app.PutLocal(to.value, t.args[1], Integer(1));
  }
}
