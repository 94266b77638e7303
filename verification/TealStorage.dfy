/** Application state under TEAL writes and reads: what a read gives after a write. */
module TealStorage {
  import opened Values
  import opened Teal

  /** What the `_ex` reads push for a stored value: a stored zero looks like an absent key. */
  function FoundEntries(v: StackElem): seq<StackElem> {
    [v, Int(if v != Int(0) then 1 else 0)]
  }

  /** `app_local_put` of `v`, then `app_local_get_ex` of the same account and key: the flag is one if and only if `v` is not
      zero; the value read is `v` in any case. */
  lemma LocalGetAfterPut(m: Machine, c: TealCtx, index: int, r: Loc, v: StackElem)
    requires |m.stack| + 3 <= STACK_CAPACITY
    requires StepLocalPut(m.(stack := m.stack + [Int(index), Ref(r), v]), c).Cont?
    ensures var after := StepLocalPut(m.(stack := m.stack + [Int(index), Ref(r), v]), c).m;
            && after.stack == m.stack
            && StepAppRead(AppLocalGetEx, after.(stack := m.stack + [Int(index), Int(AppIdOf(c.tx)), Ref(r)]), c)
               == Ok(after.(stack := m.stack + FoundEntries(v)))
  {
    var before := m.(stack := m.stack + [Int(index), Ref(r), v]);
    var after := StepLocalPut(before, c).m;
    var read := after.(stack := m.stack + [Int(index), Int(AppIdOf(c.tx)), Ref(r)]);
    assert Drop(before, 3).stack == m.stack && Drop(read, 3).stack == m.stack;
    var a, key := AccountAt(m.st, c, index).value, Deref(m.st.heap, r);
    assert LocalValue(after.st.accounts[a], AppIdOf(c.tx), key) == Some(v);
    assert m.stack + [v] + [Int(1)] == m.stack + [v, Int(1)];
    assert m.stack + [Int(0)] + [Int(0)] == m.stack + [Int(0), Int(0)];
  }

  /** A local write leaves every other key, application and account as it was. */
  lemma LocalPutElsewhere(m: Machine, c: TealCtx, a: Address, appID: int, key: Bytes)
    requires StepLocalPut(m, c).Cont? && a in m.st.accounts
    requires var target := AccountAt(m.st, c, Peek(m, 2).n).value;
             a != target || appID != AppIdOf(c.tx) || key != Deref(m.st.heap, Peek(m, 1).r)
    ensures var after := StepLocalPut(m, c).m.st;
            a in after.accounts && LocalValue(after.accounts[a], appID, key) == LocalValue(m.st.accounts[a], appID, key)
  {
  }

  /** The same for global state, read back as the current application's. */
  lemma GlobalGetAfterPut(m: Machine, c: TealCtx, r: Loc, v: StackElem)
    requires |m.stack| + 2 <= STACK_CAPACITY && c.tx.apid.Some?
    requires StepGlobalPut(m.(stack := m.stack + [Ref(r), v]), c).Cont?
    ensures var after := StepGlobalPut(m.(stack := m.stack + [Ref(r), v]), c).m;
            && after.stack == m.stack
            && StepAppRead(AppGlobalGetEx, after.(stack := m.stack + [Int(0), Ref(r)]), c)
               == Ok(after.(stack := m.stack + FoundEntries(v)))
  {
    var before := m.(stack := m.stack + [Ref(r), v]);
    var after := StepGlobalPut(before, c).m;
    var read := after.(stack := m.stack + [Int(0), Ref(r)]);
    assert Drop(before, 2).stack == m.stack && Drop(read, 2).stack == m.stack;
    assert GlobalValue(after.st, AppIdOf(c.tx), Deref(m.st.heap, r)) == Ok(Some(v));
    assert m.stack + [v] + [Int(1)] == m.stack + [v, Int(1)];
    assert m.stack + [Int(0)] + [Int(0)] == m.stack + [Int(0), Int(0)];
  }

  lemma GlobalPutElsewhere(m: Machine, c: TealCtx, appID: nat, key: Bytes)
    requires StepGlobalPut(m, c).Cont?
    requires appID != AppIdOf(c.tx) || key != Deref(m.st.heap, Peek(m, 1).r)
    ensures GlobalValue(StepGlobalPut(m, c).m.st, appID, key) == GlobalValue(m.st, appID, key)
  {
  }
}
