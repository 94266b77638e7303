/** The bounded stack of the TEAL interpreter. */
module Stacks {
  import opened Values
  import opened Teal
  import opened Stores

  class Stack {
    var store: seq<StackElem>
    const capacity: nat

    constructor (capacity: nat)
      ensures store == [] && this.capacity == capacity
    {
      store := [];
      this.capacity := capacity;
    }

    method Push(item: StackElem) returns (o: Outcome)
      modifies this
      ensures |old(store)| == capacity ==> o == Throw(StackOverflow) && store == old(store)
      ensures |old(store)| != capacity ==> o == Pass && store == old(store) + [item]
    {
      if |store| == capacity {
        return Throw(StackOverflow);
      }
      store := store + [item];
      return Pass;
    }

    method Pop() returns (o: Outcome, item: StackElem)
      modifies this
      ensures |old(store)| == 0 ==> o == Throw(StackEmpty) && store == old(store)
      ensures |old(store)| != 0 ==>
                var top := |old(store)| - 1; o == Pass && item == old(store)[top] && store == old(store)[..top]
    {
      if |store| == 0 {
        return Throw(StackEmpty), Int(0);
      }
      item := store[|store| - 1];
      store := store[..|store| - 1];
      return Pass, item;
    }

    /** Pops an entry that has to be an integer; an entry of the other type is popped all the same. */
    method PopInt() returns (o: Outcome, n: int)
      modifies this
      ensures |old(store)| == 0 ==> o == Throw(StackEmpty) && store == old(store)
      ensures |old(store)| != 0 ==>
                var top := |old(store)| - 1;
                && store == old(store)[..top]
                && Agrees(AsInt(old(store)[top]), o, n)
    {
      n := 0;
      var item :- Pop();
      if !item.Int? {
        return Throw(InvalidType), 0;
      }
      return Pass, item.n;
    }

    method PopRef() returns (o: Outcome, r: Loc)
      modifies this
      ensures |old(store)| == 0 ==> o == Throw(StackEmpty) && store == old(store)
      ensures |old(store)| != 0 ==>
                var top := |old(store)| - 1;
                && store == old(store)[..top]
                && Agrees(AsRef(old(store)[top]), o, r)
    {
      r := Own(0);
      var item :- Pop();
      if !item.Ref? {
        return Throw(InvalidType), Own(0);
      }
      return Pass, item.r;
    }

    /** A key on top of an account index. */
    method PopKeyAndIndex() returns (o: Outcome, key: Loc, index: int)
      modifies this
      ensures |store| <= |old(store)| && store == old(store)[..|store|]
      ensures Agrees(KeyAndIndex(old(store)), o, (key, index))
      ensures o == Pass ==> |store| == |old(store)| - 2
    {
      index := 0;
      key :- PopRef();
      index :- PopInt();
      return Pass, key, index;
    }

    static function KeyAndIndex(s: seq<StackElem>): Result<(Loc, int)> {
      var _ :- Require(|s| >= 1, StackEmpty);
      var key :- AsRef(s[|s| - 1]);
      var _ :- Require(|s| >= 2, StackEmpty);
      var index :- AsInt(s[|s| - 2]);
      Ok((key, index))
    }

    method AssertMinStackLen(n: nat) returns (o: Outcome)
      ensures o == Ensure(|store| >= n, AssertStackLength)
    {
      return Ensure(|store| >= n, AssertStackLength);
    }
  }
}
