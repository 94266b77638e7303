/** The command line's parser of named arguments and flags, and the whole parse of a task's arguments. */
module NamedArguments {
  import opened Values
  import opened Tasks
  import opened ArgumentNames

  /** Arguments by name and the raw positional ones, or the error that ends the parse. */
  datatype Named<T> = Read(args: map<string, Argument<T>>, positional: seq<string>) | Rejected(error: TaskError)

  type Definitions<T> = map<string, ParamDef<T>>

  /** Every name that looking up in an object without it still finds something under. */
  const OBJECT_NAMES: set<string> :=
    PROTOTYPE_NAMES + {"__proto__", "__defineGetter__", "__defineSetter__", "__lookupGetter__", "__lookupSetter__"}

  predicate HasPrefix(raw: string) {
    |raw| >= 2 && raw[..2] == PREFIX
  }

  /** What one argument is: positional, a flag, a named argument with its value, or an error. */
  datatype Item<T> = Plain | Flag(name: string) | Valued(name: string, value: T) | Bad(error: TaskError)

  /** The argument at `i`; a named one takes the next raw argument as its value, whatever that looks like. */
  function ItemAt<T>(raws: seq<string>, i: nat, defs: Definitions<T>, args: map<string, Argument<T>>): Item<T>
    requires i < |raws|
  {
    if !HasPrefix(raws[i]) then Plain
    else match CLAToName(raws[i])
      case BadCasing => Bad(ArgumentInvalidCasing(raws[i]))
      case EmptyPart => Bad(ArgumentWithEmptyPart(raws[i]))
      case Name(n) =>
        if n !in defs && n !in OBJECT_NAMES then Bad(UnrecognizedParamName(raws[i]))
        else if n in args || n in OBJECT_NAMES then Bad(RepeatedParam(raws[i]))
        else if defs[n].isFlag then Flag(n)
        else if i + 1 >= |raws| then Bad(MissingTaskArgument(n))
        else match defs[n].ty(n, raws[i + 1])
          case None => Bad(InvalidValue(n))
          case Some(v) => Valued(n, v)
  }

  function ReadFrom<T>(
      raws: seq<string>, i: nat, defs: Definitions<T>, yes: T, args: map<string, Argument<T>>, positional: seq<string>): Named<T>
    decreases |raws| - i
  {
    if i >= |raws| then Read(args, positional)
    else match ItemAt(raws, i, defs, args)
      case Plain => ReadFrom(raws, i + 1, defs, yes, args, positional + [raws[i]])
      case Flag(n) => ReadFrom(raws, i + 1, defs, yes, args[n := Single(yes)], positional)
      case Valued(n, v) => ReadFrom(raws, i + 2, defs, yes, args[n := Single(v)], positional)
      case Bad(e) => Rejected(e)
  }

  /** The missing parameters get their default values, in the order in which they were defined; a mandatory one is an error. */
  function WithDefaults<T>(keys: seq<string>, defs: Definitions<T>, args: map<string, Argument<T>>): Parsed<T>
    requires forall k :: 0 <= k < |keys| ==> keys[k] in defs
  {
    if keys == [] then Args(args)
    else if keys[0] in args then WithDefaults(keys[1..], defs, args)
    else if !defs[keys[0]].isOptional then Failed(MissingTaskArgument(keys[0]))
    else WithDefaults(keys[1..], defs, args[keys[0] := Default(defs[keys[0]].defaultValue)])
  }

  // ---- The loops ----

  method ParseRawArguments<T>(raws: seq<string>, defs: Definitions<T>, yes: T) returns (r: Named<T>)
    ensures r == ReadFrom(raws, 0, defs, yes, map[], [])
  {
    var args: map<string, Argument<T>>, positional := map[], [];
    var i := 0;
    while i < |raws|
      invariant ReadFrom(raws, i, defs, yes, args, positional) == ReadFrom(raws, 0, defs, yes, map[], [])
      decreases |raws| - i
    {
      var arg := raws[i];
      if !HasPrefix(arg) {
        positional := positional + [arg];
        i := i + 1;
        continue;
      }
      var name := CLAToName(arg);
      if name.BadCasing? {
        return Rejected(ArgumentInvalidCasing(arg));
      } else if name.EmptyPart? {
        return Rejected(ArgumentWithEmptyPart(arg));
      } else if name.name !in defs && name.name !in OBJECT_NAMES {
        return Rejected(UnrecognizedParamName(arg));
      } else if name.name in args || name.name in OBJECT_NAMES {
        return Rejected(RepeatedParam(arg));
      }
      if defs[name.name].isFlag {
        args := args[name.name := Single(yes)];
      } else {
        i := i + 1;
        if i >= |raws| {
          return Rejected(MissingTaskArgument(name.name));
        }
        var value := defs[name.name].ty(name.name, raws[i]);
        if value.None? {
          return Rejected(InvalidValue(name.name));
        }
        args := args[name.name := Single(value.value)];
      }
      i := i + 1;
    }
    return Read(args, positional);
  }

  method AddTaskDefaultArguments<T>(keys: seq<string>, defs: Definitions<T>, given: map<string, Argument<T>>)
    returns (r: Parsed<T>)
    requires forall k :: 0 <= k < |keys| ==> keys[k] in defs
    ensures r == WithDefaults(keys, defs, given)
  {
    var args := given;
    for k := 0 to |keys|
      invariant WithDefaults(keys[k..], defs, args) == WithDefaults(keys, defs, given)
    {
      assert keys[k..][0] == keys[k] && keys[k..][1..] == keys[k + 1..];
      if keys[k] in args {
        continue;
      }
      if !defs[keys[k]].isOptional {
        return Failed(MissingTaskArgument(keys[k]));
      }
      args := args[keys[k] := Default(defs[keys[k]].defaultValue)];
    }
    return Args(args);
  }

  function TaskArguments<T>(
      raws: seq<string>, keys: seq<string>, defs: Definitions<T>, positionalDefs: seq<ParamDef<T>>, yes: T): Parsed<T>
    requires forall k :: 0 <= k < |keys| ==> keys[k] in defs
  {
    match ReadFrom(raws, 0, defs, yes, map[], [])
    case Rejected(e) => Failed(e)
    case Read(args, positional) =>
      match WithDefaults(keys, defs, args)
      case Failed(e) => Failed(e)
      case Args(named) =>
        match ParsePositional(positionalDefs, positional)
        case Failed(e) => Failed(e)
        case Args(others) => Args(named + others)
  }

  method ParseTaskArguments<T>(
      raws: seq<string>, keys: seq<string>, defs: Definitions<T>, positionalDefs: seq<ParamDef<T>>, yes: T) returns (r: Parsed<T>)
    requires forall k :: 0 <= k < |keys| ==> keys[k] in defs
    ensures r == TaskArguments(raws, keys, defs, positionalDefs, yes)
  {
    var read := ParseRawArguments(raws, defs, yes);
    if read.Rejected? {
      return Failed(read.error);
    }
    var named := AddTaskDefaultArguments(keys, defs, read.args);
    if named.Failed? {
      return named;
    }
    var others := ParsePositionalParamArgs(read.positional, positionalDefs);
    if others.Failed? {
      return others;
    }
    return Args(named.args + others.args);
  }

  // ---- Every parameter gets one argument ----

  lemma {:induction false} ReadKeys<T>(
      raws: seq<string>, i: nat, defs: Definitions<T>, yes: T, args: map<string, Argument<T>>, positional: seq<string>)
    requires args.Keys <= defs.Keys && defs.Keys !! OBJECT_NAMES
    ensures var r := ReadFrom(raws, i, defs, yes, args, positional); r.Read? ==> r.args.Keys <= defs.Keys
    decreases |raws| - i
  {
    if i < |raws| {
      match ItemAt(raws, i, defs, args)
      case Plain => ReadKeys(raws, i + 1, defs, yes, args, positional + [raws[i]]);
      case Flag(n) => ReadKeys(raws, i + 1, defs, yes, args[n := Single(yes)], positional);
      case Valued(n, v) => ReadKeys(raws, i + 2, defs, yes, args[n := Single(v)], positional);
      case Bad(_) =>
    }
  }

  lemma {:induction false} DefaultKeys<T>(keys: seq<string>, defs: Definitions<T>, args: map<string, Argument<T>>)
    requires forall k :: 0 <= k < |keys| ==> keys[k] in defs
    ensures var r := WithDefaults(keys, defs, args);
            r.Args? ==> r.args.Keys == args.Keys + (set n | n in keys) && forall n :: n in args ==> r.args[n] == args[n]
  {
    if keys != [] {
      var more := if keys[0] in args then args else args[keys[0] := Default(defs[keys[0]].defaultValue)];
      DefaultKeys(keys[1..], defs, more);
      assert (set n | n in keys) == {keys[0]} + (set n | n in keys[1..]);
    }
  }

  /** A parse that succeeds gives every parameter of the task an argument, and nothing else. */
  lemma EveryParameterFilled<T>(
      raws: seq<string>, keys: seq<string>, defs: Definitions<T>, positionalDefs: seq<ParamDef<T>>, yes: T)
    requires (set n | n in keys) == defs.Keys && defs.Keys !! OBJECT_NAMES && WellFormed(positionalDefs)
    ensures var r := TaskArguments(raws, keys, defs, positionalDefs, yes);
            r.Args? ==> r.args.Keys == defs.Keys + NamesOf(positionalDefs)
  {
    var read := ReadFrom(raws, 0, defs, yes, map[], []);
    ReadKeys(raws, 0, defs, yes, map[], []);
    if read.Read? {
      DefaultKeys(keys, defs, read.args);
      if ParsePositional(positionalDefs, read.positional).Args? {
        EachRawUsedOnce(positionalDefs, read.positional);
      }
    }
  }

  /** In every task that the builder can build, no parameter has a name that all objects have. */
  lemma BuiltTaskNames<T>(task: SimpleTaskDefinition<T>)
    requires task.Valid()
    ensures task.paramDefinitions.Keys !! OBJECT_NAMES && WellFormed(task.positionalParamDefinitions)
  {
    forall n | n in task.paramDefinitions.Keys
      ensures n !in OBJECT_NAMES
    {
      assert n in task.paramDefinitions.Keys + task.positionalParamNames;
    }
  }

  // ---- Writing arguments and reading them back ----

  /** An argument as a user means it. */
  datatype Meant = Value(name: string, raw: string) | Switch(name: string) | Positional(raw: string)

  function Written(x: Meant): seq<string> {
    match x
    case Value(n, raw) => [NameToCLA(n), raw]
    case Switch(n) => [NameToCLA(n)]
    case Positional(raw) => [raw]
  }

  function WrittenAll(xs: seq<Meant>): seq<string> {
    if xs == [] then [] else Written(xs[0]) + WrittenAll(xs[1..])
  }

  /** The definitions accept the argument: it names a parameter of its kind whose type takes the value, or it could not be
      taken for a name. */
  predicate Accepted<T>(x: Meant, defs: Definitions<T>) {
    match x
    case Value(n, raw) => n in defs && ValidCasing(n) && !defs[n].isFlag && defs[n].ty(n, raw).Some?
    case Switch(n) => n in defs && ValidCasing(n) && defs[n].isFlag
    case Positional(raw) => !HasPrefix(raw)
  }

  /** The named arguments after one more. */
  function GivenOne<T>(args: map<string, Argument<T>>, x: Meant, defs: Definitions<T>, yes: T): map<string, Argument<T>>
    requires Accepted(x, defs)
  {
    match x
    case Value(n, raw) => args[n := Single(defs[n].ty(n, raw).value)]
    case Switch(n) => args[n := Single(yes)]
    case Positional(_) => args
  }

  function PositionalOne(positional: seq<string>, x: Meant): seq<string> {
    if x.Positional? then positional + [x.raw] else positional
  }

  function Given<T>(xs: seq<Meant>, defs: Definitions<T>, yes: T): map<string, Argument<T>>
    requires forall k :: 0 <= k < |xs| ==> Accepted(xs[k], defs)
  {
    if xs == [] then map[] else GivenOne(Given(xs[..|xs| - 1], defs, yes), xs[|xs| - 1], defs, yes)
  }

  function Positionals(xs: seq<Meant>): seq<string> {
    if xs == [] then [] else PositionalOne(Positionals(xs[..|xs| - 1]), xs[|xs| - 1])
  }

  predicate NamesOnce(xs: seq<Meant>) {
    forall i, j :: 0 <= i < j < |xs| && !xs[i].Positional? && !xs[j].Positional? ==> xs[i].name != xs[j].name
  }

  lemma {:induction false} GivenNames<T>(xs: seq<Meant>, defs: Definitions<T>, yes: T)
    requires forall k :: 0 <= k < |xs| ==> Accepted(xs[k], defs)
    ensures forall n :: n in Given(xs, defs, yes) ==> exists k :: 0 <= k < |xs| && !xs[k].Positional? && xs[k].name == n
  {
    if xs != [] {
      var front := xs[..|xs| - 1];
      GivenNames(front, defs, yes);
      forall n | n in Given(xs, defs, yes)
        ensures exists k :: 0 <= k < |xs| && !xs[k].Positional? && xs[k].name == n
      {
        if n in Given(front, defs, yes) {
          var k :| 0 <= k < |front| && !front[k].Positional? && front[k].name == n;
          assert xs[k] == front[k];
        } else {
          assert xs[|xs| - 1].name == n;
        }
      }
    }
  }

  /** After `before` the next argument is written, and then the rest. */
  lemma WrittenSplits(xs: seq<Meant>, k: nat, before: seq<string>)
    requires k < |xs|
    ensures var raws, w := before + WrittenAll(xs[k..]), Written(xs[k]);
            && raws == (before + w) + WrittenAll(xs[k + 1..])
            && |before| + |w| <= |raws| && raws[|before|..|before| + |w|] == w
  {
    hide Written;
    assert xs[k..][0] == xs[k] && xs[k..][1..] == xs[k + 1..];
    assert before + WrittenAll(xs[k..]) == (before + Written(xs[k])) + WrittenAll(xs[k + 1..]);
  }

  /** The written name of a parameter starts with the prefix and is read back. */
  lemma WrittenName(n: string)
    requires ValidCasing(n)
    ensures HasPrefix(NameToCLA(n)) && CLAToName(NameToCLA(n)) == Name(n)
  {
    ValidNamesReadBack(n);
  }

  /** Reading passes over one written argument. */
  lemma ReadOne<T>(
      x: Meant, raws: seq<string>, i: nat, defs: Definitions<T>, yes: T, args: map<string, Argument<T>>, positional: seq<string>)
    requires Accepted(x, defs) && (!x.Positional? ==> x.name !in args && x.name !in OBJECT_NAMES)
    requires i + |Written(x)| <= |raws| && raws[i..i + |Written(x)|] == Written(x)
    ensures ReadFrom(raws, i, defs, yes, args, positional)
            == ReadFrom(raws, i + |Written(x)|, defs, yes, GivenOne(args, x, defs, yes), PositionalOne(positional, x))
  {
    hide OBJECT_NAMES, NameToCLA, CLAToName, HasPrefix, ValidCasing;
    assert raws[i] == raws[i..i + |Written(x)|][0];
    if !x.Positional? {
      WrittenName(x.name);
      if x.Value? {
        assert raws[i + 1] == raws[i..i + |Written(x)|][1];
      }
    }
  }

  /** Reading goes on after the first `k` arguments with what those were meant to give. */
  lemma {:induction false} ReadAfter<T>(xs: seq<Meant>, k: nat, before: seq<string>, defs: Definitions<T>, yes: T)
    requires k <= |xs| && NamesOnce(xs) && defs.Keys !! OBJECT_NAMES
    requires forall j :: 0 <= j < |xs| ==> Accepted(xs[j], defs)
    ensures ReadFrom(before + WrittenAll(xs[k..]), |before|, defs, yes, Given(xs[..k], defs, yes), Positionals(xs[..k]))
            == Read(Given(xs, defs, yes), Positionals(xs))
    decreases |xs| - k
  {
    hide GivenOne, PositionalOne, Written, WrittenAll, Given, Positionals, Accepted, OBJECT_NAMES, NamesOnce;
    if k == |xs| {
      assert xs[..k] == xs && xs[k..] == [];
      NothingWritten(before);
    } else {
      var x, raws := xs[k], before + WrittenAll(xs[k..]);
      WrittenSplits(xs, k, before);
      OneMoreGiven(xs, k, defs, yes);
      NotYetGiven(xs, k, defs, yes);
      ReadOne(x, raws, |before|, defs, yes, Given(xs[..k], defs, yes), Positionals(xs[..k]));
      ReadAfter(xs, k + 1, before + Written(x), defs, yes);
    }
  }

  lemma NothingWritten(before: seq<string>)
    ensures before + WrittenAll([]) == before
  {
  }

  lemma OneMoreGiven<T>(xs: seq<Meant>, k: nat, defs: Definitions<T>, yes: T)
    requires k < |xs| && forall j :: 0 <= j < |xs| ==> Accepted(xs[j], defs)
    ensures Given(xs[..k + 1], defs, yes) == GivenOne(Given(xs[..k], defs, yes), xs[k], defs, yes)
    ensures Positionals(xs[..k + 1]) == PositionalOne(Positionals(xs[..k]), xs[k])
  {
    hide GivenOne, PositionalOne, Accepted;
    assert xs[..k + 1][..k] == xs[..k] && xs[..k + 1][k] == xs[k];
  }

  lemma NotYetGiven<T>(xs: seq<Meant>, k: nat, defs: Definitions<T>, yes: T)
    requires k < |xs| && NamesOnce(xs) && defs.Keys !! OBJECT_NAMES
    requires forall j :: 0 <= j < |xs| ==> Accepted(xs[j], defs)
    ensures !xs[k].Positional? ==> xs[k].name !in Given(xs[..k], defs, yes) && xs[k].name !in OBJECT_NAMES
  {
    if !xs[k].Positional? {
      GivenNames(xs[..k], defs, yes);
      assert Accepted(xs[k], defs) && xs[k].name in defs.Keys;
    }
  }

  /** Arguments that a task's definitions accept, with no name twice, written out in any order and mixed with positional ones,
      are read back exactly: every name has its value and the positional arguments keep their order. */
  lemma WriteThenRead<T>(xs: seq<Meant>, defs: Definitions<T>, yes: T)
    requires NamesOnce(xs) && defs.Keys !! OBJECT_NAMES && forall k :: 0 <= k < |xs| ==> Accepted(xs[k], defs)
    ensures ReadFrom(WrittenAll(xs), 0, defs, yes, map[], []) == Read(Given(xs, defs, yes), Positionals(xs))
  {
    assert xs[..0] == [] && xs[0..] == xs && [] + WrittenAll(xs) == WrittenAll(xs);
    ReadAfter(xs, 0, [], defs, yes);
  }
}
