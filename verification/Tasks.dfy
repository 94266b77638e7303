/** The command line's task definitions and its parser of positional arguments. */
module Tasks {
  import opened Values

  datatype TaskError =
    | InvalidParamNameCasing | ParamAlreadyDefined | ParamClashesWithAlgobParam | ParamAfterVariadic
    | MandatoryParamAfterOptional | DefaultInMandatoryParam | DefaultValueWrongType
    | MissingPositionalArg(param: string) | InvalidValue(param: string) | UnrecognizedPositionalArg(argument: string)
    | ArgumentInvalidCasing(argument: string) | ArgumentWithEmptyPart(argument: string)
    | UnrecognizedParamName(argument: string) | RepeatedParam(argument: string) | MissingTaskArgument(param: string)

  datatype Added = Done | Refused(error: TaskError) {
    predicate IsFailure() {
      Refused?
    }
    function PropagateFailure(): Added
      requires Refused?
    {
      this
    }
  }

  /** An argument type parses a raw argument of a named parameter, or rejects it. */
  type ArgumentType<T> = (string, string) -> Option<T>

  /** Default values are lists; a parameter that is not variadic has a list of one. */
  datatype ParamDef<T> = ParamDef(
    name: string, defaultValue: Option<seq<T>>, ty: ArgumentType<T>, isOptional: bool, isVariadic: bool, isFlag: bool)

  /** Names of the command line's own parameters. */
  const ALGOB_PARAMS: set<string> := {"network", "showStackTraces", "version", "help", "config", "verbose"}

  /** Names that every JavaScript object already has, so that looking them up never gives `undefined`; only those that
      could pass the check of a name's spelling. */
  const PROTOTYPE_NAMES: set<string> :=
    {"constructor", "hasOwnProperty", "isPrototypeOf", "propertyIsEnumerable", "toLocaleString", "toString", "valueOf"}

  predicate IsLower(c: char) {
    'a' <= c <= 'z'
  }

  predicate IsAlphanumeric(c: char) {
    IsLower(c) || 'A' <= c <= 'Z' || '0' <= c <= '9'
  }

  /** A lower-case letter, then letters and digits. */
  predicate ValidCasing(name: string) {
    |name| > 0 && IsLower(name[0]) && forall i :: 0 <= i < |name| ==> IsAlphanumeric(name[i])
  }

  // ---- Well-formed positional parameters ----

  predicate DistinctNames<T>(defs: seq<ParamDef<T>>) {
    forall i, j :: 0 <= i < j < |defs| ==> defs[i].name != defs[j].name
  }

  predicate VariadicLast<T>(defs: seq<ParamDef<T>>) {
    forall i :: 0 <= i < |defs| - 1 ==> !defs[i].isVariadic
  }

  predicate MandatoryFirst<T>(defs: seq<ParamDef<T>>) {
    forall i, j :: 0 <= i < j < |defs| && defs[i].isOptional ==> defs[j].isOptional
  }

  predicate WellFormed<T>(defs: seq<ParamDef<T>>) {
    DistinctNames(defs) && VariadicLast(defs) && MandatoryFirst(defs)
  }

  function NamesOf<T>(defs: seq<ParamDef<T>>): set<string> {
    set i | 0 <= i < |defs| :: defs[i].name
  }

  predicate AnyVariadic<T>(defs: seq<ParamDef<T>>) {
    exists i :: 0 <= i < |defs| && defs[i].isVariadic
  }

  predicate AnyOptional<T>(defs: seq<ParamDef<T>>) {
    exists i :: 0 <= i < |defs| && defs[i].isOptional
  }

  lemma OneMore<T>(defs: seq<ParamDef<T>>, d: ParamDef<T>)
    ensures NamesOf(defs + [d]) == NamesOf(defs) + {d.name}
    ensures AnyVariadic(defs + [d]) <==> AnyVariadic(defs) || d.isVariadic
    ensures AnyOptional(defs + [d]) <==> AnyOptional(defs) || d.isOptional
  {
    var more := defs + [d];
    assert more[|defs|] == d && forall i :: 0 <= i < |defs| ==> more[i] == defs[i];
  }

  lemma OneMoreWellFormed<T>(defs: seq<ParamDef<T>>, d: ParamDef<T>)
    requires WellFormed(defs) && d.name !in NamesOf(defs) && !AnyVariadic(defs) && (AnyOptional(defs) ==> d.isOptional)
    ensures WellFormed(defs + [d])
  {
    var more := defs + [d];
    assert forall i :: 0 <= i < |defs| ==> more[i] == defs[i] && defs[i].name in NamesOf(defs);
  }

  class SimpleTaskDefinition<T> {
    const stringType: ArgumentType<T>
    const booleanType: ArgumentType<T>
    const falseValue: T
    var paramDefinitions: map<string, ParamDef<T>>
    var positionalParamDefinitions: seq<ParamDef<T>>
    var positionalParamNames: set<string>
    var hasVariadicParam: bool
    var hasOptionalPositionalParam: bool

    /** Every definition is filed under its own name, names are never shared, and the positional ones are well formed. */
    ghost predicate Valid()
      reads this
    {
      && WellFormed(positionalParamDefinitions)
      && positionalParamNames == NamesOf(positionalParamDefinitions)
      && (hasVariadicParam <==> AnyVariadic(positionalParamDefinitions))
      && (hasOptionalPositionalParam <==> AnyOptional(positionalParamDefinitions))
      && paramDefinitions.Keys !! positionalParamNames
      && (forall n :: n in paramDefinitions ==> paramDefinitions[n].name == n)
      && (paramDefinitions.Keys + positionalParamNames) !! (ALGOB_PARAMS + PROTOTYPE_NAMES)
      && forall n :: n in paramDefinitions.Keys + positionalParamNames ==> ValidCasing(n)
    }

    constructor (stringType: ArgumentType<T>, booleanType: ArgumentType<T>, falseValue: T)
      ensures Valid() && paramDefinitions == map[] && positionalParamDefinitions == []
    {
      this.stringType, this.booleanType, this.falseValue := stringType, booleanType, falseValue;
      paramDefinitions, positionalParamDefinitions, positionalParamNames := map[], [], {};
      hasVariadicParam, hasOptionalPositionalParam := false, false;
    }

    /** Names in use, counting those that every object has. */
    predicate HasParamDefined(name: string)
      reads this
    {
      name in paramDefinitions || name in PROTOTYPE_NAMES || name in positionalParamNames
    }

    /** The checks that every kind of parameter's name goes through, in order. */
    function NameCheck(name: string): Added
      reads this
    {
      if !ValidCasing(name) then Refused(InvalidParamNameCasing)
      else if HasParamDefined(name) then Refused(ParamAlreadyDefined)
      else if name in ALGOB_PARAMS then Refused(ParamClashesWithAlgobParam)
      else Done
    }

    /** A missing type is that of strings, which a default value must then be. */
    function TypeCheck(defaultValue: Option<seq<T>>, defaultIsString: bool, ty: Option<ArgumentType<T>>): Added {
      if ty.None? && defaultValue.Some? && !defaultIsString then Refused(DefaultValueWrongType) else Done
    }

    function TypeOf(ty: Option<ArgumentType<T>>): ArgumentType<T> {
      if ty.Some? then ty.value else stringType
    }

    /** All checks of a positional parameter, in order. */
    function PositionalCheck(d: ParamDef<T>): Added
      reads this
    {
      if NameCheck(d.name).Refused? then NameCheck(d.name)
      else if hasVariadicParam then Refused(ParamAfterVariadic)
      else if !d.isOptional && hasOptionalPositionalParam then Refused(MandatoryParamAfterOptional)
      else if d.defaultValue.Some? && !d.isOptional then Refused(DefaultInMandatoryParam)
      else Done
    }

    method AddParam(
        name: string, defaultValue: Option<seq<T>>, defaultIsString: bool, ty: Option<ArgumentType<T>>, isOptional: bool)
      returns (r: Added)
      requires Valid()
      modifies this`paramDefinitions
      ensures Valid()
      ensures r == if TypeCheck(defaultValue, defaultIsString, ty).Refused? then TypeCheck(defaultValue, defaultIsString, ty)
                   else if old(NameCheck(name)).Refused? then old(NameCheck(name))
                   else if defaultValue.Some? && !isOptional then Refused(DefaultInMandatoryParam)
                   else Done
      ensures paramDefinitions == if r.Refused? then old(paramDefinitions)
                                  else old(paramDefinitions)[name := ParamDef(name, defaultValue, TypeOf(ty), isOptional, false, false)]
    {
      r := Done;
      :- TypeCheck(defaultValue, defaultIsString, ty);
      :- NameCheck(name);
      if defaultValue.Some? && !isOptional {
        return Refused(DefaultInMandatoryParam);
      }
      paramDefinitions := paramDefinitions[name := ParamDef(name, defaultValue, TypeOf(ty), isOptional, false, false)];
      return Done;
    }

    method AddFlag(name: string) returns (r: Added)
      requires Valid()
      modifies this`paramDefinitions
      ensures Valid() && r == old(NameCheck(name))
      ensures paramDefinitions == if r.Refused? then old(paramDefinitions)
                                  else old(paramDefinitions)[name := ParamDef(name, Some([falseValue]), booleanType, true, false, true)]
    {
      r := Done;
      :- NameCheck(name);
      paramDefinitions := paramDefinitions[name := ParamDef(name, Some([falseValue]), booleanType, true, false, true)];
      return Done;
    }

    method AddPositionalParam(
        name: string, defaultValue: Option<seq<T>>, defaultIsString: bool, ty: Option<ArgumentType<T>>, isOptional: bool)
      returns (r: Added)
      requires Valid()
      modifies this`positionalParamDefinitions, this`positionalParamNames, this`hasVariadicParam, this`hasOptionalPositionalParam
      ensures Valid()
      ensures var d := ParamDef(name, defaultValue, TypeOf(ty), isOptional, false, false);
              && r == (if TypeCheck(defaultValue, defaultIsString, ty).Refused? then TypeCheck(defaultValue, defaultIsString, ty)
                       else old(PositionalCheck(d)))
              && positionalParamDefinitions == old(positionalParamDefinitions) + if r.Refused? then [] else [d]
    {
      r := Done;
      :- TypeCheck(defaultValue, defaultIsString, ty);
      r := AddChecked(ParamDef(name, defaultValue, TypeOf(ty), isOptional, false, false));
    }

    /** Variadic parameters take the rest of the arguments. */
    method AddVariadicPositionalParam(
        name: string, defaultValue: Option<seq<T>>, defaultIsString: bool, ty: Option<ArgumentType<T>>, isOptional: bool)
      returns (r: Added)
      requires Valid()
      modifies this`positionalParamDefinitions, this`positionalParamNames, this`hasVariadicParam, this`hasOptionalPositionalParam
      ensures Valid()
      ensures var d := ParamDef(name, defaultValue, TypeOf(ty), isOptional, true, false);
              && r == (if TypeCheck(defaultValue, defaultIsString, ty).Refused? then TypeCheck(defaultValue, defaultIsString, ty)
                       else old(PositionalCheck(d)))
              && positionalParamDefinitions == old(positionalParamDefinitions) + if r.Refused? then [] else [d]
    {
      r := Done;
      :- TypeCheck(defaultValue, defaultIsString, ty);
      r := AddChecked(ParamDef(name, defaultValue, TypeOf(ty), isOptional, true, false));
    }

    method AddChecked(d: ParamDef<T>) returns (r: Added)
      requires Valid()
      modifies this`positionalParamDefinitions, this`positionalParamNames, this`hasVariadicParam, this`hasOptionalPositionalParam
      ensures Valid() && r == old(PositionalCheck(d))
      ensures positionalParamDefinitions == old(positionalParamDefinitions) + if r.Refused? then [] else [d]
    {
      r := Done;
      :- NameCheck(d.name);
      if hasVariadicParam {
        return Refused(ParamAfterVariadic);
      }
      if !d.isOptional && hasOptionalPositionalParam {
        return Refused(MandatoryParamAfterOptional);
      }
      if d.defaultValue.Some? && !d.isOptional {
        return Refused(DefaultInMandatoryParam);
      }
      AddPositionalParamDefinition(d);
      return Done;
    }

    method AddPositionalParamDefinition(d: ParamDef<T>)
      requires Valid() && PositionalCheck(d) == Done
      modifies this`positionalParamDefinitions, this`positionalParamNames, this`hasVariadicParam, this`hasOptionalPositionalParam
      ensures Valid() && positionalParamDefinitions == old(positionalParamDefinitions) + [d]
    {
      hide WellFormed, AnyVariadic, AnyOptional, NamesOf;
      OneMore(positionalParamDefinitions, d);
      OneMoreWellFormed(positionalParamDefinitions, d);
      if d.isVariadic {
        hasVariadicParam := true;
      }
      if d.isOptional {
        hasOptionalPositionalParam := true;
      }
      positionalParamNames := positionalParamNames + {d.name};
      positionalParamDefinitions := positionalParamDefinitions + [d];
    }
  }

  // ---- Parsing positional arguments ----

  datatype Argument<T> = Default(values: Option<seq<T>>) | Single(value: T) | Rest(all: seq<T>)

  /** What one parameter gets, or why it fails. */
  datatype Slot<T> = Filled(arg: Argument<T>) | Unfilled(error: TaskError)

  datatype Parsed<T> = Args(args: map<string, Argument<T>>) | Failed(error: TaskError)

  function ParseOne<T>(d: ParamDef<T>, raw: string): Option<T> {
    d.ty(d.name, raw)
  }

  function ParseAll<T>(d: ParamDef<T>, raws: seq<string>): Option<seq<T>> {
    if raws == [] then Some([])
    else
      var front, last := ParseAll(d, raws[..|raws| - 1]), ParseOne(d, raws[|raws| - 1]);
      if front.Some? && last.Some? then Some(front.value + [last.value]) else None
  }

  /** What the definition at position `i` gets from the raw arguments, or why it fails. */
  function ArgAt<T>(d: ParamDef<T>, raws: seq<string>, i: nat): Slot<T> {
    if i >= |raws| then
      if d.isOptional then Filled(Default(d.defaultValue)) else Unfilled(MissingPositionalArg(d.name))
    else if !d.isVariadic then
      var v := ParseOne(d, raws[i]);
      if v.Some? then Filled(Single(v.value)) else Unfilled(InvalidValue(d.name))
    else
      var vs := ParseAll(d, raws[i..]);
      if vs.Some? then Filled(Rest(vs.value)) else Unfilled(InvalidValue(d.name))
  }

  /** The first `n` definitions in order; the first failure ends the parse. */
  function ParseUpTo<T>(defs: seq<ParamDef<T>>, raws: seq<string>, n: nat): Parsed<T>
    requires n <= |defs|
  {
    if n == 0 then Args(map[])
    else match ParseUpTo(defs, raws, n - 1)
      case Failed(e) => Failed(e)
      case Args(args) =>
        match ArgAt(defs[n - 1], raws, n - 1)
        case Filled(arg) => Args(args[defs[n - 1].name := arg])
        case Unfilled(e) => Failed(e)
  }

  predicate LastVariadic<T>(defs: seq<ParamDef<T>>) {
    |defs| > 0 && defs[|defs| - 1].isVariadic
  }

  function ParsePositional<T>(defs: seq<ParamDef<T>>, raws: seq<string>): Parsed<T> {
    var p := ParseUpTo(defs, raws, |defs|);
    if p.Args? && !LastVariadic(defs) && |raws| > |defs| then Failed(UnrecognizedPositionalArg(raws[|defs|])) else p
  }

  lemma {:induction false} FailedUpTo<T>(defs: seq<ParamDef<T>>, raws: seq<string>, k: nat, n: nat)
    requires k <= n <= |defs| && ParseUpTo(defs, raws, k).Failed?
    ensures ParseUpTo(defs, raws, n) == ParseUpTo(defs, raws, k)
    decreases n
  {
    if k < n {
      FailedUpTo(defs, raws, k, n - 1);
    }
  }

  /** The parser's loop over the definitions. */
  method ParsePositionalParamArgs<T>(raws: seq<string>, defs: seq<ParamDef<T>>) returns (r: Parsed<T>)
    ensures r == ParsePositional(defs, raws)
  {
    var args := map[];
    for i := 0 to |defs|
      invariant ParseUpTo(defs, raws, i) == Args(args)
    {
      var d := defs[i];
      if i >= |raws| {
        if !d.isOptional {
          FailedUpTo(defs, raws, i + 1, |defs|);
          return Failed(MissingPositionalArg(d.name));
        }
        args := args[d.name := Default(d.defaultValue)];
      } else if !d.isVariadic {
        var v := ParseOne(d, raws[i]);
        if v.None? {
          FailedUpTo(defs, raws, i + 1, |defs|);
          return Failed(InvalidValue(d.name));
        }
        args := args[d.name := Single(v.value)];
      } else {
        var vs := ParseAll(d, raws[i..]);
        if vs.None? {
          FailedUpTo(defs, raws, i + 1, |defs|);
          return Failed(InvalidValue(d.name));
        }
        args := args[d.name := Rest(vs.value)];
      }
    }
    if !LastVariadic(defs) && |raws| > |defs| {
      return Failed(UnrecognizedPositionalArg(raws[|defs|]));
    }
    return Args(args);
  }

  // ---- What parsing well-formed definitions means ----

  function MandatoryCount<T>(defs: seq<ParamDef<T>>): (n: nat)
    ensures n <= |defs|
  {
    if defs == [] then 0
    else MandatoryCount(defs[..|defs| - 1]) + if defs[|defs| - 1].isOptional then 0 else 1
  }

  /** The definition that raw argument `k` belongs to. */
  function Owner<T>(defs: seq<ParamDef<T>>, k: nat): ParamDef<T>
    requires |defs| > 0
  {
    if k < |defs| then defs[k] else defs[|defs| - 1]
  }

  predicate EveryRawParses<T>(defs: seq<ParamDef<T>>, raws: seq<string>) {
    forall k :: 0 <= k < |raws| && |defs| > 0 ==> ParseOne(Owner(defs, k), raws[k]).Some?
  }

  lemma {:induction false} ParseAllExact<T>(d: ParamDef<T>, raws: seq<string>)
    ensures ParseAll(d, raws).Some? <==> forall k :: 0 <= k < |raws| ==> ParseOne(d, raws[k]).Some?
    ensures ParseAll(d, raws).Some? ==>
              && |ParseAll(d, raws).value| == |raws|
              && forall k :: 0 <= k < |raws| ==> ParseOne(d, raws[k]) == Some(ParseAll(d, raws).value[k])
  {
    if raws != [] {
      var front := raws[..|raws| - 1];
      ParseAllExact(d, front);
      assert forall k :: 0 <= k < |front| ==> front[k] == raws[k];
    }
  }

  /** With mandatory parameters first, their number says where they end. */
  lemma {:induction false} MandatoryPrefix<T>(defs: seq<ParamDef<T>>)
    requires MandatoryFirst(defs)
    ensures forall i :: 0 <= i < |defs| ==> (defs[i].isOptional <==> MandatoryCount(defs) <= i)
  {
    if defs != [] {
      var front := defs[..|defs| - 1];
      assert forall i :: 0 <= i < |front| ==> front[i] == defs[i];
      MandatoryPrefix(front);
    }
  }

  lemma {:induction false} ParseUpToSucceeds<T>(defs: seq<ParamDef<T>>, raws: seq<string>, n: nat)
    requires n <= |defs|
    ensures ParseUpTo(defs, raws, n).Args? <==> forall i :: 0 <= i < n ==> ArgAt(defs[i], raws, i).Filled?
  {
    if n > 0 {
      ParseUpToSucceeds(defs, raws, n - 1);
    }
  }

  lemma ArgAtSucceeds<T>(defs: seq<ParamDef<T>>, raws: seq<string>, i: nat)
    requires VariadicLast(defs) && i < |defs|
    ensures ArgAt(defs[i], raws, i).Filled? <==>
            if i >= |raws| then defs[i].isOptional
            else if defs[i].isVariadic then forall k :: i <= k < |raws| ==> ParseOne(Owner(defs, k), raws[k]).Some?
            else ParseOne(Owner(defs, i), raws[i]).Some?
  {
    if i < |raws| && defs[i].isVariadic {
      ParseAllExact(defs[i], raws[i..]);
      forall k | i <= k < |raws|
        ensures raws[i..][k - i] == raws[k] && Owner(defs, k) == defs[i]
      {
      }
    }
  }

  predicate CountsFit<T>(defs: seq<ParamDef<T>>, raws: seq<string>) {
    MandatoryCount(defs) <= |raws| && (|raws| <= |defs| || LastVariadic(defs))
  }

  lemma SuccessImpliesFit<T>(defs: seq<ParamDef<T>>, raws: seq<string>)
    requires WellFormed(defs) && ParsePositional(defs, raws).Args?
    ensures CountsFit(defs, raws) && EveryRawParses(defs, raws)
  {
    MandatoryPrefix(defs);
    ParseUpToSucceeds(defs, raws, |defs|);
    if |raws| < |defs| {
      ArgAtSucceeds(defs, raws, |raws|);
    }
    forall k | 0 <= k < |raws| && |defs| > 0
      ensures ParseOne(Owner(defs, k), raws[k]).Some?
    {
      ArgAtSucceeds(defs, raws, if k < |defs| then k else |defs| - 1);
    }
  }

  lemma FitImpliesSuccess<T>(defs: seq<ParamDef<T>>, raws: seq<string>)
    requires WellFormed(defs) && CountsFit(defs, raws) && EveryRawParses(defs, raws)
    ensures ParsePositional(defs, raws).Args?
  {
    MandatoryPrefix(defs);
    ParseUpToSucceeds(defs, raws, |defs|);
    forall i | 0 <= i < |defs|
      ensures ArgAt(defs[i], raws, i).Filled?
    {
      ArgAtSucceeds(defs, raws, i);
    }
  }

  /** For the definitions a task can have, parsing succeeds exactly when there are enough arguments for the mandatory
      parameters, not more than there are parameters unless the last is variadic, and each argument parses. */
  lemma ParseSucceedsIff<T>(defs: seq<ParamDef<T>>, raws: seq<string>)
    requires WellFormed(defs)
    ensures ParsePositional(defs, raws).Args? <==> CountsFit(defs, raws) && EveryRawParses(defs, raws)
  {
    if ParsePositional(defs, raws).Args? {
      SuccessImpliesFit(defs, raws);
    } else if CountsFit(defs, raws) && EveryRawParses(defs, raws) {
      FitImpliesSuccess(defs, raws);
    }
  }

  // ---- Nothing is lost ----

  function ValuesOf<T>(a: Argument<T>): seq<T> {
    match a
    case Default(_) => []
    case Single(v) => [v]
    case Rest(vs) => vs
  }

  /** The parsed values of the first `n` parameters, in order. */
  function Collected<T>(defs: seq<ParamDef<T>>, args: map<string, Argument<T>>, n: nat): seq<T>
    requires n <= |defs| && forall i :: 0 <= i < n ==> defs[i].name in args
  {
    if n == 0 then [] else Collected(defs, args, n - 1) + ValuesOf(args[defs[n - 1].name])
  }

  lemma {:induction false} ParseUpToArgs<T>(defs: seq<ParamDef<T>>, raws: seq<string>, n: nat)
    requires DistinctNames(defs) && n <= |defs| && ParseUpTo(defs, raws, n).Args?
    ensures var args := ParseUpTo(defs, raws, n).args;
            && args.Keys == (set i | 0 <= i < n :: defs[i].name)
            && forall i :: 0 <= i < n ==> ArgAt(defs[i], raws, i) == Filled(args[defs[i].name])
  {
    if n > 0 {
      ParseUpToArgs(defs, raws, n - 1);
    }
  }

  /** `values` are the parsed raw arguments from position `from` on. */
  ghost predicate ParsedFrom<T>(defs: seq<ParamDef<T>>, raws: seq<string>, from: nat, values: seq<T>) {
    from + |values| <= |raws| && |defs| > 0
    && forall k :: 0 <= k < |values| ==> ParseOne(Owner(defs, from + k), raws[from + k]) == Some(values[k])
  }

  lemma ParsedFromAppend<T>(defs: seq<ParamDef<T>>, raws: seq<string>, x: seq<T>, y: seq<T>)
    requires ParsedFrom(defs, raws, 0, x) && ParsedFrom(defs, raws, |x|, y)
    ensures ParsedFrom(defs, raws, 0, x + y)
  {
    forall k | 0 <= k < |x + y|
      ensures ParseOne(Owner(defs, k), raws[k]) == Some((x + y)[k])
    {
      if k >= |x| {
        assert ParseOne(Owner(defs, |x| + (k - |x|)), raws[|x| + (k - |x|)]) == Some(y[k - |x|]);
      }
    }
  }

  /** What a filled slot takes: its own raw argument, or all that are left for a variadic one. */
  lemma SlotTakes<T>(defs: seq<ParamDef<T>>, raws: seq<string>, i: nat)
    requires VariadicLast(defs) && i < |defs| && ArgAt(defs[i], raws, i).Filled?
    ensures var taken := ValuesOf(ArgAt(defs[i], raws, i).arg);
            && |taken| == (if i >= |raws| then 0 else if defs[i].isVariadic then |raws| - i else 1)
            && ParsedFrom(defs, raws, if i < |raws| then i else |raws|, taken)
  {
    if i < |raws| && defs[i].isVariadic {
      ParseAllExact(defs[i], raws[i..]);
      var taken := ValuesOf(ArgAt(defs[i], raws, i).arg);
      forall k | 0 <= k < |taken|
        ensures ParseOne(Owner(defs, i + k), raws[i + k]) == Some(taken[k])
      {
        assert raws[i..][k] == raws[i + k] && Owner(defs, i + k) == defs[i];
      }
    }
  }

  /** The first `n` parameters take the first `n` raw arguments; a variadic last one takes all that are left. */
  lemma {:induction false} CollectedUpTo<T>(defs: seq<ParamDef<T>>, raws: seq<string>, args: map<string, Argument<T>>, n: nat)
    requires VariadicLast(defs) && n <= |defs| && |defs| > 0
    requires forall i :: 0 <= i < |defs| ==> defs[i].name in args && ArgAt(defs[i], raws, i) == Filled(args[defs[i].name])
    ensures var taken := Collected(defs, args, n);
            && |taken| == (if n == |defs| && LastVariadic(defs) then |raws| else if n <= |raws| then n else |raws|)
            && ParsedFrom(defs, raws, 0, taken)
  {
    if n > 0 {
      CollectedUpTo(defs, raws, args, n - 1);
      assert ArgAt(defs[n - 1], raws, n - 1) == Filled(args[defs[n - 1].name]);
      SlotTakes(defs, raws, n - 1);
      var before, values := Collected(defs, args, n - 1), ValuesOf(args[defs[n - 1].name]);
      ParsedFromAppend(defs, raws, before, values);
      assert Collected(defs, args, n) == before + values;
    }
  }

  /** A successful parse names every parameter once and uses every raw argument exactly once, in order: the values of the
      parameters, put together, are the parsed raw arguments. */
  lemma EachRawUsedOnce<T>(defs: seq<ParamDef<T>>, raws: seq<string>)
    requires WellFormed(defs) && ParsePositional(defs, raws).Args?
    ensures var args := ParsePositional(defs, raws).args;
            && args.Keys == (set i | 0 <= i < |defs| :: defs[i].name)
            && |Collected(defs, args, |defs|)| == |raws|
            && (|defs| > 0 ==> ParsedFrom(defs, raws, 0, Collected(defs, args, |defs|)))
  {
    ParseUpToArgs(defs, raws, |defs|);
    if |defs| > 0 {
      CollectedUpTo(defs, raws, ParsePositional(defs, raws).args, |defs|);
    }
  }
}
