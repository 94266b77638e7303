/** How the command line spells the names of parameters: `showStackTraces` is written `--show-stack-traces`. */
module ArgumentNames {
  import opened Values
  import opened Tasks

  /** A parameter's name, or one of the two ways in which reading one fails: an upper-case letter in the argument, and a
      part without a first character to put in upper case. */
  datatype NameResult = Name(name: string) | BadCasing | EmptyPart

  predicate IsUpper(c: char) {
    'A' <= c <= 'Z'
  }

  function ToLower(c: char): char {
    if IsUpper(c) then c - 'A' + 'a' else c
  }

  function ToUpper(c: char): char {
    if IsLower(c) then c - 'a' + 'A' else c
  }

  function Lower(s: string): string {
    seq(|s|, i requires 0 <= i < |s| => ToLower(s[i]))
  }

  /** The parts of a string that start at its upper-case letters. */
  function SplitAtUpper(s: string): (parts: seq<string>)
    ensures |parts| > 0
  {
    if |s| <= 1 then [s]
    else
      var rest := SplitAtUpper(s[1..]);
      if IsUpper(s[1]) then [[s[0]]] + rest else [[s[0]] + rest[0]] + rest[1..]
  }

  function LowerAll(parts: seq<string>): seq<string> {
    seq(|parts|, i requires 0 <= i < |parts| => Lower(parts[i]))
  }

  function Join(parts: seq<string>, sep: string): string {
    if parts == [] then "" else if |parts| == 1 then parts[0] else parts[0] + sep + Join(parts[1..], sep)
  }

  function SplitOn(s: string, sep: char): (parts: seq<string>)
    ensures |parts| > 0
  {
    if s == "" then [""]
    else
      var rest := SplitOn(s[1..], sep);
      if s[0] == sep then [""] + rest else [[s[0]] + rest[0]] + rest[1..]
  }

  const PREFIX := "--"

  function NameToCLA(name: string): string {
    PREFIX + Join(LowerAll(SplitAtUpper(name)), "-")
  }

  /** The name read off the parts of an argument. */
  function FromParts(parts: seq<string>): NameResult
    requires |parts| > 0
  {
    if exists i :: 1 <= i < |parts| && parts[i] == "" then EmptyPart else Name(parts[0] + Capitalized(parts[1..]))
  }

  /** The first two characters are dropped, whatever they are. */
  function CLAToName(cla: string): NameResult {
    if Lower(cla) != cla then BadCasing
    else FromParts(SplitOn(if |cla| >= |PREFIX| then cla[|PREFIX|..] else "", '-'))
  }

  /** The parts with their first characters in upper case, put together. */
  function Capitalized(parts: seq<string>): string
    requires forall i :: 0 <= i < |parts| ==> parts[i] != ""
  {
    if parts == [] then "" else [ToUpper(parts[0][0])] + parts[0][1..] + Capitalized(parts[1..])
  }

  // ---- Letter by letter ----

  /** Every upper-case letter becomes a dash and a lower-case letter. */
  function Dashed(s: string): string {
    if s == "" then "" else (if IsUpper(s[0]) then "-" + [ToLower(s[0])] else [s[0]]) + Dashed(s[1..])
  }

  lemma LowerAllCons(part: string, rest: seq<string>)
    ensures LowerAll([part] + rest) == [Lower(part)] + LowerAll(rest)
  {
  }

  /** What is put before the first part comes before the whole. */
  lemma JoinPrefix(parts: seq<string>, sep: string, x: string)
    requires parts != []
    ensures Join([x + parts[0]] + parts[1..], sep) == x + Join(parts, sep)
  {
    if |parts| > 1 {
      assert ([x + parts[0]] + parts[1..])[1..] == parts[1..];
    }
  }

  /** One more character in front of the parts: a part of its own before an upper-case letter, else part of the first. */
  function Prepended(c: char, own: bool, parts: seq<string>): seq<string>
    requires |parts| > 0
  {
    if own then [[c]] + parts else [[c] + parts[0]] + parts[1..]
  }

  lemma SplitStep(c: char, t: string)
    requires t != ""
    ensures SplitAtUpper([c] + t) == Prepended(c, IsUpper(t[0]), SplitAtUpper(t))
  {
    assert ([c] + t)[1..] == t;
  }

  lemma PrependedAlone(c: char, parts: seq<string>)
    requires |parts| > 0
    ensures Join(LowerAll([[c]] + parts), "-") == [ToLower(c)] + "-" + Join(LowerAll(parts), "-")
  {
    hide Lower;
    LowerAllCons([c], parts);
    LowerOne(c, "");
    assert ([Lower([c])] + LowerAll(parts))[1..] == LowerAll(parts);
  }

  lemma PrependedInside(c: char, parts: seq<string>)
    requires |parts| > 0
    ensures Join(LowerAll([[c] + parts[0]] + parts[1..]), "-") == [ToLower(c)] + Join(LowerAll(parts), "-")
  {
    hide Join, Lower;
    LowerAllCons([c] + parts[0], parts[1..]);
    LowerAllCons(parts[0], parts[1..]);
    LowerOne(c, parts[0]);
    assert [parts[0]] + parts[1..] == parts;
    JoinPrefix(LowerAll(parts), "-", [ToLower(c)]);
  }

  lemma LowerOne(c: char, s: string)
    ensures Lower([c] + s) == [ToLower(c)] + Lower(s) && Lower("") == "" && [c] + "" == [c]
  {
  }

  lemma DashedStep(c: char, t: string)
    ensures Dashed([c] + t) == (if IsUpper(c) then ['-', ToLower(c)] else [c]) + Dashed(t)
  {
    assert ([c] + t)[1..] == t;
  }

  lemma OneLetter(c: char)
    ensures Join(LowerAll(SplitAtUpper([c])), "-") == [ToLower(c)] + Dashed("")
  {
    assert LowerAll([[c]]) == [Lower([c])] && Lower([c]) == [ToLower(c)];
  }

  /** Splitting, lowering and joining is letter by letter, where the first letter gets no dash. */
  lemma {:induction false} JoinIsDashed(s: string)
    requires s != ""
    ensures Join(LowerAll(SplitAtUpper(s)), "-") == [ToLower(s[0])] + Dashed(s[1..])
  {
    hide Join, LowerAll, SplitAtUpper, Dashed;
    var c, t := s[0], s[1..];
    assert s == [c] + t;
    if t == "" {
      assert s == [c];
      OneLetter(c);
    } else {
      JoinIsDashed(t);
      SplitStep(c, t);
      PrependedAlone(c, SplitAtUpper(t));
      PrependedInside(c, SplitAtUpper(t));
      assert t == [t[0]] + t[1..];
      DashedStep(t[0], t[1..]);
    }
  }

  /** The letters after the first part: a dash puts the next character in upper case; a dash without one is an error. */
  function Undashed(s: string): NameResult
    decreases |s|
  {
    if s == "" then Name("")
    else if s[0] == '-' then
      if |s| == 1 || s[1] == '-' then EmptyPart
      else match Undashed(s[2..])
        case Name(n) => Name([ToUpper(s[1])] + n)
        case e => e
    else match Undashed(s[1..])
      case Name(n) => Name([s[0]] + n)
      case e => e
  }

  lemma {:induction false} PartsAreUndashed(s: string)
    ensures FromParts(SplitOn(s, '-')) == Undashed(s)
    decreases |s|
  {
    if s == "" {
    } else if s[0] != '-' {
      PartsAreUndashed(s[1..]);
      FirstPartGrows(SplitOn(s[1..], '-'), s[0]);
    } else {
      var rest := SplitOn(s[1..], '-');
      assert SplitOn(s, '-') == [""] + rest;
      if |s| == 1 || s[1] == '-' {
        assert rest[0] == "" && ([""] + rest)[1] == "";
      } else {
        PartsAreUndashed(s[2..]);
        var later := SplitOn(s[2..], '-');
        assert s[1..][1..] == s[2..] && rest == [[s[1]] + later[0]] + later[1..];
        PartCapitalized(later, s[1]);
      }
    }
  }

  lemma FirstPartGrows(parts: seq<string>, c: char)
    requires |parts| > 0
    ensures FromParts([[c] + parts[0]] + parts[1..])
            == match FromParts(parts) case Name(n) => Name([c] + n) case e => e
  {
    var more := [[c] + parts[0]] + parts[1..];
    assert more[1..] == parts[1..] && forall i :: 1 <= i < |parts| ==> more[i] == parts[i];
    if FromParts(parts).Name? {
      assert [c] + parts[0] + Capitalized(parts[1..]) == [c] + (parts[0] + Capitalized(parts[1..]));
    }
  }

  lemma PartCapitalized(parts: seq<string>, c: char)
    requires |parts| > 0
    ensures FromParts([""] + ([[c] + parts[0]] + parts[1..]))
            == match FromParts(parts) case Name(n) => Name([ToUpper(c)] + n) case e => e
  {
    var first, more := [c] + parts[0], [""] + ([[c] + parts[0]] + parts[1..]);
    assert more[1] == first && more[1..] == [first] + parts[1..] && ([first] + parts[1..])[1..] == parts[1..];
    assert forall i :: 1 <= i < |parts| ==> more[i + 1] == parts[i];
    if i :| 1 <= i < |parts| && parts[i] == "" {
      assert more[i + 1] == "";
    } else {
      forall i | 1 <= i < |more|
        ensures more[i] != ""
      {
        if i > 1 {
          assert more[i] == parts[i - 1];
        }
      }
      assert Capitalized([first] + parts[1..]) == [ToUpper(c)] + parts[0] + Capitalized(parts[1..]);
    }
  }

  // ---- Reading a name back ----

  lemma LowerIsFixed(s: string)
    ensures Lower(s) == s <==> forall i :: 0 <= i < |s| ==> !IsUpper(s[i])
  {
    if Lower(s) == s {
      forall i | 0 <= i < |s|
        ensures !IsUpper(s[i])
      {
        assert Lower(s)[i] == ToLower(s[i]);
      }
    } else {
      assert exists i :: 0 <= i < |s| && Lower(s)[i] != s[i];
    }
  }

  lemma {:induction false} DashedHasNoUpper(s: string)
    ensures forall i :: 0 <= i < |Dashed(s)| ==> !IsUpper(Dashed(s)[i])
  {
    if s != "" {
      DashedHasNoUpper(s[1..]);
    }
  }

  lemma UndashedPlain(c: char, d: string)
    ensures c != '-' ==> Undashed([c] + d) == match Undashed(d) case Name(n) => Name([c] + n) case e => e
  {
    assert ([c] + d)[1..] == d;
  }

  lemma UndashedDash(c: char, d: string)
    ensures Undashed(['-', c] + d)
            == if c == '-' then EmptyPart else match Undashed(d) case Name(n) => Name([ToUpper(c)] + n) case e => e
  {
    assert (['-', c] + d)[2..] == d;
  }

  /** Letters without dashes come back. */
  lemma {:induction false} LettersComeBack(s: string)
    requires '-' !in s
    ensures Undashed(Dashed(s)) == Name(s)
  {
    hide Undashed, Dashed;
    if s == "" {
      NothingComesBack();
    } else {
      var c, t := s[0], s[1..];
      LettersComeBack(t);
      DashedStep(c, t);
      UndashedPlain(c, Dashed(t));
      UndashedDash(ToLower(c), Dashed(t));
      assert s == [c] + t;
    }
  }

  lemma NothingComesBack()
    ensures Dashed("") == "" && Undashed("") == Name("")
  {
  }

  /** What can be read is no longer than the letters. */
  predicate NoLonger(r: NameResult, n: nat) {
    r.Name? ==> |r.name| <= n
  }

  /** The first character and what is read from the rest make up what is read, unless the first is a dash. */
  lemma {:induction false} ReadsNoMore(s: string)
    ensures NoLonger(Undashed(Dashed(s)), |s|) && (s != "" ==> NoLonger(Undashed(['-'] + Dashed(s)), |s|))
  {
    hide Undashed, Dashed;
    if s == "" {
      NothingComesBack();
    } else {
      var c, t := s[0], s[1..];
      ReadsNoMore(t);
      DashedStep(c, t);
      UndashedPlain(c, Dashed(t));
      UndashedDash(ToLower(c), Dashed(t));
      UndashedDash(c, Dashed(t));
      LoneDash(t);
      assert s == [c] + t;
      if IsUpper(c) {
        assert ['-'] + Dashed(s) == ['-', '-'] + ([ToLower(c)] + Dashed(t));
        UndashedDash('-', [ToLower(c)] + Dashed(t));
      } else {
        assert ['-'] + Dashed(s) == ['-', c] + Dashed(t);
      }
    }
  }

  lemma LoneDash(t: string)
    ensures t == "" ==> Undashed(['-'] + Dashed(t)) == EmptyPart
  {
  }

  /** With a dash there is an error, or a letter is missing. */
  lemma {:induction false} DashesAreLost(s: string)
    requires '-' in s
    ensures Undashed(Dashed(s)).Name? ==> |Undashed(Dashed(s)).name| < |s|
  {
    hide Undashed, Dashed, NoLonger;
    var c, t := s[0], s[1..];
    assert s == [c] + t;
    DashedStep(c, t);
    if c == '-' {
      ReadsNoMore(t);
      LoneDash(t);
      DashOnly(t);
    } else {
      DashesAreLost(t);
      UndashedPlain(c, Dashed(t));
      UndashedDash(ToLower(c), Dashed(t));
    }
  }

  lemma DashOnly(t: string)
    requires t != "" ==> NoLonger(Undashed(['-'] + Dashed(t)), |t|)
    ensures Undashed(['-'] + Dashed(t)).Name? ==> |Undashed(['-'] + Dashed(t)).name| <= |t|
  {
    LoneDash(t);
  }

  predicate ReadsBack(name: string) {
    CLAToName(NameToCLA(name)) == Name(name)
  }

  lemma CLAOf(name: string)
    requires name != ""
    ensures NameToCLA(name) == PREFIX + ([ToLower(name[0])] + Dashed(name[1..]))
    ensures CLAToName(NameToCLA(name)) == Undashed([ToLower(name[0])] + Dashed(name[1..]))
  {
    JoinIsDashed(name);
    var rest := [ToLower(name[0])] + Dashed(name[1..]);
    assert (PREFIX + rest)[|PREFIX|..] == rest;
    DashedHasNoUpper(name[1..]);
    LowerIsFixed(PREFIX + rest);
    PartsAreUndashed(rest);
  }

  /** A name is read back from the argument it is written as exactly when it has no dash and does not start with an
      upper-case letter. */
  lemma ReadsBackIff(name: string)
    ensures ReadsBack(name) <==> '-' !in name && (name == "" || !IsUpper(name[0]))
  {
    hide Dashed, Undashed, NameToCLA, CLAToName, NoLonger;
    if name == "" {
      EmptyName();
    } else {
      CLAOf(name);
      var c, t := name[0], name[1..];
      assert name == [c] + t;
      UndashedPlain(ToLower(c), Dashed(t));
      if c == '-' {
        assert [ToLower(c)] + Dashed(t) == ['-'] + Dashed(t);
        ReadsNoMore(t);
        DashOnly(t);
      } else if '-' in t {
        DashesAreLost(t);
      } else {
        LettersComeBack(t);
      }
    }
  }

  lemma EmptyName()
    ensures ReadsBack("")
  {
    assert LowerAll([""]) == [""] && NameToCLA("") == PREFIX;
    LowerIsFixed(PREFIX);
  }

  /** Every name that a task can give a parameter is read back. */
  lemma ValidNamesReadBack(name: string)
    requires ValidCasing(name)
    ensures ReadsBack(name)
  {
    ReadsBackIff(name);
  }
}
