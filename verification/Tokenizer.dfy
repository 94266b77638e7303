/** The line tokenizer of the TEAL parser: words, string literals, base64 arguments and comments. */
module Tokenizer {

  /** White space as `trim` understands it. */
  predicate IsSpace(c: char) {
    || c == ' ' || '\t' <= c <= '\r' || c == '\U{A0}' || c == '\U{1680}' || '\U{2000}' <= c <= '\U{200A}'
    || c == '\U{2028}' || c == '\U{2029}' || c == '\U{202F}' || c == '\U{205F}' || c == '\U{3000}' || c == '\U{FEFF}'
  }

  function TrimStart(s: string): string {
    if s != [] && IsSpace(s[0]) then TrimStart(s[1..]) else s
  }

  function TrimEnd(s: string): string {
    if s != [] && IsSpace(s[|s| - 1]) then TrimEnd(s[..|s| - 1]) else s
  }

  function Trim(s: string): string {
    TrimEnd(TrimStart(s))
  }

  datatype Mode = Mode(inString: bool, inBase64: bool)
  datatype Stop = AtSpace | AtEnd | AtComment
  datatype Scan = Scan(end: nat, stop: Stop, inBase64: bool)

  /** A word as a slice of the line. */
  datatype Span = Span(from: nat, to: nat)

  predicate IsBase64Word(s: string) {
    s == "base64" || s == "b64"
  }

  /** What a character other than a space does to the mode. */
  function AfterChar(line: string, start: nat, i: nat, mode: Mode): Mode
    requires start <= i < |line|
  {
    match line[i]
    case '"' =>
      if !mode.inString then mode.(inString := i == 0 || line[i - 1] == ' ')
      else mode.(inString := !(i == 0 || line[i - 1] != '\\'))
    case '(' => if IsBase64Word(line[start..i]) then mode.(inBase64 := true) else mode
    case ')' => mode.(inBase64 := false)
    case _ => mode
  }

  predicate IsComment(line: string, i: nat, mode: Mode)
    requires i < |line|
  {
    line[i] == '/' && i < |line| - 1 && line[i + 1] == '/' && !mode.inBase64 && !mode.inString
  }

  /** Scans the word that began at `start`, from position `i` on. */
  function ScanWord(line: string, start: nat, i: nat, mode: Mode): (s: Scan)
    requires start <= i <= |line|
    ensures i <= s.end <= |line|
    ensures s.stop.AtEnd? <==> s.end == |line|
    ensures s.stop.AtSpace? ==> line[s.end] == ' '
    decreases |line| - i
  {
    if i == |line| then Scan(i, AtEnd, mode.inBase64)
    else if line[i] == ' ' then
      if mode.inString then ScanWord(line, start, i + 1, mode)
      else Scan(i, AtSpace, IsBase64Word(line[start..i]))
    else if IsComment(line, i, mode) then Scan(i, AtComment, mode.inBase64)
    else ScanWord(line, start, i + 1, AfterChar(line, start, i, mode))
  }

  function SkipSpaces(line: string, i: nat): (j: nat)
    requires i <= |line|
    ensures i <= j <= |line|
    ensures j < |line| ==> line[j] != ' '
    decreases |line| - i
  {
    if i < |line| && line[i] == ' ' then SkipSpaces(line, i + 1) else i
  }

  /** Words from the one that began at `start`, of which the part before `i` is already scanned. */
  function SpansFrom(line: string, start: nat, i: nat, mode: Mode): seq<Span>
    requires start <= i <= |line|
    decreases |line| - start
  {
    if start == |line| then []
    else
      var s := ScanWord(line, start, i, mode);
      match s.stop
      case AtEnd => [Span(start, |line|)]
      case AtComment => if s.end > start then [Span(start, s.end)] else []
      case AtSpace =>
        var next := SkipSpaces(line, s.end);
        [Span(start, s.end)] + SpansFrom(line, next, next, Mode(false, s.inBase64))
  }

  /** The slices a list of spans denotes; a span that does not fit the line denotes the empty word. */
  function Slices(line: string, spans: seq<Span>): (words: seq<string>)
    ensures |words| == |spans|
  {
    if spans == [] then []
    else [Slice(line, spans[0])] + Slices(line, spans[1..])
  }

  function Slice(line: string, s: Span): string {
    if s.from <= s.to <= |line| then line[s.from..s.to] else ""
  }

  function Spans(line: string): seq<Span> {
    SpansFrom(Trim(line), 0, 0, Mode(false, false))
  }

  /** Words of a line. */
  function Words(line: string): seq<string> {
    Slices(Trim(line), Spans(line))
  }

  lemma SlicesCons(line: string, s: Span, rest: seq<Span>)
    ensures Slices(line, [s] + rest) == [Slice(line, s)] + Slices(line, rest)
  {
    assert ([s] + rest)[1..] == rest;
  }

  /** One scanning step over a character that neither ends the word nor starts a comment. */
  lemma CharStep(line: string, start: nat, i: nat, mode: Mode)
    requires start <= i < |line| && line[i] != ' ' && !IsComment(line, i, mode)
    ensures SpansFrom(line, start, i, mode) == SpansFrom(line, start, i + 1, AfterChar(line, start, i, mode))
  {
    assert ScanWord(line, start, i, mode) == ScanWord(line, start, i + 1, AfterChar(line, start, i, mode));
  }

  lemma StringSpaceStep(line: string, start: nat, i: nat, mode: Mode)
    requires start <= i < |line| && line[i] == ' ' && mode.inString
    ensures SpansFrom(line, start, i, mode) == SpansFrom(line, start, i + 1, mode)
  {
    assert ScanWord(line, start, i, mode) == ScanWord(line, start, i + 1, mode);
  }

  lemma WordStep(words: seq<string>, line: string, start: nat, i: nat, mode: Mode)
    requires start <= i < |line| && line[i] == ' ' && !mode.inString
    ensures var next := SkipSpaces(line, i + 1);
            words + Slices(line, SpansFrom(line, start, i, mode))
            == words + [line[start..i]] + Slices(line, SpansFrom(line, next, next, Mode(false, IsBase64Word(line[start..i]))))
  {
    var next := SkipSpaces(line, i);
    SlicesCons(line, Span(start, i), SpansFrom(line, next, next, Mode(false, IsBase64Word(line[start..i]))));
  }

  /** At a comment or at the end of the line the pending word, if any, is the last one. */
  lemma FinalStep(line: string, start: nat, i: nat, mode: Mode)
    requires start <= i <= |line| && start < |line|
    requires i == |line| || (line[i] != ' ' && IsComment(line, i, mode))
    ensures Slices(line, SpansFrom(line, start, i, mode)) == if i > start then [line[start..i]] else []
  {
    SlicesCons(line, Span(start, i), []);
  }

  /** The switch over a character inside a word: string quotes and base64 parentheses. */
  method ScanCharacter(line: string, start: nat, i: nat, inString: bool, inBase64: bool) returns (str: bool, b64: bool)
    requires start <= i < |line|
    ensures Mode(str, b64) == AfterChar(line, start, i, Mode(inString, inBase64))
  {
    str, b64 := inString, inBase64;
    match line[i] {
      case '"' =>
        if !inString {
          if i == 0 || line[i - 1] == ' ' {
            str := true;
          }
        } else {
          if i == 0 || line[i - 1] != '\\' {
            str := false;
          }
        }
      case '(' =>
        var prefix := line[start..i];
        if prefix == "base64" || prefix == "b64" {
          b64 := true;
        }
      case ')' =>
        if inBase64 {
          b64 := false;
        }
      case _ =>
    }
  }

  method SkipBlanks(line: string, from: nat) returns (i: nat)
    requires from <= |line|
    ensures i == SkipSpaces(line, from)
  {
    i := from;
    while i < |line| && line[i] == ' '
      invariant i <= |line| && SkipSpaces(line, i) == SkipSpaces(line, from)
    {
      i := i + 1;
    }
  }

  lemma NothingAtEnd(line: string, mode: Mode)
    ensures Slices(line, SpansFrom(line, |line|, |line|, mode)) == []
  {
  }

  /** The scanning loop with its mutable position, word start and two mode flags. */
  method WordsFromLine(text: string) returns (words: seq<string>)
    ensures words == Words(text)
  {
    hide ScanWord, SpansFrom;
    var line := Trim(text);
    words := [];
    var i: nat, start: nat, inString, inBase64 := 0, 0, false, false;
    while i < |line|
      invariant start <= i <= |line|
      invariant start == |line| ==> i == |line|
      invariant Words(text) == words + Slices(line, SpansFrom(line, start, i, Mode(inString, inBase64)))
    {
      ghost var mode := Mode(inString, inBase64);
      if line[i] != ' ' {
        // two slashes outside a string literal and a base64 bracket end the line
        if line[i] == '/' && i < |line| - 1 && line[i + 1] == '/' && !inBase64 && !inString {
          FinalStep(line, start, i, mode);
          if start != i {
            words := words + [line[start..i]];
          }
          return;
        }
        CharStep(line, start, i, mode);
        inString, inBase64 := ScanCharacter(line, start, i, inString, inBase64);
        i := i + 1;
        continue;
      }
      if !inString {
        WordStep(words, line, start, i, mode);
        var value := line[start..i];
        words := words + [value];
        if IsBase64Word(value) {
          inBase64 := true;
        } else if inBase64 {
          inBase64 := false;
        }
        assert inBase64 == IsBase64Word(value);
      } else {
        StringSpaceStep(line, start, i, mode);
      }
      i := i + 1;
      if !inString {
        i := SkipBlanks(line, i);
        start := i;
      }
    }
    if start < |line| {
      FinalStep(line, start, i, Mode(inString, inBase64));
      words := words + [line[start..i]];
    } else {
      NothingAtEnd(line, Mode(inString, inBase64));
    }
  }

  // ---- Normal form ----

  function Join(words: seq<string>): string {
    if words == [] then ""
    else if |words| == 1 then words[0]
    else words[0] + " " + Join(words[1..])
  }

  /** Whether position `p` may begin a word: the line's start, or just after a space. */
  predicate AtWordStart(line: string, p: nat)
    requires p <= |line|
  {
    (p == 0 || line[p - 1] == ' ') && (p < |line| ==> line[p] != ' ')
  }

  /** Every word is a non-empty slice that starts with a non-space, and the slices are in order and apart. */
  predicate OrderedSpans(line: string, from: nat, spans: seq<Span>) {
    && (forall k :: 0 <= k < |spans| ==> from <= spans[k].from < spans[k].to <= |line| && line[spans[k].from] != ' ')
    && (forall k, l :: 0 <= k < l < |spans| ==> spans[k].to < spans[l].from)
  }

  lemma {:induction false} SpansOrdered(line: string, p: nat, mode: Mode)
    requires p <= |line| && !mode.inString
    requires p < |line| ==> line[p] != ' '
    ensures OrderedSpans(line, p, SpansFrom(line, p, p, mode))
    decreases |line| - p
  {
    if p < |line| {
      var s := ScanWord(line, p, p, mode);
      if s.stop.AtSpace? {
        var next := SkipSpaces(line, s.end);
        SpansOrdered(line, next, Mode(false, s.inBase64));
      }
    }
  }

  /** Two lines hold the same word of length `n` at their own word starts. */
  predicate SameWord(l1: string, p1: nat, l2: string, p2: nat, n: nat) {
    && p1 + n <= |l1| && p2 + n <= |l2| && l2[p2..p2 + n] == l1[p1..p1 + n]
    && (p1 == 0 || l1[p1 - 1] == ' ') && (p2 == 0 || l2[p2 - 1] == ' ')
  }

  lemma SameCharacter(l1: string, p1: nat, l2: string, p2: nat, n: nat, k: nat)
    requires SameWord(l1, p1, l2, p2, n) && k < n
    ensures l1[p1 + k] == l2[p2 + k]
    ensures l1[p1..p1 + k] == l2[p2..p2 + k]
  {
    assert l1[p1..p1 + n][k] == l1[p1 + k] && l2[p2..p2 + n][k] == l2[p2 + k];
    assert l1[p1..p1 + n][..k] == l1[p1..p1 + k] && l2[p2..p2 + n][..k] == l2[p2..p2 + k];
  }

  /** Inside a shared word a character means the same in both lines. */
  lemma SameMeaning(l1: string, p1: nat, l2: string, p2: nat, n: nat, k: nat, mode: Mode)
    requires SameWord(l1, p1, l2, p2, n) && k < n
    ensures AfterChar(l1, p1, p1 + k, mode) == AfterChar(l2, p2, p2 + k, mode)
    ensures k + 1 < n ==> IsComment(l1, p1 + k, mode) == IsComment(l2, p2 + k, mode)
    ensures k + 1 == n && (p2 + n == |l2| || l2[p2 + n] == ' ') ==> !IsComment(l2, p2 + k, mode)
  {
    SameCharacter(l1, p1, l2, p2, n, k);
    if k > 0 { SameCharacter(l1, p1, l2, p2, n, k - 1); }
    if k + 1 < n { SameCharacter(l1, p1, l2, p2, n, k + 1); }
  }

  /** A word scans the same way inside another line, if it is followed there by a space or by the end. */
  lemma {:induction false} ScanLocal(l1: string, p1: nat, l2: string, p2: nat, n: nat, k: nat, mode: Mode)
    requires SameWord(l1, p1, l2, p2, n) && k <= n
    requires ScanWord(l1, p1, p1 + k, mode).end == p1 + n
    requires p2 + n == |l2| || (l2[p2 + n] == ' ' && p1 + n < |l1|)
    ensures var s := ScanWord(l2, p2, p2 + k, mode);
            s.end == p2 + n && (s.end < |l2| ==> s.stop == AtSpace && s.inBase64 == IsBase64Word(l1[p1..p1 + n]))
    decreases n - k
  {
    if k < n {
      SameCharacter(l1, p1, l2, p2, n, k);
      SameMeaning(l1, p1, l2, p2, n, k, mode);
      ScanLocal(l1, p1, l2, p2, n, k + 1, if l1[p1 + k] == ' ' then mode else AfterChar(l1, p1, p1 + k, mode));
    }
  }

  lemma JoinMany(w: string, rest: seq<string>)
    requires rest != []
    ensures Join([w] + rest) == w + " " + Join(rest)
    ensures rest[0] != "" ==> Join(rest) != "" && Join(rest)[0] == rest[0][0]
  {
    assert ([w] + rest)[1..] == rest;
  }

  /** The first word found from a word start begins with the character there. */
  lemma FirstWord(line: string, p: nat, mode: Mode)
    requires p <= |line| && !mode.inString && (p < |line| ==> line[p] != ' ')
    ensures var words := Slices(line, SpansFrom(line, p, p, mode));
            words != [] ==> p < |line| && words[0] != "" && words[0][0] == line[p] && line[p] != ' '
  {
    SpansOrdered(line, p, mode);
  }

  /** Tokenizing the joined words, placed after any prefix, gives the words back. */
  lemma {:induction false} JoinedSpans(line: string, p: nat, base64: bool, pre: string)
    requires p <= |line| && AtWordStart(line, p)
    requires pre == "" || pre[|pre| - 1] == ' '
    ensures var mode := Mode(false, base64);
            var words := Slices(line, SpansFrom(line, p, p, mode));
            var line2 := pre + Join(words);
            Slices(line2, SpansFrom(line2, |pre|, |pre|, mode)) == words
    decreases |line| - p
  {
    var mode := Mode(false, base64);
    var words := Slices(line, SpansFrom(line, p, p, mode));
    var line2 := pre + Join(words);
    if words == [] {
      assert line2 == pre;
    } else if |words| == 1 {
      JoinedOne(line, p, mode, pre);
    } else {
      FirstWord(line, p, mode);
      WordThenRest(line, p, mode);
      var s := ScanWord(line, p, p, mode);
      var w, next, mode2 := line[p..s.end], SkipSpaces(line, s.end), Mode(false, s.inBase64);
      var rest := Slices(line, SpansFrom(line, next, next, mode2));
      FirstWord(line, next, mode2);
      JoinedSpans(line, next, s.inBase64, pre + w + " ");
      JoinedCons(line, p, mode, pre, w, rest);
    }
  }

  /** The induction step of `JoinedSpans`: one word in front of a rest that tokenizes back. */
  lemma JoinedStep(l1: string, p1: nat, mode: Mode, l2: string, p2: nat, w: string, rest: seq<string>)
    requires p1 < |l1| && !mode.inString && (p1 == 0 || l1[p1 - 1] == ' ')
    requires var s := ScanWord(l1, p1, p1, mode); s.stop.AtSpace? && w == l1[p1..s.end]
    requires WordBefore(l2, p2, w)
    requires var q, mode2 := p2 + |w| + 1, Mode(false, ScanWord(l1, p1, p1, mode).inBase64);
             Slices(l2, SpansFrom(l2, q, q, mode2)) == rest
    ensures Slices(l2, SpansFrom(l2, p2, p2, mode)) == [w] + rest
  {
    MoreWords(l1, p1, l2, p2, mode, w);
    Prepend(l2, p2, p2 + |w| + 1, w, rest, mode, Mode(false, ScanWord(l1, p1, p1, mode).inBase64));
  }

  lemma JoinedCons(line: string, p: nat, mode: Mode, pre: string, w: string, rest: seq<string>)
    requires p < |line| && !mode.inString && (p == 0 || line[p - 1] == ' ') && (pre == "" || pre[|pre| - 1] == ' ')
    requires var s := ScanWord(line, p, p, mode); s.stop.AtSpace? && w == line[p..s.end]
    requires rest != [] && rest[0] != "" && rest[0][0] != ' '
    requires var pre2 := pre + w + " ";
             var line2 := pre2 + Join(rest);
             Slices(line2, SpansFrom(line2, |pre2|, |pre2|, Mode(false, ScanWord(line, p, p, mode).inBase64))) == rest
    ensures var line2 := pre + Join([w] + rest);
            Slices(line2, SpansFrom(line2, |pre|, |pre|, mode)) == [w] + rest
  {
    hide SpansFrom, ScanWord, Slices;
    var line2, q := pre + Join([w] + rest), |pre| + |w| + 1;
    JoinLayout(pre, w, rest);
    assert |pre + w + " "| == q;
    assert Slices(line2, SpansFrom(line2, q, q, Mode(false, ScanWord(line, p, p, mode).inBase64))) == rest;
    JoinedStep(line, p, mode, line2, |pre|, w, rest);
  }

  /** The line has `w` at the word start `p`, then one space, then another word. */
  predicate WordBefore(line: string, p: nat, w: string) {
    && p + |w| + 1 < |line| && line[p..p + |w|] == w && line[p + |w|] == ' ' && line[p + |w| + 1] != ' '
    && (p == 0 || line[p - 1] == ' ')
  }

  lemma Prepend(line: string, p: nat, q: nat, w: string, rest: seq<string>, mode: Mode, mode2: Mode)
    requires p + |w| < q <= |line| && line[p..p + |w|] == w
    requires SpansFrom(line, p, p, mode) == [Span(p, p + |w|)] + SpansFrom(line, q, q, mode2)
    requires Slices(line, SpansFrom(line, q, q, mode2)) == rest
    ensures Slices(line, SpansFrom(line, p, p, mode)) == [w] + rest
  {
    SlicesCons(line, Span(p, p + |w|), SpansFrom(line, q, q, mode2));
  }

  lemma JoinLayout(pre: string, w: string, rest: seq<string>)
    requires rest != [] && rest[0] != "" && rest[0][0] != ' ' && (pre == "" || pre[|pre| - 1] == ' ')
    ensures pre + Join([w] + rest) == pre + w + " " + Join(rest)
    ensures WordBefore(pre + Join([w] + rest), |pre|, w)
  {
    JoinMany(w, rest);
  }

  lemma JoinedOne(line: string, p: nat, mode: Mode, pre: string)
    requires p < |line| && !mode.inString && AtWordStart(line, p) && (pre == "" || pre[|pre| - 1] == ' ')
    requires |SpansFrom(line, p, p, mode)| == 1
    ensures var words := Slices(line, SpansFrom(line, p, p, mode));
            var line2 := pre + Join(words);
            Slices(line2, SpansFrom(line2, |pre|, |pre|, mode)) == words
  {
    OneWord(line, p, mode);
    var w := line[p..ScanWord(line, p, p, mode).end];
    assert (pre + w)[|pre|..] == w;
    LastWord(line, p, pre + w, |pre|, |w|, mode);
  }

  lemma OneWord(line: string, p: nat, mode: Mode)
    requires p < |line| && !mode.inString && line[p] != ' '
    requires |SpansFrom(line, p, p, mode)| == 1
    ensures var s := ScanWord(line, p, p, mode);
            s.end > p && Slices(line, SpansFrom(line, p, p, mode)) == [line[p..s.end]]
  {
    SlicesCons(line, SpansFrom(line, p, p, mode)[0], []);
  }

  lemma WordThenRest(line: string, p: nat, mode: Mode)
    requires p < |line| && !mode.inString && line[p] != ' '
    requires |SpansFrom(line, p, p, mode)| > 1
    ensures var s := ScanWord(line, p, p, mode);
            && s.stop.AtSpace? && s.end > p
            && var next := SkipSpaces(line, s.end);
            && p < next && line[next - 1] == ' '
            && var rest := Slices(line, SpansFrom(line, next, next, Mode(false, s.inBase64)));
            && rest != [] && Slices(line, SpansFrom(line, p, p, mode)) == [line[p..s.end]] + rest
  {
    var s := ScanWord(line, p, p, mode);
    var next := SkipSpaces(line, s.end);
    SkippedToSpace(line, s.end);
    SlicesCons(line, Span(p, s.end), SpansFrom(line, next, next, Mode(false, s.inBase64)));
  }

  lemma {:induction false} SkippedToSpace(line: string, i: nat)
    requires i < |line| && line[i] == ' '
    ensures var j := SkipSpaces(line, i); i < j && line[j - 1] == ' '
    decreases |line| - i
  {
    if i + 1 < |line| && line[i + 1] == ' ' {
      SkippedToSpace(line, i + 1);
    }
  }

  lemma LastWord(l1: string, p1: nat, l2: string, p2: nat, n: nat, mode: Mode)
    requires p2 + n == |l2| && n > 0
    requires SameWord(l1, p1, l2, p2, n)
    requires ScanWord(l1, p1, p1, mode).end == p1 + n
    ensures Slices(l2, SpansFrom(l2, p2, p2, mode)) == [l2[p2..]]
  {
    ScanLocal(l1, p1, l2, p2, n, 0, mode);
    LastSpan(l2, p2, mode);
  }

  lemma LastSpan(line: string, p: nat, mode: Mode)
    requires p < |line| && ScanWord(line, p, p, mode).end == |line|
    ensures Slices(line, SpansFrom(line, p, p, mode)) == [line[p..]]
  {
    assert SpansFrom(line, p, p, mode) == [Span(p, |line|)];
    SlicesCons(line, Span(p, |line|), []);
    assert line[p..|line|] == line[p..];
  }

  lemma MoreWords(l1: string, p1: nat, l2: string, p2: nat, mode: Mode, w: string)
    requires p1 < |l1| && !mode.inString
    requires (p1 == 0 || l1[p1 - 1] == ' ')
    requires var s := ScanWord(l1, p1, p1, mode); s.stop.AtSpace? && w == l1[p1..s.end]
    requires WordBefore(l2, p2, w)
    ensures var q := p2 + |w| + 1;
            SpansFrom(l2, p2, p2, mode)
            == [Span(p2, p2 + |w|)] + SpansFrom(l2, q, q, Mode(false, ScanWord(l1, p1, p1, mode).inBase64))
  {
    hide ScanWord;
    ScanLocal(l1, p1, l2, p2, |w|, 0, mode);
    AtSpaceMode(l1, p1, p1, mode);
    var q := p2 + |w| + 1;
    assert SkipSpaces(l2, q) == q;
    assert SkipSpaces(l2, p2 + |w|) == q;
  }

  lemma {:induction false} AtSpaceMode(line: string, start: nat, i: nat, mode: Mode)
    requires start <= i <= |line| && ScanWord(line, start, i, mode).stop.AtSpace?
    ensures var s := ScanWord(line, start, i, mode); s.inBase64 == IsBase64Word(line[start..s.end])
    decreases |line| - i
  {
    if line[i] == ' ' {
      if mode.inString {
        AtSpaceMode(line, start, i + 1, mode);
      }
    } else {
      AtSpaceMode(line, start, i + 1, AfterChar(line, start, i, mode));
    }
  }

  // ---- Trimming ----

  lemma {:induction false} TrimEndEnds(s: string)
    ensures TrimEnd(s) <= s
    ensures TrimEnd(s) != "" ==> !IsSpace(TrimEnd(s)[|TrimEnd(s)| - 1])
    decreases |s|
  {
    if s != [] && IsSpace(s[|s| - 1]) {
      TrimEndEnds(s[..|s| - 1]);
    }
  }

  lemma {:induction false} TrimStartStarts(s: string)
    ensures |TrimStart(s)| <= |s| && (|TrimStart(s)| == |s| ==> TrimStart(s) == s)
    ensures TrimStart(s) != "" ==> !IsSpace(TrimStart(s)[0])
    ensures forall c :: c in TrimStart(s) ==> c in s
  {
    if s != [] && IsSpace(s[0]) {
      TrimStartStarts(s[1..]);
    }
  }

  lemma TrimEnds(s: string)
    ensures var t := Trim(s); |t| <= |s| && (t != "" ==> !IsSpace(t[0]) && !IsSpace(t[|t| - 1]))
    ensures |Trim(s)| == |s| ==> Trim(s) == s
    ensures forall c :: c in Trim(s) ==> c in s
  {
    TrimStartStarts(s);
    TrimEndEnds(TrimStart(s));
    assert forall k :: 0 <= k < |Trim(s)| ==> Trim(s)[k] == TrimStart(s)[k];
  }

  /** Every word of a line is a non-empty slice of the trimmed line, and the slices are in order and apart. */
  lemma WordsAreOrderedSlices(line: string)
    ensures OrderedSpans(Trim(line), 0, Spans(line))
    ensures |Words(line)| == |Spans(line)|
    ensures forall k :: 0 <= k < |Words(line)| ==>
              Words(line)[k] != "" && Words(line)[k] == Trim(line)[Spans(line)[k].from..Spans(line)[k].to]
  {
    TrimEnds(line);
    SpansOrdered(Trim(line), 0, Mode(false, false));
    forall k | 0 <= k < |Words(line)|
      ensures Words(line)[k] == Slice(Trim(line), Spans(line)[k])
    {
      SliceAt(Trim(line), Spans(line), k);
    }
  }

  lemma {:induction false} SliceAt(line: string, spans: seq<Span>, k: nat)
    requires k < |spans|
    ensures Slices(line, spans)[k] == Slice(line, spans[k])
  {
    if k > 0 {
      SliceAt(line, spans[1..], k - 1);
    }
  }

  /** Joining never makes the words longer than the text they came from. */
  lemma {:induction false} JoinLength(line: string, p: nat, mode: Mode)
    requires p <= |line| && !mode.inString
    requires p < |line| ==> line[p] != ' '
    ensures |Join(Slices(line, SpansFrom(line, p, p, mode)))| <= |line| - p
    decreases |line| - p
  {
    var spans := SpansFrom(line, p, p, mode);
    if spans != [] {
      SpansOrdered(line, p, mode);
      var s := ScanWord(line, p, p, mode);
      if s.stop.AtSpace? {
        var next := SkipSpaces(line, s.end);
        SkippedToSpace(line, s.end);
        JoinLength(line, next, Mode(false, s.inBase64));
        SlicesCons(line, Span(p, s.end), SpansFrom(line, next, next, Mode(false, s.inBase64)));
        assert Slices(line, spans)[1..] == Slices(line, SpansFrom(line, next, next, Mode(false, s.inBase64)));
      }
    }
  }

  predicate NoEmptyWord(words: seq<string>) {
    forall k :: 0 <= k < |words| ==> words[k] != ""
  }

  lemma {:induction false} JoinEnds(words: seq<string>)
    requires words != [] && NoEmptyWord(words)
    ensures var j, last := Join(words), words[|words| - 1];
            j != "" && j[0] == words[0][0] && j[|j| - 1] == last[|last| - 1]
  {
    if |words| > 1 {
      JoinEnds(words[1..]);
    }
  }

  lemma TrimKeeps(s: string)
    ensures Trim(s) == s <==> s == "" || (!IsSpace(s[0]) && !IsSpace(s[|s| - 1]))
  {
    TrimEnds(s);
  }

  predicate LastIsSpace(u: string) {
    u != "" && IsSpace(u[|u| - 1])
  }

  /** Whether the last word ends in white space. */
  predicate EndsInSpace(words: seq<string>) {
    words != [] && LastIsSpace(words[|words| - 1])
  }

  /** The joined words start where the trimmed line starts and end where the last word ends. */
  lemma JoinedEnds(line: string)
    requires Words(line) != []
    ensures NoEmptyWord(Words(line))
    ensures var j, words := Join(Words(line)), Words(line);
            && j != "" && !IsSpace(j[0])
            && (IsSpace(j[|j| - 1]) <==> EndsInSpace(words))
  {
    var words := Words(line);
    TrimEnds(line);
    WordsAreOrderedSlices(line);
    JoinEnds(words);
    FirstSpanAtZero(Trim(line));
    assert words[0][0] == Trim(line)[0];
  }

  lemma NormalFormHolds(line: string)
    requires !EndsInSpace(Words(line))
    ensures Words(Join(Words(line))) == Words(line)
  {
    var words := Words(line);
    var joined := Join(words);
    TrimEnds(line);
    if words == [] {
      assert Trim(joined) == "";
    } else {
      JoinedEnds(line);
      TrimKeeps(joined);
      JoinedSpans(Trim(line), 0, false, "");
      assert "" + joined == joined;
    }
  }

  lemma NormalFormFails(line: string)
    requires EndsInSpace(Words(line))
    ensures Words(Join(Words(line))) != Words(line)
  {
    var joined := Join(Words(line));
    JoinedEnds(line);
    TrimKeeps(joined);
    TrimEnds(joined);
    JoinLength(Trim(joined), 0, Mode(false, false));
    assert |Trim(joined)| < |joined|;
  }

  // ---- When a line leaves a word that ends in white space ----

  /** Where the scan from a word's start ends: at its comment, or at the end of the line. */
  function ScanEnd(line: string, p: nat, mode: Mode): (e: nat)
    requires p <= |line|
    ensures p <= e <= |line|
    decreases |line| - p
  {
    if p == |line| then p
    else
      var s := ScanWord(line, p, p, mode);
      match s.stop
      case AtEnd => |line|
      case AtComment => s.end
      case AtSpace => ScanEnd(line, SkipSpaces(line, s.end), Mode(false, s.inBase64))
  }

  function DropBlanks(s: string): string {
    if s != "" && s[|s| - 1] == ' ' then DropBlanks(s[..|s| - 1]) else s
  }

  /** The part of the trimmed line before its comment, without the blanks in front of the comment. */
  function BeforeComment(line: string): string {
    DropBlanks(Trim(line)[..ScanEnd(Trim(line), 0, Mode(false, false))])
  }

  /** The last character that is not a blank before the line's comment is other white space, such as a tab. */
  predicate SpaceBeforeComment(line: string) {
    LastIsSpace(BeforeComment(line))
  }

  lemma {:induction false} SkipsOnlyBlanks(line: string, i: nat)
    requires i <= |line|
    ensures forall k :: i <= k < SkipSpaces(line, i) ==> line[k] == ' '
    decreases |line| - i
  {
    if i < |line| && line[i] == ' ' {
      SkipsOnlyBlanks(line, i + 1);
    }
  }

  /** Between the last word and the end of the scan there are only blanks. */
  lemma {:induction false} BlanksAfterLastWord(line: string, p: nat, mode: Mode)
    requires p <= |line|
    ensures var spans, e := SpansFrom(line, p, p, mode), ScanEnd(line, p, mode);
            if spans == [] then e == p
            else spans[|spans| - 1].to <= e && forall k :: spans[|spans| - 1].to <= k < e ==> line[k] == ' '
    decreases |line| - p
  {
    if p < |line| {
      var s := ScanWord(line, p, p, mode);
      if s.stop.AtSpace? {
        SkipsOnlyBlanks(line, s.end);
        BlanksAfterLastWord(line, SkipSpaces(line, s.end), Mode(false, s.inBase64));
      }
    }
  }

  lemma {:induction false} DropBlanksTo(s: string, n: nat)
    requires n <= |s| && (n > 0 ==> s[n - 1] != ' ') && forall k :: n <= k < |s| ==> s[k] == ' '
    ensures DropBlanks(s) == s[..n]
    decreases |s|
  {
    if n < |s| {
      var front := s[..|s| - 1];
      DropBlanksTo(front, n);
      assert front[..n] == s[..n];
    } else {
      assert s[..n] == s;
    }
  }

  /** What is left before the comment ends where the last word ends. */
  lemma BeforeCommentIs(t: string)
    requires t != "" ==> t[0] != ' ' && t[|t| - 1] != ' '
    ensures var spans, e := SpansFrom(t, 0, 0, Mode(false, false)), ScanEnd(t, 0, Mode(false, false));
            if spans == [] then DropBlanks(t[..e]) == ""
            else var n := spans[|spans| - 1].to; 1 <= n <= |t| && DropBlanks(t[..e]) == t[..n]
  {
    var spans, e := SpansFrom(t, 0, 0, Mode(false, false)), ScanEnd(t, 0, Mode(false, false));
    BlanksAfterLastWord(t, 0, Mode(false, false));
    if spans == [] {
      assert t[..e] == "";
    } else {
      var n := spans[|spans| - 1].to;
      LastWordNotSpace(t, 0, Mode(false, false));
      DropBlanksTo(t[..e], n);
      assert t[..e][..n] == t[..n];
    }
  }

  lemma LastWordEnds(t: string, spans: seq<Span>)
    requires spans != [] && OrderedSpans(t, 0, spans)
    ensures EndsInSpace(Slices(t, spans)) <==> IsSpace(t[spans[|spans| - 1].to - 1])
  {
    LastSlice(t, spans);
  }

  lemma PrefixLast(t: string, n: nat)
    requires 1 <= n <= |t|
    ensures LastIsSpace(t[..n]) <==> IsSpace(t[n - 1])
  {
  }

  lemma SpansEndInSpace(t: string, spans: seq<Span>, u: string)
    requires OrderedSpans(t, 0, spans)
    requires if spans == [] then u == "" else 1 <= spans[|spans| - 1].to <= |t| && u == t[..spans[|spans| - 1].to]
    ensures EndsInSpace(Slices(t, spans)) <==> LastIsSpace(u)
  {
    if spans != [] {
      LastWordEnds(t, spans);
      PrefixLast(t, spans[|spans| - 1].to);
    }
  }

  /** The last word ends in white space exactly when the line has such white space before its comment. */
  lemma EndsInSpaceIff(line: string)
    ensures EndsInSpace(Words(line)) <==> SpaceBeforeComment(line)
  {
    TrimEnds(line);
    BeforeCommentIs(Trim(line));
    SpansOrdered(Trim(line), 0, Mode(false, false));
    SpansEndInSpace(Trim(line), Spans(line), BeforeComment(line));
  }

  /** Normal form, for every line: joining the words with single spaces and tokenizing again gives the same words exactly
      when the last character before the line's comment that is not a blank is not other white space. */
  lemma NormalForm(line: string)
    ensures Words(Join(Words(line))) == Words(line) <==> !SpaceBeforeComment(line)
  {
    EndsInSpaceIff(line);
    if EndsInSpace(Words(line)) {
      NormalFormFails(line);
    } else {
      NormalFormHolds(line);
    }
  }

  /** Without a comment there is nothing to leave behind, whatever white space the line has. */
  lemma NormalFormWithoutComment(line: string)
    requires ScanEnd(Trim(line), 0, Mode(false, false)) == |Trim(line)|
    ensures Words(Join(Words(line))) == Words(line)
  {
    var t := Trim(line);
    NormalForm(line);
    TrimEnds(line);
    assert t[..|t|] == t;
    DropBlanksTo(t, |t|);
    assert t[..|t|] == t;
  }

  /** A line that fails: a tab directly before the comment stays in the word, and is trimmed the next time. */
  lemma NormalFormFailsAtTab()
    ensures Words("a\t//") == ["a\t"]
    ensures Words(Join(Words("a\t//"))) != Words("a\t//")
  {
    var line, mode := "a\t//", Mode(false, false);
    assert TrimStart(line) == line && TrimEnd(line) == line;
    assert ScanWord(line, 0, 2, mode) == Scan(2, AtComment, false);
    assert ScanWord(line, 0, 1, mode) == Scan(2, AtComment, false);
    assert ScanWord(line, 0, 0, mode) == Scan(2, AtComment, false);
    assert SpansFrom(line, 0, 0, mode) == [Span(0, 2)];
    SlicesCons(line, Span(0, 2), []);
    assert line[0..2] == "a\t";
    NormalFormFails(line);
  }

  lemma FirstSpanAtZero(t: string)
    ensures var spans := SpansFrom(t, 0, 0, Mode(false, false)); spans != [] ==> spans[0].from == 0
  {
  }

  /** On lines whose only white space is the space character the normal form always holds. */
  lemma NormalFormSpacesOnly(line: string)
    requires forall c :: c in line && IsSpace(c) ==> c == ' '
    ensures Words(Join(Words(line))) == Words(line)
  {
    NormalForm(line);
    EndsInSpaceIff(line);
    if EndsInSpace(Words(line)) {
      LastWordOfTrimmed(line);
    }
  }

  lemma LastWordOfTrimmed(line: string)
    requires Words(line) != []
    ensures var words := Words(line);
            var w := words[|words| - 1];
            w != "" && w[|w| - 1] != ' ' && w[|w| - 1] in line
  {
    hide SpansFrom, ScanWord;
    var t, spans := Trim(line), Spans(line);
    TrimEnds(line);
    SpansOrdered(t, 0, Mode(false, false));
    LastWordNotSpace(t, 0, Mode(false, false));
    LastSlice(t, spans);
  }

  lemma LastSlice(t: string, spans: seq<Span>)
    requires spans != [] && OrderedSpans(t, 0, spans)
    ensures var words := Slices(t, spans);
            var w := words[|words| - 1];
            w != "" && w[|w| - 1] == t[spans[|spans| - 1].to - 1] && w[|w| - 1] in t
  {
    var k := |spans| - 1;
    SliceAt(t, spans, k);
    assert t[spans[k].from..spans[k].to][spans[k].to - 1 - spans[k].from] == t[spans[k].to - 1];
  }

  /** The last word ends where the line ends, or just before a space or a comment that no string contains. */
  lemma {:induction false} LastWordNotSpace(line: string, p: nat, mode: Mode)
    requires p <= |line| && !mode.inString && (p < |line| ==> line[p] != ' ')
    requires line != "" ==> line[|line| - 1] != ' '
    ensures var spans := SpansFrom(line, p, p, mode);
            spans != [] ==> spans[|spans| - 1].to >= 1 && spans[|spans| - 1].to <= |line| && line[spans[|spans| - 1].to - 1] != ' '
    decreases |line| - p
  {
    if p < |line| {
      var s := ScanWord(line, p, p, mode);
      if !s.stop.AtEnd? && s.end > p {
        WordEndsNonSpace(line, p, p, mode);
      }
      if s.stop.AtSpace? {
        var next := SkipSpaces(line, s.end);
        LastWordNotSpace(line, next, Mode(false, s.inBase64));
      }
    }
  }

  lemma {:induction false} WordEndsNonSpace(line: string, start: nat, i: nat, mode: Mode)
    requires start <= i <= |line| && !ScanWord(line, start, i, mode).stop.AtEnd?
    requires i > start && !mode.inString ==> line[i - 1] != ' '
    ensures var s := ScanWord(line, start, i, mode); s.end > start ==> line[s.end - 1] != ' '
    decreases |line| - i
  {
    if line[i] == ' ' {
      if mode.inString {
        WordEndsNonSpace(line, start, i + 1, mode);
      }
    } else if !IsComment(line, i, mode) {
      WordEndsNonSpace(line, start, i + 1, AfterChar(line, start, i, mode));
    }
  }
}
