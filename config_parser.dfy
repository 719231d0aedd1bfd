// The configuration parser: a state machine driven by a stack of expected
// lexemes. Each token either is a delimiter (`:` `"` `{` `}` `,` blank),
// which moves the machine, or is text, which is appended to the pending
// value. Names wait on a stack of their own, and the arrays being filled
// are a stack of paths into the configuration tree.
module ConfigParser {
  import opened Wrappers
  import opened ConfigReflection
  import opened ConfigLexemes

  /** How a step can fail: `ConfigSyntax` on a syntax error, the
    * empty-lexeme-stack guard, a `top()` or `pop()` on an empty std::stack
    * (undefined behaviour), and a parse of no tokens at all. */
  datatype Fault = SyntaxError | EmptyLexemes | Undefined | NoInput

  /** The parser's fields: the expected-lexeme stack, the name stack, the
    * stack of arrays being filled (as paths from the root of the
    * configuration), the pending text, and the configuration itself. */
  datatype ParserState = ParserState(
    expected: seq<Expect>,
    names: seq<string>,
    subs: seq<seq<string>>,
    pending: string,
    config: Variable)

  datatype Stepped = Next(state: ParserState) | Thrown(fault: Fault)

  function Top<T>(s: seq<T>): T
    requires s != []
  {
    s[|s| - 1]
  }

  function Pop<T>(s: seq<T>): seq<T>
    requires s != []
  {
    s[..|s| - 1]
  }

  /** `if (!s.empty()) s.pop()`. */
  function PopIfAny<T>(s: seq<T>): seq<T> {
    if s == [] then s else Pop(s)
  }

  /** `token.c_str()[0]`: the NUL terminator for an empty token. */
  function FirstChar(token: string): char {
    if token == [] then '\0' else token[0]
  }

  predicate IsBlank(c: char) {
    c == '\t' || c == ' ' || c == '\n'
  }

  predicate IsDelimiter(c: char) {
    c == ':' || c == '"' || c == '{' || c == '}' || c == ',' || IsBlank(c)
  }

  function Append(p: ParserState, token: string): Stepped {
    Next(p.(pending := p.pending + token))
  }

  /** `saveValue()`: store the classified pending text under the current
    * name in the current array; nothing is stored when no lexeme class
    * matches. */
  function SavedValue(p: ParserState): (r: Stepped)
    requires Ordered(p.config)
    ensures r.Next? ==> Ordered(r.state.config)
  {
    match Classify(p.pending)
    case None => Next(p)
    case Some(v) =>
      if p.names == [] || p.subs == [] then Thrown(Undefined)
      else Next(p.(config := SetAt(p.config, Top(p.subs), Top(p.names), v)))
  }

  /** Whether `saveValue()` stores (and so returns true). */
  predicate Stores(p: ParserState) {
    Classify(p.pending).Some?
  }

  /** A ':' token.  When no lexeme expects it, the source's diagnostic
    * prints `lastname.top()` before raising the syntax error; this is the
    * corrected step, which raises the syntax error whether or not a name
    * is pending (`OnColonAsWritten` is the step as written). */
  function OnColon(p: ParserState, token: string): (r: Stepped)
    ensures r.Next? ==> r.state.config == p.config && r.state.subs == p.subs
    ensures r.Thrown? ==> (r.fault == EmptyLexemes <==> p.expected == [])
    ensures r.Thrown? ==> r.fault == EmptyLexemes || r.fault == SyntaxError
  {
    var e := p.expected;
    if e == [] then Thrown(EmptyLexemes)
    else match Top(e)
      case COLON =>
        Next(p.(expected := Pop(e) + [VALUE], names := p.names + [p.pending], pending := ""))
      case NAME =>
        if IsName(p.pending) then
          Next(p.(expected := Pop(e) + [VALUE], names := p.names + [p.pending], pending := ""))
        else Thrown(SyntaxError)
      case VALUE => Next(p)
      case QUOTE => Append(p, token)
      case _ => Thrown(SyntaxError)
  }

  /** A ':' token as written: the default branch reads the top of the
    * name stack, which is undefined when the stack is empty. */
  function OnColonAsWritten(p: ParserState, token: string): (r: Stepped)
    ensures r == Thrown(Undefined) <==>
      p.expected != [] && p.names == [] &&
      (Top(p.expected) == MPB || Top(p.expected) == MPE || Top(p.expected) == INPUT_END)
    ensures r != Thrown(Undefined) ==> r == OnColon(p, token)
  {
    var e := p.expected;
    if e != [] && (Top(e) == MPB || Top(e) == MPE || Top(e) == INPUT_END) && p.names == []
    then Thrown(Undefined)
    else OnColon(p, token)
  }

  /** A '"' token. */
  function OnQuote(p: ParserState, token: string): (r: Stepped)
    requires Ordered(p.config)
    ensures r.Next? ==> Ordered(r.state.config)
  {
    var e := p.expected;
    if e == [] then Thrown(EmptyLexemes)
    else match Top(e)
      case QUOTE =>
        if |e| < 2 || p.names == [] || p.subs == [] then Thrown(Undefined)
        else Next(p.(expected := e[..|e| - 2],
                     config := SetAt(p.config, Top(p.subs), Top(p.names), StringVar(p.pending)),
                     pending := "",
                     names := Pop(p.names)))
      case VALUE => Next(p.(expected := e + [QUOTE], pending := ""))
      case _ => Thrown(SyntaxError)
  }

  /** A '{' token. */
  function OnOpen(p: ParserState, token: string): (r: Stepped)
    requires Ordered(p.config)
    ensures r.Next? ==> Ordered(r.state.config)
  {
    var e := p.expected;
    if e == [] then Thrown(EmptyLexemes)
    else match Top(e)
      case MPB => Next(p.(expected := Pop(e) + [MPE, NAME]))
      case VALUE =>
        if p.names == [] || p.subs == [] then Thrown(Undefined)
        else
          var at, name := Top(p.subs), Top(p.names);
          Next(p.(expected := e + [MPE, NAME],
                  config := SetAt(p.config, at, name, EmptyArray),
                  subs := p.subs + [at + [name]]))
      case QUOTE => Append(p, token)
      case _ => Thrown(SyntaxError)
  }

  /** A '}' token. */
  function OnClose(p: ParserState, token: string): (r: Stepped)
    requires Ordered(p.config)
    ensures r.Next? ==> Ordered(r.state.config)
  {
    var e := p.expected;
    if e == [] then Thrown(EmptyLexemes)
    else match Top(e)
      case MPE => Next(p.(expected := Pop(e), subs := PopIfAny(p.subs)))
      case VALUE =>
        (match SavedValue(p)
         case Thrown(f) => Thrown(f)
         case Next(q) =>
           if |e| < 2 then Thrown(Undefined)
           else Next(q.(expected := e[..|e| - 2], subs := PopIfAny(q.subs),
                        pending := "", names := PopIfAny(q.names))))
      case QUOTE => Append(p, token)
      case _ => Thrown(SyntaxError)
  }

  /** `OnClose` when a value is being read: the value is saved first. */
  lemma CloseAfterValue(p: ParserState, token: string)
    requires Ordered(p.config) && p.expected != [] && Top(p.expected) == VALUE
    ensures SavedValue(p).Thrown? ==> OnClose(p, token) == SavedValue(p)
    ensures SavedValue(p).Next? ==>
      var q := SavedValue(p).state;
      && q.expected == p.expected
      && OnClose(p, token) ==
           if |p.expected| < 2 then Thrown(Undefined)
           else Next(q.(expected := p.expected[..|p.expected| - 2], subs := PopIfAny(q.subs),
                        pending := "", names := PopIfAny(q.names)))
  {
  }

  /** A ',' token. */
  function OnComma(p: ParserState, token: string): (r: Stepped)
    requires Ordered(p.config)
    ensures r.Next? ==> Ordered(r.state.config)
  {
    var e := p.expected;
    if e == [] then Thrown(EmptyLexemes)
    else match Top(e)
      case VALUE =>
        (match SavedValue(p)
         case Thrown(f) => Thrown(f)
         case Next(q) => Next(q.(expected := Pop(e) + [NAME], pending := "")))
      case QUOTE => Append(p, token)
      case MPE => Next(p.(expected := e + [NAME]))
      case _ => Thrown(SyntaxError)
  }

  /** A tab, space or newline token; this case does not guard against an
    * empty lexeme stack. */
  function OnBlank(p: ParserState, token: string): (r: Stepped)
    requires Ordered(p.config)
    ensures r.Next? ==> Ordered(r.state.config)
  {
    var e := p.expected;
    if e == [] then Thrown(Undefined)
    else match Top(e)
      case NAME =>
        if p.pending == [] then Next(p)
        else if IsName(p.pending) then
          Next(p.(expected := Pop(e) + [VALUE], names := p.names + [p.pending], pending := ""))
        else Thrown(SyntaxError)
      case VALUE =>
        (match SavedValue(p)
         case Thrown(f) => Thrown(f)
         case Next(q) =>
           if Stores(p) then Next(q.(expected := Pop(e), pending := "")) else Next(q))
      case QUOTE => Append(p, token)
      case _ => Next(p)
  }

  /** `Config::parser(token)`: one step of the machine. */
  function Step(p: ParserState, token: string): (r: Stepped)
    requires Ordered(p.config)
    ensures r.Next? ==> Ordered(r.state.config)
    ensures r.Thrown? ==> r.fault != NoInput
  {
    var c := FirstChar(token);
    if c == ':' then OnColon(p, token)
    else if c == '"' then OnQuote(p, token)
    else if c == '{' then OnOpen(p, token)
    else if c == '}' then OnClose(p, token)
    else if c == ',' then OnComma(p, token)
    else if IsBlank(c) then OnBlank(p, token)
    else Append(p, token)
  }

  /** The steps of the token loop, stopping at the first exception. */
  function Run(p: ParserState, tokens: seq<string>): (r: Stepped)
    requires Ordered(p.config)
    ensures r.Next? ==> Ordered(r.state.config)
    ensures r.Thrown? ==> r.fault != NoInput
    decreases |tokens|
  {
    if tokens == [] then Next(p)
    else match Step(p, tokens[0])
      case Thrown(f) => Thrown(f)
      case Next(q) => Run(q, tokens[1..])
  }

  /** The state a parse starts from: `INPUT_END` then `MPB` pushed, a fresh
    * "root" array in the configuration, and that array to be filled. */
  function Start(p: ParserState): (r: ParserState)
    requires p.config.ArrayVar? && Ordered(p.config)
    ensures Ordered(r.config)
  {
    p.(expected := p.expected + [INPUT_END, MPB],
       config := Expose(p.config, "root", EmptyArray),
       subs := p.subs + [["root"]])
  }

  /** `Config::parse()` over a token list. */
  function Parsed(p: ParserState, tokens: seq<string>): (r: Stepped)
    requires p.config.ArrayVar? && Ordered(p.config)
    ensures r == Thrown(NoInput) <==> tokens == []
    ensures r.Next? ==> r.state.subs == [] && Ordered(r.state.config)
  {
    if tokens == [] then Thrown(NoInput)
    else match Run(Start(p), tokens)
      case Thrown(f) => Thrown(f)
      case Next(q) =>
        if q.expected == [] then Thrown(Undefined)
        else if Top(q.expected) != INPUT_END then Thrown(SyntaxError)
        else Next(q.(expected := Pop(q.expected), subs := []))
  }

  // ---------------------------------------------------------------------
  // The shape of the parser's stacks
  // ---------------------------------------------------------------------

  /** Occurrences of `x` in `s`. */
  function Count<T(==)>(s: seq<T>, x: T): nat
    decreases |s|
  {
    if s == [] then 0 else Count(Pop(s), x) + (if Top(s) == x then 1 else 0)
  }

  lemma CountPush<T>(s: seq<T>, y: T, x: T)
    ensures Count(s + [y], x) == Count(s, x) + (if y == x then 1 else 0)
  {
    assert Pop(s + [y]) == s;
  }

  lemma {:induction false} CountPositive<T>(s: seq<T>, i: nat)
    requires i < |s|
    ensures Count(s, s[i]) >= 1
    decreases |s|
  {
    if i < |s| - 1 {
      assert Pop(s)[i] == s[i];
      CountPositive(Pop(s), i);
    }
  }

  /** What may sit at position `i` of the stack above `INPUT_END`: `MPE`
    * at even positions and `VALUE` at odd ones, except that the top may
    * be a `NAME` instead of a `VALUE`, or a `QUOTE` above a `VALUE`. */
  predicate Slot(b: seq<Expect>, i: nat)
    requires i < |b|
  {
    if i % 2 == 0 then b[i] == MPE || (b[i] == QUOTE && 0 < i && i == |b| - 1)
    else b[i] == VALUE || (b[i] == NAME && i == |b| - 1)
  }

  /** One `MPE VALUE` frame per enclosing array, and the innermost array's
    * frame on top. */
  predicate Frames(b: seq<Expect>) {
    forall i :: 0 <= i < |b| ==> Slot(b, i)
  }

  /** Each path extends the ones below it. */
  ghost predicate Nested(subs: seq<seq<string>>) {
    forall i, j :: 0 <= i < j < |subs| ==> IsPrefix(subs[i], subs[j])
  }

  /** Each path leads to an array of the configuration. */
  ghost predicate ArraysAt(subs: seq<seq<string>>, config: Variable) {
    forall i :: 0 <= i < |subs| ==> IsArrayAt(config, subs[i])
  }

  /** The arrays being filled: nested paths to arrays. */
  ghost predicate Chain(subs: seq<seq<string>>, config: Variable) {
    Nested(subs) && ArraysAt(subs, config)
  }

  /** The stacks of a parse in progress, given the expected-lexeme stack
    * and the heights of the name and array stacks: `INPUT_END` at the
    * bottom, then either the initial `MPB` or well-formed frames; one
    * array to fill per open `MPE`, and a name for every `VALUE`. */
  ghost predicate Stacks(e: seq<Expect>, names: nat, subs: nat) {
    |e| >= 1 && e[0] == INPUT_END &&
    var b := e[1..];
    if b == [MPB] then subs == 1
    else Frames(b) && subs == Count(b, MPE) && names >= Count(b, VALUE)
  }

  /** The configuration being filled: an ordered tree whose arrays being
    * filled are nested paths to arrays. */
  ghost predicate Tree(subs: seq<seq<string>>, config: Variable) {
    config.ArrayVar? && Ordered(config) && Chain(subs, config)
  }

  /** The invariant of a parse in progress. */
  ghost predicate Valid(p: ParserState) {
    Stacks(p.expected, |p.names|, |p.subs|) && Tree(p.subs, p.config)
  }

  /** What the top of the stack tells about what lies below it. */
  lemma StacksTop(e: seq<Expect>, names: nat, subs: nat)
    requires Stacks(e, names, subs) && e[1..] != [MPB] && |e| >= 2
    ensures var b := e[1..];
      b != [] && Top(b) == Top(e) &&
      Top(b) != COLON && Top(b) != MPB && Top(b) != INPUT_END &&
      (Top(b) == VALUE ==> |b| >= 2 && b[|b| - 2] == MPE && names > 0 && subs > 0) &&
      (Top(b) == NAME ==> |b| >= 2 && b[|b| - 2] == MPE) &&
      (Top(b) == QUOTE ==> |b| >= 3 && b[|b| - 2] == VALUE && names > 0 && subs > 0) &&
      (Top(b) == MPE ==> subs > 0 && |b| % 2 == 1) &&
      (Top(b) == VALUE || Top(b) == NAME ==> |b| % 2 == 0)
  {
    var b := e[1..];
    var k := |b| - 1;
    assert Slot(b, k);
    if k > 0 {
      assert Slot(b, k - 1);
    }
    assert Slot(b, 0);
    CountPositive(b, 0);
    if b[k] == VALUE {
      CountPositive(b, k);
    } else if b[k] == QUOTE {
      CountPositive(b, k - 1);
    }
  }

  /** The same, for a parser state. */
  lemma ValidTop(p: ParserState)
    requires Valid(p) && p.expected[1..] != [MPB] && |p.expected| >= 2
    ensures var e := p.expected;
      Top(e) != COLON && Top(e) != MPB && Top(e) != INPUT_END &&
      (Top(e) == VALUE ==> p.names != [] && p.subs != []) &&
      (Top(e) == QUOTE ==> |e| >= 4 && p.names != [] && p.subs != []) &&
      (Top(e) == MPE ==> p.subs != [])
  {
    StacksTop(p.expected, |p.names|, |p.subs|);
  }

  /** The innermost array being filled is an array of the configuration. */
  lemma TopIsArray(subs: seq<seq<string>>, config: Variable)
    requires ArraysAt(subs, config) && subs != []
    ensures IsArrayAt(config, Top(subs))
  {
    var i := |subs| - 1;
    assert IsArrayAt(config, subs[i]);
  }

  /** Every path of a nested stack is a prefix of the top one. */
  lemma NestedInTop(subs: seq<seq<string>>, i: nat)
    requires Nested(subs) && i < |subs|
    ensures IsPrefix(subs[i], Top(subs))
  {
    if i < |subs| - 1 {
      assert IsPrefix(subs[i], subs[|subs| - 1]);
    }
  }

  /** Storing into the innermost array keeps every array being filled. */
  lemma SetKeepsChain(subs: seq<seq<string>>, config: Variable, name: string, v: Variable)
    requires Chain(subs, config) && subs != [] && Ordered(config) && Ordered(v)
    ensures Chain(subs, SetAt(config, Top(subs), name, v))
  {
    var top := Top(subs);
    TopIsArray(subs, config);
    var config' := SetAt(config, top, name, v);
    forall i | 0 <= i < |subs| ensures IsArrayAt(config', subs[i]) {
      NestedInTop(subs, i);
      SetAtKeepsArrays(config, top, name, v, subs[i]);
    }
  }

  /** Prefixes of a path are prefixes of its extension. */
  lemma PrefixExtend(subs: seq<seq<string>>, name: string)
    requires subs != [] && Nested(subs)
    ensures Nested(subs + [Top(subs) + [name]])
  {
    var last := Top(subs) + [name];
    var subs' := subs + [last];
    forall i, j | 0 <= i < j < |subs'| ensures IsPrefix(subs'[i], subs'[j]) {
      if j == |subs| {
        var q := subs[i];
        assert IsPrefix(q, Top(subs));
        assert Top(subs)[..|q|] == last[..|q|];
      } else {
        assert subs'[i] == subs[i] && subs'[j] == subs[j];
      }
    }
  }

  /** A nested array stored under `name` and then entered. */
  lemma EnterKeepsChain(subs: seq<seq<string>>, config: Variable, name: string)
    requires Chain(subs, config) && subs != [] && Ordered(config)
    ensures Chain(subs + [Top(subs) + [name]], SetAt(config, Top(subs), name, EmptyArray))
  {
    var config' := SetAt(config, Top(subs), name, EmptyArray);
    var subs' := subs + [Top(subs) + [name]];
    SetKeepsChain(subs, config, name, EmptyArray);
    SetAtStores(config, Top(subs), name, EmptyArray);
    PrefixExtend(subs, name);
    forall i | 0 <= i < |subs'| ensures IsArrayAt(config', subs'[i]) {
      if i < |subs| {
        assert subs'[i] == subs[i];
      }
    }
  }

  /** Leaving the innermost array keeps the rest. */
  lemma LeaveKeepsChain(subs: seq<seq<string>>, config: Variable)
    requires Chain(subs, config)
    ensures Chain(PopIfAny(subs), config)
  {
  }

  /** `saveValue()` keeps the tree, given the current name and array. */
  lemma SavedKeepsTree(p: ParserState)
    requires Tree(p.subs, p.config) && p.names != [] && p.subs != []
    ensures SavedValue(p).Next?
    ensures SavedValue(p).state == p.(config := SavedValue(p).state.config)
    ensures Tree(p.subs, SavedValue(p).state.config)
  {
    if Stores(p) {
      SetKeepsChain(p.subs, p.config, Top(p.names), Classify(p.pending).value);
    }
  }

  // ---------------------------------------------------------------------
  // Each step keeps the invariant and never reaches undefined behaviour
  // ---------------------------------------------------------------------

  lemma FramesPrefix(b: seq<Expect>, n: nat)
    requires Frames(b) && n <= |b|
    ensures Frames(b[..n])
  {
    forall i | 0 <= i < n ensures Slot(b[..n], i) {
      assert Slot(b, i);
    }
  }

  lemma FramesPush(b: seq<Expect>, x: Expect)
    requires Frames(b) && (b == [] || Top(b) == MPE || Top(b) == VALUE)
    requires if |b| % 2 == 0 then x == MPE || (x == QUOTE && |b| > 0) else x == VALUE || x == NAME
    ensures Frames(b + [x])
  {
    forall i | 0 <= i < |b| + 1 ensures Slot(b + [x], i) {
      if i < |b| {
        assert Slot(b, i);
        assert (b + [x])[i] == b[i];
      }
    }
  }

  /** Popping two entries off a sequence. */
  lemma CountPopTwo<T>(s: seq<T>, x: T)
    requires |s| >= 2
    ensures Count(s, x) == Count(s[..|s| - 2], x) + (if s[|s| - 2] == x then 1 else 0)
                             + (if s[|s| - 1] == x then 1 else 0)
  {
    assert Pop(Pop(s)) == s[..|s| - 2];
  }

  /** A new frame `MPE NAME` on top of a `VALUE`. */
  lemma PushFrame(b: seq<Expect>)
    requires Frames(b) && b != [] && Top(b) == VALUE && |b| % 2 == 0
    ensures Frames(b + [MPE, NAME])
    ensures Count(b + [MPE, NAME], MPE) == Count(b, MPE) + 1
    ensures Count(b + [MPE, NAME], VALUE) == Count(b, VALUE)
  {
    FramesPush(b, MPE);
    FramesPush(b + [MPE], NAME);
    assert b + [MPE] + [NAME] == b + [MPE, NAME];
    CountPush(b, MPE, MPE);
    CountPush(b + [MPE], NAME, MPE);
    CountPush(b, MPE, VALUE);
    CountPush(b + [MPE], NAME, VALUE);
  }

  /** A name accepted: `NAME` replaced by `VALUE`, one more name. */
  lemma NameStacks(e: seq<Expect>, n: nat, s: nat)
    requires Stacks(e, n, s) && e[1..] != [MPB] && |e| >= 2 && Top(e) == NAME
    ensures Stacks(Pop(e) + [VALUE], n + 1, s)
  {
    StacksTop(e, n, s);
    var b := e[1..];
    var b' := Pop(b) + [VALUE];
    assert (Pop(e) + [VALUE])[1..] == b';
    FramesPrefix(b, |b| - 1);
    assert Pop(b) == b[..|b| - 1];
    FramesPush(Pop(b), VALUE);
    CountPush(Pop(b), VALUE, MPE);
    CountPush(Pop(b), VALUE, VALUE);
    CountPush(Pop(b), NAME, MPE);
    CountPush(Pop(b), NAME, VALUE);
    assert Pop(b) + [NAME] == b;
  }

  /** The closing '"': `QUOTE` and `VALUE` popped, one name fewer. */
  lemma QuoteCloseStacks(e: seq<Expect>, n: nat, s: nat)
    requires Stacks(e, n, s) && e[1..] != [MPB] && |e| >= 2 && Top(e) == QUOTE
    ensures |e| >= 4 && n > 0 && s > 0 && Stacks(e[..|e| - 2], n - 1, s)
  {
    StacksTop(e, n, s);
    var b := e[1..];
    var b' := b[..|b| - 2];
    assert e[..|e| - 2][1..] == b';
    FramesPrefix(b, |b| - 2);
    assert Slot(b, 0);
    assert b'[0] == MPE;
    CountPopTwo(b, MPE);
    CountPopTwo(b, VALUE);
  }

  /** The opening '"': `QUOTE` pushed above `VALUE`. */
  lemma QuoteOpenStacks(e: seq<Expect>, n: nat, s: nat)
    requires Stacks(e, n, s) && e[1..] != [MPB] && |e| >= 2 && Top(e) == VALUE
    ensures Stacks(e + [QUOTE], n, s)
  {
    StacksTop(e, n, s);
    var b := e[1..];
    assert (e + [QUOTE])[1..] == b + [QUOTE];
    FramesPush(b, QUOTE);
    CountPush(b, QUOTE, MPE);
    CountPush(b, QUOTE, VALUE);
  }

  /** The first '{': `MPB` replaced by `MPE NAME`. */
  lemma OpenFirstStacks(e: seq<Expect>, n: nat, s: nat)
    requires Stacks(e, n, s) && e[1..] == [MPB]
    ensures Stacks(Pop(e) + [MPE, NAME], n, s)
  {
    var b' := [MPE, NAME];
    assert e == [INPUT_END, MPB];
    assert (Pop(e) + [MPE, NAME])[1..] == b';
    assert Slot(b', 0) && Slot(b', 1);
    assert Pop(b') == [MPE] && Pop([MPE]) == [];
  }

  /** A nested '{': `MPE NAME` pushed, one more array to fill. */
  lemma OpenNestedStacks(e: seq<Expect>, n: nat, s: nat)
    requires Stacks(e, n, s) && e[1..] != [MPB] && |e| >= 2 && Top(e) == VALUE
    ensures n > 0 && s > 0 && Stacks(e + [MPE, NAME], n, s + 1)
  {
    StacksTop(e, n, s);
    var b := e[1..];
    assert (e + [MPE, NAME])[1..] == b + [MPE, NAME];
    PushFrame(b);
  }

  /** '}' after a string or a nested array: `MPE` popped, one array
    * fewer. */
  lemma CloseFrameStacks(e: seq<Expect>, n: nat, s: nat)
    requires Stacks(e, n, s) && e[1..] != [MPB] && |e| >= 2 && Top(e) == MPE
    ensures s > 0 && Stacks(Pop(e), n, s - 1)
  {
    StacksTop(e, n, s);
    var b := e[1..];
    var b' := Pop(b);
    assert Pop(e)[1..] == b';
    FramesPrefix(b, |b| - 1);
    assert b' == b[..|b| - 1];
    CountPush(b', MPE, MPE);
    CountPush(b', MPE, VALUE);
    assert b' + [MPE] == b;
    if b' != [] {
      assert Slot(b, 0);
      assert b'[0] == MPE;
    }
  }

  /** '}' ending a value: `VALUE` and `MPE` popped, one name and one array
    * fewer. */
  lemma CloseValueStacks(e: seq<Expect>, n: nat, s: nat)
    requires Stacks(e, n, s) && e[1..] != [MPB] && |e| >= 2 && Top(e) == VALUE
    ensures n > 0 && s > 0 && Stacks(e[..|e| - 2], n - 1, s - 1)
  {
    StacksTop(e, n, s);
    var b := e[1..];
    var b' := b[..|b| - 2];
    assert e[..|e| - 2][1..] == b';
    FramesPrefix(b, |b| - 2);
    CountPopTwo(b, MPE);
    CountPopTwo(b, VALUE);
    if b' != [] {
      assert Slot(b, 0);
      assert b'[0] == MPE;
    }
  }

  /** ',' ending a value: `VALUE` replaced by `NAME`. */
  lemma CommaValueStacks(e: seq<Expect>, n: nat, s: nat)
    requires Stacks(e, n, s) && e[1..] != [MPB] && |e| >= 2 && Top(e) == VALUE
    ensures n > 0 && s > 0 && Stacks(Pop(e) + [NAME], n, s)
  {
    StacksTop(e, n, s);
    var b := e[1..];
    var b' := Pop(b) + [NAME];
    assert (Pop(e) + [NAME])[1..] == b';
    FramesPrefix(b, |b| - 1);
    assert Pop(b) == b[..|b| - 1];
    FramesPush(Pop(b), NAME);
    CountPush(Pop(b), NAME, MPE);
    CountPush(Pop(b), NAME, VALUE);
    CountPush(Pop(b), VALUE, MPE);
    CountPush(Pop(b), VALUE, VALUE);
    assert Pop(b) + [VALUE] == b;
  }

  /** ',' after a string or a nested array: `NAME` pushed. */
  lemma CommaFrameStacks(e: seq<Expect>, n: nat, s: nat)
    requires Stacks(e, n, s) && e[1..] != [MPB] && |e| >= 2 && Top(e) == MPE
    ensures Stacks(e + [NAME], n, s)
  {
    StacksTop(e, n, s);
    var b := e[1..];
    assert (e + [NAME])[1..] == b + [NAME];
    FramesPush(b, NAME);
    CountPush(b, NAME, MPE);
    CountPush(b, NAME, VALUE);
  }

  /** A blank after a stored value: `VALUE` popped. */
  lemma BlankValueStacks(e: seq<Expect>, n: nat, s: nat)
    requires Stacks(e, n, s) && e[1..] != [MPB] && |e| >= 2 && Top(e) == VALUE
    ensures n > 0 && s > 0 && Stacks(Pop(e), n, s)
  {
    StacksTop(e, n, s);
    var b := e[1..];
    var b' := Pop(b);
    assert Pop(e)[1..] == b';
    FramesPrefix(b, |b| - 1);
    assert b' == b[..|b| - 1];
    CountPush(b', VALUE, MPE);
    CountPush(b', VALUE, VALUE);
    assert b' + [VALUE] == b;
    assert Slot(b, 0);
    assert b'[0] == MPE;
  }

  lemma OnColonKeepsValid(p: ParserState, token: string)
    requires Valid(p)
    ensures OnColon(p, token).Thrown? ==> OnColon(p, token).fault == SyntaxError
    ensures OnColon(p, token).Next? ==> Valid(OnColon(p, token).state)
  {
    var e := p.expected;
    if e[1..] != [MPB] && |e| >= 2 {
      StacksTop(e, |p.names|, |p.subs|);
      if Top(e) == NAME && IsName(p.pending) {
        NameStacks(e, |p.names|, |p.subs|);
      }
    }
  }

  lemma OnQuoteKeepsValid(p: ParserState, token: string)
    requires Valid(p)
    ensures OnQuote(p, token).Thrown? ==> OnQuote(p, token).fault == SyntaxError
    ensures OnQuote(p, token).Next? ==> Valid(OnQuote(p, token).state)
  {
    var e := p.expected;
    if e[1..] != [MPB] && |e| >= 2 {
      StacksTop(e, |p.names|, |p.subs|);
      if Top(e) == QUOTE {
        QuoteCloseStacks(e, |p.names|, |p.subs|);
        SetKeepsChain(p.subs, p.config, Top(p.names), StringVar(p.pending));
      } else if Top(e) == VALUE {
        QuoteOpenStacks(e, |p.names|, |p.subs|);
      }
    }
  }

  lemma OnOpenKeepsValid(p: ParserState, token: string)
    requires Valid(p)
    ensures OnOpen(p, token).Thrown? ==> OnOpen(p, token).fault == SyntaxError
    ensures OnOpen(p, token).Next? ==> Valid(OnOpen(p, token).state)
  {
    var e := p.expected;
    if e[1..] == [MPB] {
      OpenFirstStacks(e, |p.names|, |p.subs|);
    } else if |e| >= 2 {
      StacksTop(e, |p.names|, |p.subs|);
      if Top(e) == VALUE {
        OpenNestedStacks(e, |p.names|, |p.subs|);
        EnterKeepsChain(p.subs, p.config, Top(p.names));
      }
    }
  }

  lemma OnCloseKeepsValid(p: ParserState, token: string)
    requires Valid(p)
    ensures OnClose(p, token).Thrown? ==> OnClose(p, token).fault == SyntaxError
    ensures OnClose(p, token).Next? ==> Valid(OnClose(p, token).state)
  {
    var e := p.expected;
    if e[1..] != [MPB] && |e| >= 2 {
      StacksTop(e, |p.names|, |p.subs|);
      if Top(e) == MPE {
        CloseFrameStacks(e, |p.names|, |p.subs|);
        LeaveKeepsChain(p.subs, p.config);
      } else if Top(e) == VALUE {
        CloseValueStacks(e, |p.names|, |p.subs|);
        SavedKeepsTree(p);
        LeaveKeepsChain(p.subs, SavedValue(p).state.config);
      }
    }
  }

  lemma OnCommaKeepsValid(p: ParserState, token: string)
    requires Valid(p)
    ensures OnComma(p, token).Thrown? ==> OnComma(p, token).fault == SyntaxError
    ensures OnComma(p, token).Next? ==> Valid(OnComma(p, token).state)
  {
    var e := p.expected;
    if e[1..] != [MPB] && |e| >= 2 {
      StacksTop(e, |p.names|, |p.subs|);
      if Top(e) == VALUE {
        CommaValueStacks(e, |p.names|, |p.subs|);
        SavedKeepsTree(p);
      } else if Top(e) == MPE {
        CommaFrameStacks(e, |p.names|, |p.subs|);
      }
    }
  }

  lemma OnBlankKeepsValid(p: ParserState, token: string)
    requires Valid(p)
    ensures OnBlank(p, token).Thrown? ==> OnBlank(p, token).fault == SyntaxError
    ensures OnBlank(p, token).Next? ==> Valid(OnBlank(p, token).state)
  {
    var e := p.expected;
    if e[1..] != [MPB] && |e| >= 2 {
      StacksTop(e, |p.names|, |p.subs|);
      if Top(e) == NAME && p.pending != [] && IsName(p.pending) {
        NameStacks(e, |p.names|, |p.subs|);
      } else if Top(e) == VALUE {
        BlankValueStacks(e, |p.names|, |p.subs|);
        SavedKeepsTree(p);
      }
    }
  }

  /** One step from a well-formed state reaches a well-formed state or a
    * `ConfigSyntax` error, never an empty-stack access. */
  lemma StepKeepsValid(p: ParserState, token: string)
    requires Valid(p)
    ensures Step(p, token).Thrown? ==> Step(p, token).fault == SyntaxError
    ensures Step(p, token).Next? ==> Valid(Step(p, token).state)
  {
    var c := FirstChar(token);
    if c == ':' {
      OnColonKeepsValid(p, token);
    } else if c == '"' {
      OnQuoteKeepsValid(p, token);
    } else if c == '{' {
      OnOpenKeepsValid(p, token);
    } else if c == '}' {
      OnCloseKeepsValid(p, token);
    } else if c == ',' {
      OnCommaKeepsValid(p, token);
    } else if IsBlank(c) {
      OnBlankKeepsValid(p, token);
    }
  }

  /** The token loop keeps the invariant and fails only with a syntax
    * error. */
  lemma {:induction false} RunKeepsValid(p: ParserState, tokens: seq<string>)
    requires Valid(p)
    ensures Run(p, tokens).Thrown? ==> Run(p, tokens).fault == SyntaxError
    ensures Run(p, tokens).Next? ==> Valid(Run(p, tokens).state)
    decreases |tokens|
  {
    if tokens != [] {
      StepKeepsValid(p, tokens[0]);
      if Step(p, tokens[0]).Next? {
        RunKeepsValid(Step(p, tokens[0]).state, tokens[1..]);
      }
    }
  }

  /** A parse that starts from empty stacks starts in a well-formed state. */
  lemma StartIsValid(p: ParserState)
    requires p.expected == [] && p.subs == [] && p.config.ArrayVar? && Ordered(p.config)
    ensures Valid(Start(p))
  {
    var q := Start(p);
    assert q.expected[1..] == [MPB];
    ExposeFinds(p.config, "root", EmptyArray, "root");
    assert At(q.config, ["root"]) == At(EmptyArray, []);
    assert IsArrayAt(q.config, q.subs[0]);
  }

  /** A parse from empty stacks never touches an empty stack: it ends with
    * the configuration stored and every stack emptied, or with a syntax
    * error, or with no input at all. */
  lemma ParseIsDefined(p: ParserState, tokens: seq<string>)
    requires p.expected == [] && p.subs == [] && p.config.ArrayVar? && Ordered(p.config)
    ensures Parsed(p, tokens) == Thrown(NoInput) <==> tokens == []
    ensures tokens != [] && Parsed(p, tokens).Thrown? ==> Parsed(p, tokens).fault == SyntaxError
    ensures Parsed(p, tokens).Next? ==>
      Parsed(p, tokens).state.expected == [] && Parsed(p, tokens).state.subs == [] &&
      Parsed(p, tokens).state.config.ArrayVar?
  {
    if tokens != [] {
      StartIsValid(p);
      RunKeepsValid(Start(p), tokens);
      var r := Run(Start(p), tokens);
      if r.Next? && |r.state.expected| >= 2 && r.state.expected[1..] != [MPB] {
        ValidTop(r.state);
      }
    }
  }

  /** The texts of a token list, one after another. */
  function Concat(tokens: seq<string>): string {
    if tokens == [] then "" else tokens[0] + Concat(tokens[1..])
  }

  /** Inside a quoted string every token but a '"' one, delimiters
    * included, is appended to the pending text as it is. */
  lemma {:induction false} QuotedTextVerbatim(p: ParserState, tokens: seq<string>)
    requires Ordered(p.config) && p.expected != [] && Top(p.expected) == QUOTE
    requires forall i :: 0 <= i < |tokens| ==> FirstChar(tokens[i]) != '"'
    ensures Run(p, tokens) == Next(p.(pending := p.pending + Concat(tokens)))
    decreases |tokens|
  {
    if tokens != [] {
      var q := p.(pending := p.pending + tokens[0]);
      assert Step(p, tokens[0]) == Next(q);
      QuotedTextVerbatim(q, tokens[1..]);
      assert q.pending + Concat(tokens[1..]) == p.pending + Concat(tokens);
    }
  }

  /** The closing '"' stores the quoted text, as a string, under the
    * current name in the array being filled. */
  lemma QuoteStoresString(p: ParserState)
    requires Valid(p) && |p.expected| >= 2 && p.expected[1..] != [MPB]
    requires Top(p.expected) == QUOTE
    ensures Step(p, "\"").Next?
    ensures At(Step(p, "\"").state.config, Top(p.subs) + [Top(p.names)]) == Some(StringVar(p.pending))
  {
    ValidTop(p);
    TopIsArray(p.subs, p.config);
    QuoteStores(p);
  }

  lemma QuoteStores(p: ParserState)
    requires Ordered(p.config) && |p.expected| >= 2 && Top(p.expected) == QUOTE
    requires p.names != [] && p.subs != [] && IsArrayAt(p.config, Top(p.subs))
    ensures Step(p, "\"").Next?
    ensures At(Step(p, "\"").state.config, Top(p.subs) + [Top(p.names)]) == Some(StringVar(p.pending))
  {
    var c := SetAt(p.config, Top(p.subs), Top(p.names), StringVar(p.pending));
    assert Step(p, "\"") == OnQuote(p, "\"");
    assert Step(p, "\"").state.config == c;
    SetAtStores(p.config, Top(p.subs), Top(p.names), StringVar(p.pending));
  }

  /** A ',' after a value that matches a lexeme class stores it, as that
    * class's variable, under the current name in the array being filled. */
  lemma CommaStoresValue(p: ParserState)
    requires Valid(p) && |p.expected| >= 2 && p.expected[1..] != [MPB]
    requires Top(p.expected) == VALUE && Stores(p)
    ensures Step(p, ",").Next?
    ensures At(Step(p, ",").state.config, Top(p.subs) + [Top(p.names)]) == Classify(p.pending)
  {
    ValidTop(p);
    TopIsArray(p.subs, p.config);
    CommaStores(p);
  }

  lemma CommaStores(p: ParserState)
    requires Ordered(p.config) && p.expected != [] && Top(p.expected) == VALUE && Stores(p)
    requires p.names != [] && p.subs != [] && IsArrayAt(p.config, Top(p.subs))
    ensures Step(p, ",").Next?
    ensures At(Step(p, ",").state.config, Top(p.subs) + [Top(p.names)]) == Classify(p.pending)
  {
    var v := Classify(p.pending).value;
    var c := SetAt(p.config, Top(p.subs), Top(p.names), v);
    assert SavedValue(p) == Next(p.(config := c));
    assert Step(p, ",") == OnComma(p, ",");
    assert Step(p, ",").state.config == c;
    SetAtStores(p.config, Top(p.subs), Top(p.names), v);
  }

  /** The sample states of `{a 1}`: after `{`, after the name, and at the end. */
  const ExampleRoot := ArrayVar([("root", EmptyArray)])
  const ExampleOpen := ParserState([INPUT_END, MPE, NAME], [], [["root"]], "", ExampleRoot)
  const ExampleNamed := ParserState([INPUT_END, MPE, VALUE], ["a"], [["root"]], "", ExampleRoot)
  const ExampleConfig := ArrayVar([("root", ArrayVar([("a", NumberVar("1"))]))])

  lemma ExampleOpens()
    ensures Start(ParserState([], [], [], "", EmptyArray)) ==
      ParserState([INPUT_END, MPB], [], [["root"]], "", ExampleRoot)
    ensures Step(ParserState([INPUT_END, MPB], [], [["root"]], "", ExampleRoot), "{") == Next(ExampleOpen)
  {
    assert Expose(EmptyArray, "root", EmptyArray) == ExampleRoot;
  }

  lemma ExampleNames()
    ensures Run(ExampleOpen, ["a", " "]) == Next(ExampleNamed)
  {
    var p2 := ExampleOpen.(pending := "a");
    assert Step(ExampleOpen, "a") == Next(p2);
    assert IsName("a");
    assert Step(p2, " ") == Next(ExampleNamed);
    assert ["a", " "][1..] == [" "];
  }

  lemma ExampleCloses()
    ensures Run(ExampleNamed, ["1", "}"]) == Next(ParserState([INPUT_END], [], [], "", ExampleConfig))
  {
    var p4 := ExampleNamed.(pending := "1");
    assert Step(ExampleNamed, "1") == Next(p4);
    assert LeadingDigits("1") == 1;
    assert Classify("1") == Some(NumberVar("1"));
    assert SetAt(ExampleRoot, ["root"], "a", NumberVar("1")) == ExampleConfig;
    assert Step(p4, "}") == Next(ParserState([INPUT_END], [], [], "", ExampleConfig));
    assert ["1", "}"][1..] == ["}"];
  }

  lemma {:induction false} RunAppend(p: ParserState, xs: seq<string>, ys: seq<string>)
    requires Ordered(p.config)
    ensures Run(p, xs + ys) == match Run(p, xs)
      case Thrown(f) => Thrown(f)
      case Next(q) => Run(q, ys)
    decreases |xs|
  {
    if xs != [] {
      assert (xs + ys)[0] == xs[0] && (xs + ys)[1..] == xs[1..] + ys;
      if Step(p, xs[0]).Next? {
        RunAppend(Step(p, xs[0]).state, xs[1..], ys);
      }
    } else {
      assert xs + ys == ys;
    }
  }

  /** A sample parse: `{a 1}` stores the number 1 under "a" in "root". */
  lemma ParseExample()
    ensures Parsed(ParserState([], [], [], "", EmptyArray), ["{", "a", " ", "1", "}"]) ==
      Next(ParserState([], [], [], "", ExampleConfig))
  {
    ExampleOpens();
    ExampleNames();
    ExampleCloses();
    var p0 := ParserState([INPUT_END, MPB], [], [["root"]], "", ExampleRoot);
    assert ["{", "a", " ", "1", "}"] == ["{"] + (["a", " "] + ["1", "}"]);
    RunAppend(p0, ["{"], ["a", " "] + ["1", "}"]);
    RunAppend(ExampleOpen, ["a", " "], ["1", "}"]);
  }

  /** The step as written and the corrected one part exactly where no
    * lexeme expects a ':' and no name is pending. */
  lemma ColonAsWrittenDiffers(p: ParserState, token: string)
    ensures OnColonAsWritten(p, token) != OnColon(p, token) <==>
      p.expected != [] && p.names == [] &&
      (Top(p.expected) == MPB || Top(p.expected) == MPE || Top(p.expected) == INPUT_END)
  {
  }

  /** A ':' as the first token, or right after a complete `{a 1}`, finds
    * the name stack empty: the step as written reads its top, and the
    * corrected parse reports a syntax error. */
  lemma ColonWithoutNameIsUndefined()
    ensures OnColonAsWritten(Start(ParserState([], [], [], "", EmptyArray)), ":") == Thrown(Undefined)
    ensures Parsed(ParserState([], [], [], "", EmptyArray), [":"]) == Thrown(SyntaxError)
    ensures Run(Start(ParserState([], [], [], "", EmptyArray)), ["{", "a", " ", "1", "}"]) ==
      Next(ParserState([INPUT_END], [], [], "", ExampleConfig))
    ensures OnColonAsWritten(ParserState([INPUT_END], [], [], "", ExampleConfig), ":") == Thrown(Undefined)
  {
    var p0 := ParserState([INPUT_END, MPB], [], [["root"]], "", ExampleRoot);
    ExampleOpens();
    ExampleNames();
    ExampleCloses();
    assert Run(p0, [":"]) == Thrown(SyntaxError);
    assert ["{", "a", " ", "1", "}"] == ["{"] + (["a", " "] + ["1", "}"]);
    RunAppend(p0, ["{"], ["a", " "] + ["1", "}"]);
    RunAppend(ExampleOpen, ["a", " "], ["1", "}"]);
  }

  // ---------------------------------------------------------------------
  // The parser object
  // ---------------------------------------------------------------------

  /** The caller sees `fault` when the step threw and the new state when it
    * did not. */
  predicate Outcome(fault: Option<Fault>, s: ParserState, r: Stepped) {
    match r
    case Next(q) => fault == None && s == q
    case Thrown(f) => fault == Some(f)
  }

  /** `itc::Config`: the parser's stacks, the token list it parses and the
    * configuration it fills. After a throw its fields are left as the
    * step left them, which the contracts do not describe. */
  class Config {
    var expected: seq<Expect>
    var names: seq<string>
    var tokens: seq<string>
    var subs: seq<seq<string>>
    var pending: string
    const configFile: string
    var config: Variable

    function State(): ParserState
      reads this
    {
      ParserState(expected, names, subs, pending, config)
    }

    /** A parser over the tokens of `configFile`, with empty stacks and
      * an empty configuration. */
    constructor(configFile: string, tokens: seq<string>)
      ensures State() == ParserState([], [], [], "", EmptyArray)
      ensures this.tokens == tokens && this.configFile == configFile
    {
      this.configFile := configFile;
      this.tokens := tokens;
      expected, names, subs, pending, config := [], [], [], "", EmptyArray;
    }

    /** `saveValue()`; true when the pending text was stored. */
    method SaveValue() returns (stored: bool, fault: Option<Fault>)
      requires Ordered(config)
      modifies this
      ensures Outcome(fault, State(), SavedValue(old(State())))
      ensures stored == Stores(old(State())) && tokens == old(tokens)
    {
      var v := Classify(pending);
      stored := v.Some?;
      fault := None;
      if v.Some? {
        if names == [] || subs == [] {
          fault := Some(Undefined);
        } else {
          config := SetAt(config, subs[|subs| - 1], names[|names| - 1], v.value);
        }
      }
    }

    /** Pops the top of the expected-lexeme stack and pushes `x`. */
    method Replace(x: Expect)
      requires expected != []
      modifies this
      ensures expected == old(expected)[..|old(expected)| - 1] + [x]
      ensures names == old(names) && subs == old(subs) && pending == old(pending)
      ensures config == old(config) && tokens == old(tokens)
    {
      expected := expected[..|expected| - 1];
      expected := expected + [x];
    }

    method Colon(token: string) returns (fault: Option<Fault>)
      modifies this
      ensures Outcome(fault, State(), OnColon(old(State()), token)) && tokens == old(tokens)
    {
      if expected == [] {
        return Some(EmptyLexemes);
      }
      fault := None;
      match expected[|expected| - 1]
      case COLON =>
        Replace(VALUE);
        names := names + [pending];
        pending := "";
      case NAME =>
        if IsName(pending) {
          Replace(VALUE);
          names := names + [pending];
          pending := "";
        } else {
          fault := Some(SyntaxError);
        }
      case VALUE =>
      case QUOTE =>
        pending := pending + token;
      case _ =>
        fault := Some(SyntaxError);
    }

    method Quote(token: string) returns (fault: Option<Fault>)
      requires Ordered(config)
      modifies this
      ensures Outcome(fault, State(), OnQuote(old(State()), token)) && tokens == old(tokens)
    {
      if expected == [] {
        return Some(EmptyLexemes);
      }
      fault := None;
      match expected[|expected| - 1]
      case QUOTE =>
        if |expected| < 2 || names == [] || subs == [] {
          fault := Some(Undefined);
        } else {
          ghost var p := State();
          var top := SetAt(config, subs[|subs| - 1], names[|names| - 1], StringVar(pending));
          expected, config, pending, names := expected[..|expected| - 2], top, "", names[..|names| - 1];
          assert State() == OnQuote(p, token).state;
        }
      case VALUE =>
        expected := expected + [QUOTE];
        pending := "";
      case _ =>
        fault := Some(SyntaxError);
    }

    method Open(token: string) returns (fault: Option<Fault>)
      requires Ordered(config)
      modifies this
      ensures Outcome(fault, State(), OnOpen(old(State()), token)) && tokens == old(tokens)
    {
      if expected == [] {
        return Some(EmptyLexemes);
      }
      fault := None;
      match expected[|expected| - 1]
      case MPB =>
        expected := expected[..|expected| - 1];
        expected := expected + [MPE];
        expected := expected + [NAME];
      case VALUE =>
        if names == [] || subs == [] {
          fault := Some(Undefined);
        } else {
          ghost var p := State();
          var at, name := subs[|subs| - 1], names[|names| - 1];
          var nested := SetAt(config, at, name, EmptyArray);
          expected, config, subs := expected + [MPE, NAME], nested, subs + [at + [name]];
          assert State() == OnOpen(p, token).state;
        }
      case QUOTE =>
        pending := pending + token;
      case _ =>
        fault := Some(SyntaxError);
    }

    method Close(token: string) returns (fault: Option<Fault>)
      requires Ordered(config)
      modifies this
      ensures Outcome(fault, State(), OnClose(old(State()), token)) && tokens == old(tokens)
    {
      if expected == [] {
        return Some(EmptyLexemes);
      }
      fault := None;
      match expected[|expected| - 1]
      case MPE =>
        expected := expected[..|expected| - 1];
        if subs != [] {
          subs := subs[..|subs| - 1];
        }
      case VALUE =>
        fault := CloseValue(token);
      case QUOTE =>
        pending := pending + token;
      case _ =>
        fault := Some(SyntaxError);
    }

    /** '}' ending a value: saved, then `VALUE` and `MPE` popped, the
      * array left and the name popped. */
    method CloseValue(token: string) returns (fault: Option<Fault>)
      requires Ordered(config) && expected != [] && expected[|expected| - 1] == VALUE
      modifies this
      ensures Outcome(fault, State(), OnClose(old(State()), token)) && tokens == old(tokens)
    {
      ghost var p := State();
      CloseAfterValue(p, token);
      var _, f := SaveValue();
      if f.Some? {
        return f;
      }
      if |expected| < 2 {
        return Some(Undefined);
      }
      ghost var q := State();
      assert SavedValue(p) == Next(q);
      expected, pending := expected[..|expected| - 2], "";
      if subs != [] {
        subs := subs[..|subs| - 1];
      }
      if names != [] {
        names := names[..|names| - 1];
      }
      assert State() == q.(expected := p.expected[..|p.expected| - 2], subs := PopIfAny(q.subs),
                           pending := "", names := PopIfAny(q.names));
      fault := None;
    }

    method Comma(token: string) returns (fault: Option<Fault>)
      requires Ordered(config)
      modifies this
      ensures Outcome(fault, State(), OnComma(old(State()), token)) && tokens == old(tokens)
    {
      if expected == [] {
        return Some(EmptyLexemes);
      }
      fault := None;
      match expected[|expected| - 1]
      case VALUE =>
        var _, f := SaveValue();
        if f.Some? {
          return f;
        }
        Replace(NAME);
        pending := "";
      case QUOTE =>
        pending := pending + token;
      case MPE =>
        expected := expected + [NAME];
      case _ =>
        fault := Some(SyntaxError);
    }

    method Blank(token: string) returns (fault: Option<Fault>)
      requires Ordered(config)
      modifies this
      ensures Outcome(fault, State(), OnBlank(old(State()), token)) && tokens == old(tokens)
    {
      if expected == [] {
        return Some(Undefined);
      }
      fault := None;
      match expected[|expected| - 1]
      case NAME =>
        if pending != [] {
          if IsName(pending) {
            Replace(VALUE);
            names := names + [pending];
            pending := "";
          } else {
            fault := Some(SyntaxError);
          }
        }
      case VALUE =>
        var stored, f := SaveValue();
        if f.Some? {
          return f;
        }
        if stored {
          expected := expected[..|expected| - 1];
          pending := "";
        }
      case QUOTE =>
        pending := pending + token;
      case _ =>
    }

    /** `parser(token)`: one step of the machine. */
    method Parser(token: string) returns (fault: Option<Fault>)
      requires Ordered(config)
      modifies this
      ensures Outcome(fault, State(), Step(old(State()), token)) && tokens == old(tokens)
    {
      var c := FirstChar(token);
      if c == ':' {
        fault := Colon(token);
      } else if c == '"' {
        fault := Quote(token);
      } else if c == '{' {
        fault := Open(token);
      } else if c == '}' {
        fault := Close(token);
      } else if c == ',' {
        fault := Comma(token);
      } else if IsBlank(c) {
        fault := Blank(token);
      } else {
        pending := pending + token;
        fault := None;
      }
    }

    /** `parse()`: every token through `parser`, then the end of input
      * checked. From empty stacks it fails only on no input or a syntax
      * error (`ParseIsDefined`). */
    method Parse() returns (fault: Option<Fault>)
      requires config.ArrayVar? && Ordered(config)
      modifies this
      ensures Outcome(fault, State(), Parsed(old(State()), old(tokens))) && tokens == old(tokens)
    {
      if tokens == [] {
        return Some(NoInput);
      }
      expected := expected + [INPUT_END];
      expected := expected + [MPB];
      config := Expose(config, "root", EmptyArray);
      subs := subs + [["root"]];
      ghost var start := State();
      assert start == Start(old(State()));
      var i := 0;
      while i < |tokens|
        invariant 0 <= i <= |tokens| && tokens == old(tokens)
        invariant Ordered(config)
        invariant Run(start, tokens) == Run(State(), tokens[i..])
      {
        assert tokens[i..][0] == tokens[i] && tokens[i..][1..] == tokens[i + 1..];
        fault := Parser(tokens[i]);
        if fault.Some? {
          return;
        }
        i := i + 1;
      }
      assert tokens[i..] == [];
      subs := [];
      if expected == [] {
        return Some(Undefined);
      }
      if expected[|expected| - 1] != INPUT_END {
        return Some(SyntaxError);
      }
      expected := expected[..|expected| - 1];
      fault := None;
    }

    /** The constructor's work: read the tokens, then parse them. */
    static method Load(configFile: string, tokens: seq<string>) returns (c: Config, fault: Option<Fault>)
      ensures fresh(c) && c.tokens == tokens && c.configFile == configFile
      ensures Outcome(fault, c.State(), Parsed(ParserState([], [], [], "", EmptyArray), tokens))
      ensures fault == None || fault == Some(SyntaxError) || (fault == Some(NoInput) && tokens == [])
    {
      c := new Config(configFile, tokens);
      fault := c.Parse();
      ParseIsDefined(ParserState([], [], [], "", EmptyArray), tokens);
    }
  }
}
