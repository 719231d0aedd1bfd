// The legacy `key=value` properties file reader: each line is split on
// '=' by a tokenizer, the value's type is inferred (boolean, integer or
// string) and the pair is stored in a map; reading stops at the first
// line that does not parse.
module Properties {
  import opened Wrappers

  /** A typed property value (the source's tagged union `properties`). */
  datatype Property = IntProp(n: int) | StringProp(s: string) | BoolProp(b: bool)

  /** `isalpha` in the C locale. */
  predicate IsAlpha(c: char) {
    ('a' <= c <= 'z') || ('A' <= c <= 'Z')
  }

  /** `isdigit`. */
  predicate IsDigit(c: char) {
    '0' <= c <= '9'
  }

  function Lower(c: char): char {
    if 'A' <= c <= 'Z' then (c as int + 32) as char else c
  }

  /** `strncasecmp(word, v, |word|) == 0` for a lower-case `word`: `v`
    * starts with `word`, ignoring case. A shorter `v` ends in its NUL
    * terminator, which differs from every letter of `word`. */
  predicate StartsWithIgnoringCase(word: string, v: string) {
    |v| >= |word| && forall i :: 0 <= i < |word| ==> Lower(v[i]) == word[i]
  }

  predicate AllDigits(v: string) {
    forall i :: 0 <= i < |v| ==> IsDigit(v[i])
  }

  /** The decimal value of a digit string (what `atoi` returns for it). */
  function DigitsValue(v: string): (r: nat)
    requires AllDigits(v)
  {
    if v == [] then 0
    else DigitsValue(v[..|v| - 1]) * 10 + (v[|v| - 1] as int - '0' as int)
  }

  /** The type inference of `parseLine` for the value token `v`. The first
    * character of an empty value is the NUL terminator: not a letter, and
    * zero leading digits equal its length, so it becomes the integer 0. */
  function Classify(v: string): Property {
    if |v| > 0 && IsAlpha(v[0]) then
      if StartsWithIgnoringCase("true", v) then BoolProp(true)
      else if StartsWithIgnoringCase("false", v) then BoolProp(false)
      else StringProp(v)
    else if AllDigits(v) then IntProp(DigitsValue(v))
    else StringProp(v)
  }

  /** `parseLine` on the tokens the tokenizer returned for a line. */
  function Parse(tokens: seq<string>): Option<(string, Property)> {
    if |tokens| == 2 then Some((tokens[0], Classify(tokens[1]))) else None
  }

  /** A line `readProperties` skips: a comment, or empty. */
  predicate Skipped(line: string) {
    line == [] || line[0] == '#' || line[0] == '\n'
  }

  /** The map `readProperties` builds from `lines`, starting from `m`. */
  function ReadAll(m: map<string, Property>, lines: seq<string>,
                   tokenize: string -> seq<string>): map<string, Property>
    decreases |lines|
  {
    if lines == [] then m
    else if Skipped(lines[0]) then ReadAll(m, lines[1..], tokenize)
    else match Parse(tokenize(lines[0]))
      case None => m
      case Some(kv) => ReadAll(m[kv.0 := kv.1], lines[1..], tokenize)
  }

  /** The value line `line` gives `key`, if any. */
  function Defines(line: string, key: string,
                   tokenize: string -> seq<string>): Option<Property> {
    if Skipped(line) then None
    else match Parse(tokenize(line))
      case Some(kv) => if kv.0 == key then Some(kv.1) else None
      case None => None
  }

  /** The value the last line defining `key` gives it. */
  function LastDefinition(lines: seq<string>, key: string,
                          tokenize: string -> seq<string>): Option<Property>
    decreases |lines|
  {
    if lines == [] then None
    else
      var later := LastDefinition(lines[1..], key, tokenize);
      if later.Some? then later else Defines(lines[0], key, tokenize)
  }

  /** No line of `lines` is one `readProperties` rejects. */
  predicate AllParse(lines: seq<string>, tokenize: string -> seq<string>) {
    forall i :: 0 <= i < |lines| ==>
      Skipped(lines[i]) || Parse(tokenize(lines[i])).Some?
  }

  // ---------------------------------------------------------------------
  // Properties of the classification
  // ---------------------------------------------------------------------

  /** Which type a value gets, stated as conditions on the value alone. */
  lemma {:induction false} ClassifyTypes(v: string)
    ensures Classify(v) == BoolProp(true) <==>
      |v| > 0 && IsAlpha(v[0]) && StartsWithIgnoringCase("true", v)
    ensures Classify(v) == BoolProp(false) <==>
      |v| > 0 && IsAlpha(v[0]) && !StartsWithIgnoringCase("true", v)
        && StartsWithIgnoringCase("false", v)
    ensures Classify(v).IntProp? <==> AllDigits(v)
    ensures Classify(v).StringProp? ==> Classify(v).s == v
  {
    if |v| > 0 && IsAlpha(v[0]) {
      assert !IsDigit(v[0]);
    }
  }

  /** A value not starting with a letter that has a sign or a decimal
    * point is a string, not a number. */
  lemma {:induction false} SignedOrFractionalIsString(v: string)
    requires |v| > 0 && !IsAlpha(v[0])
    requires v[0] == '-' || exists i :: 0 <= i < |v| && v[i] == '.'
    ensures Classify(v) == StringProp(v)
  {
    if v[0] == '-' {
      assert !IsDigit(v[0]);
    } else {
      var i :| 0 <= i < |v| && v[i] == '.';
      assert !IsDigit(v[i]);
    }
  }

  // ---------------------------------------------------------------------
  // Properties of reading a whole file
  // ---------------------------------------------------------------------

  /** Reading stops at an unparseable line: what follows it has no effect. */
  lemma {:induction false} ReadStopsAtFailure(m: map<string, Property>, lines: seq<string>,
                                              tokenize: string -> seq<string>, j: nat)
    requires j < |lines|
    requires !Skipped(lines[j]) && Parse(tokenize(lines[j])).None?
    ensures ReadAll(m, lines, tokenize) == ReadAll(m, lines[..j], tokenize)
    decreases j
  {
    if j == 0 {
      assert lines[..j] == [];
    } else if Skipped(lines[0]) {
      ReadStopsAtFailure(m, lines[1..], tokenize, j - 1);
      assert lines[1..][..j - 1] == lines[..j][1..];
    } else if Parse(tokenize(lines[0])).None? {
      assert lines[..j][0] == lines[0];
    } else {
      var kv := Parse(tokenize(lines[0])).value;
      ReadStopsAtFailure(m[kv.0 := kv.1], lines[1..], tokenize, j - 1);
      assert lines[1..][..j - 1] == lines[..j][1..];
    }
  }

  /** When every line parses, each key holds the value of the last line
    * that defines it, and keys no line defines keep their earlier value. */
  lemma {:induction false} LaterLineWins(m: map<string, Property>, lines: seq<string>,
                                         tokenize: string -> seq<string>, key: string)
    requires AllParse(lines, tokenize)
    ensures LastDefinition(lines, key, tokenize).Some? ==>
      key in ReadAll(m, lines, tokenize) &&
      ReadAll(m, lines, tokenize)[key] == LastDefinition(lines, key, tokenize).value
    ensures LastDefinition(lines, key, tokenize).None? ==>
      (key in ReadAll(m, lines, tokenize) <==> key in m) &&
      (key in m ==> ReadAll(m, lines, tokenize)[key] == m[key])
    decreases |lines|
  {
    if lines != [] {
      assert AllParse(lines[1..], tokenize) by {
        forall i | 0 <= i < |lines[1..]|
          ensures Skipped(lines[1..][i]) || Parse(tokenize(lines[1..][i])).Some?
        {
          assert lines[1..][i] == lines[i + 1];
        }
      }
      if Skipped(lines[0]) {
        LaterLineWins(m, lines[1..], tokenize, key);
      } else {
        assert Parse(tokenize(lines[0])).Some?;
        var kv := Parse(tokenize(lines[0])).value;
        LaterLineWins(m[kv.0 := kv.1], lines[1..], tokenize, key);
      }
    }
  }

  /** Every key read comes from the starting map or from some line. */
  lemma {:induction false} ReadOnlyAddsDefinedKeys(m: map<string, Property>, lines: seq<string>,
                                                   tokenize: string -> seq<string>, key: string)
    requires key in ReadAll(m, lines, tokenize) && key !in m
    ensures exists i :: 0 <= i < |lines| && Defines(lines[i], key, tokenize).Some?
    decreases |lines|
  {
    if Skipped(lines[0]) {
      ReadOnlyAddsDefinedKeys(m, lines[1..], tokenize, key);
      var i :| 0 <= i < |lines[1..]| && Defines(lines[1..][i], key, tokenize).Some?;
      assert lines[1..][i] == lines[i + 1];
    } else {
      var kv := Parse(tokenize(lines[0])).value;
      if kv.0 == key {
        assert Defines(lines[0], key, tokenize).Some?;
      } else {
        ReadOnlyAddsDefinedKeys(m[kv.0 := kv.1], lines[1..], tokenize, key);
        var i :| 0 <= i < |lines[1..]| && Defines(lines[1..][i], key, tokenize).Some?;
        assert lines[1..][i] == lines[i + 1];
      }
    }
  }

  /** One step of `readProperties`. */
  lemma ReadAllStep(m: map<string, Property>, lines: seq<string>,
                    tokenize: string -> seq<string>, i: nat)
    requires i < |lines|
    ensures ReadAll(m, lines[i..], tokenize) ==
      if Skipped(lines[i]) then ReadAll(m, lines[i + 1..], tokenize)
      else match Parse(tokenize(lines[i]))
        case None => m
        case Some(kv) => ReadAll(m[kv.0 := kv.1], lines[i + 1..], tokenize)
  {
    assert lines[i..][0] == lines[i] && lines[i..][1..] == lines[i + 1..];
  }

  // ---------------------------------------------------------------------
  // The reader
  // ---------------------------------------------------------------------

  /** `parseLine`, with its digit-counting loop. */
  method ParseLine(tokens: seq<string>) returns (r: Option<(string, Property)>)
    ensures r == Parse(tokens)
  {
    if |tokens| != 2 {
      return None;
    }
    var key, value := tokens[0], tokens[1];
    if |value| > 0 && IsAlpha(value[0]) {
      var isTrue := StartsWithIgnoringCase("true", value);
      var isFalse := StartsWithIgnoringCase("false", value);
      if isTrue || isFalse {
        r := Some((key, BoolProp(isTrue)));
      } else {
        r := Some((key, StringProp(value)));
      }
    } else {
      var countDigits := 0;
      var i := 0;
      while i < |value|
        invariant 0 <= i <= |value|
        invariant countDigits == i
        invariant AllDigits(value[..i])
      {
        if IsDigit(value[i]) {
          countDigits := countDigits + 1;
        } else {
          break;
        }
        i := i + 1;
      }
      if countDigits != |value| {
        assert !IsDigit(value[countDigits]);
        r := Some((key, StringProp(value)));
      } else {
        assert value[..i] == value;
        r := Some((key, IntProp(DigitsValue(value))));
      }
    }
  }

  /** A properties file read into a map. The file's lines are an input;
    * the tokenizer that splits a line on '=' is a parameter. */
  class PropertiesFile {
    const fileName: string
    var entries: map<string, Property>

    constructor (fileName: string, lines: seq<string>, tokenize: string -> seq<string>)
      ensures this.fileName == fileName
      ensures entries == ReadAll(map[], lines, tokenize)
    {
      this.fileName := fileName;
      entries := map[];
      new;
      ReadProperties(lines, tokenize);
    }

    /** `readProperties`: fold the lines into the map, skipping comments
      * and empty lines, stopping at the first line that does not parse. */
    method ReadProperties(lines: seq<string>, tokenize: string -> seq<string>)
      modifies this
      ensures entries == ReadAll(old(entries), lines, tokenize)
    {
      var i := 0;
      while i < |lines|
        invariant 0 <= i <= |lines|
        invariant ReadAll(old(entries), lines, tokenize) == ReadAll(entries, lines[i..], tokenize)
      {
        ReadAllStep(entries, lines, tokenize, i);
        if Skipped(lines[i]) {
          i := i + 1;
          continue;
        }
        var pair := ParseLine(tokenize(lines[i]));
        if pair.None? {
          return;
        }
        entries := entries[pair.value.0 := pair.value.1];
        i := i + 1;
      }
      assert lines[i..] == [];
    }

    /** `getPropertyByName` for an `int`; `hasOut` says whether the output
      * pointer is non-null. */
    function GetInt(name: string, hasOut: bool): (r: Option<int>)
      reads this
      ensures r.Some? <==> hasOut && name in entries && entries[name].IntProp?
      ensures r.Some? ==> entries[name] == IntProp(r.value)
    {
      if name !in entries then None
      else if !hasOut || !entries[name].IntProp? then None
      else Some(entries[name].n)
    }

    /** `getPropertyByName` for a `bool`. */
    function GetBool(name: string, hasOut: bool): (r: Option<bool>)
      reads this
      ensures r.Some? <==> hasOut && name in entries && entries[name].BoolProp?
      ensures r.Some? ==> entries[name] == BoolProp(r.value)
    {
      if name !in entries then None
      else if !hasOut || !entries[name].BoolProp? then None
      else Some(entries[name].b)
    }

    /** `getPropertyByName` for a `std::string`. */
    function GetString(name: string, hasOut: bool): (r: Option<string>)
      reads this
      ensures r.Some? <==> hasOut && name in entries && entries[name].StringProp?
      ensures r.Some? ==> entries[name] == StringProp(r.value)
    {
      if name !in entries then None
      else if !hasOut || !entries[name].StringProp? then None
      else Some(entries[name].s)
    }
  }

  /** Reading a file whose lines all parse, then asking for an integer,
    * yields the value of the last line defining that key when it is an
    * integer, and fails otherwise. */
  method ReadThenGetInt(lines: seq<string>, tokenize: string -> seq<string>, key: string)
    returns (r: Option<int>)
    requires AllParse(lines, tokenize)
    ensures r.Some? <==> LastDefinition(lines, key, tokenize).Some?
                          && LastDefinition(lines, key, tokenize).value.IntProp?
    ensures r.Some? ==> LastDefinition(lines, key, tokenize).value == IntProp(r.value)
  {
    var file := new PropertiesFile("", lines, tokenize);
    LaterLineWins(map[], lines, tokenize, key);
    r := file.GetInt(key, true);
  }
}
