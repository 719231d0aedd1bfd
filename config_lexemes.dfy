// The lexeme classes of the configuration language (POSIX extended
// regular expressions matched against a whole pending text), the parser's
// expected-lexeme states, and the classification of a pending value.
module ConfigLexemes {
  import opened Wrappers
  import opened ConfigReflection

  /** What the parser expects next. `INPUT_END` marks the bottom of the
    * stack during a parse; the enum as declared lacks it. */
  datatype Expect = MPB | MPE | NAME | COLON | VALUE | QUOTE | INPUT_END

  predicate IsDigit(c: char) { '0' <= c <= '9' }

  predicate IsHexDigit(c: char) {
    IsDigit(c) || ('a' <= c <= 'f') || ('A' <= c <= 'F')
  }

  predicate IsAlpha(c: char) { ('a' <= c <= 'z') || ('A' <= c <= 'Z') }

  predicate IsAlnum(c: char) { IsAlpha(c) || IsDigit(c) }

  /** `[[:print:]]` in the C locale. */
  predicate IsPrint(c: char) { ' ' <= c <= '~' }

  predicate AllDigits(s: string) {
    forall i :: 0 <= i < |s| ==> IsDigit(s[i])
  }

  /** Length of the run of digits that starts `s`. */
  function LeadingDigits(s: string): (r: nat)
    ensures r <= |s| && AllDigits(s[..r])
    ensures r < |s| ==> !IsDigit(s[r])
  {
    if s == [] || !IsDigit(s[0]) then 0
    else
      var k := LeadingDigits(s[1..]);
      assert s[..k + 1] == [s[0]] + s[1..][..k];
      k + 1
  }

  /** `[[:digit:]]*[.][[:digit:]]+`: the run of digits is followed by one
    * '.' and at least one more digit, and nothing else. */
  predicate IsDecimal(s: string) {
    var k := LeadingDigits(s);
    k + 1 < |s| && s[k] == '.' && AllDigits(s[k + 1..])
  }

  /** `0x[[:xdigit:]]+`. */
  predicate IsHex(s: string) {
    |s| >= 3 && s[0] == '0' && s[1] == 'x' &&
    forall i :: 2 <= i < |s| ==> IsHexDigit(s[i])
  }

  /** `rNumber` matches the whole text. */
  predicate IsNumber(s: string) {
    (|s| > 0 && AllDigits(s)) || IsDecimal(s) || IsHex(s)
  }

  /** `rBool` matches the whole text. */
  predicate IsBool(s: string) {
    s == "true" || s == "false" || s == "on" || s == "off"
  }

  /** The truth value of a boolean lexeme. */
  predicate BoolMeaning(s: string) {
    s == "on" || s == "true"
  }

  /** `rString` matches the whole text: exactly one printable character. */
  predicate IsStringLexeme(s: string) {
    |s| == 1 && IsPrint(s[0])
  }

  /** `rName` matches the whole text. */
  predicate IsName(s: string) {
    |s| > 0 && IsAlpha(s[0]) &&
    forall i :: 1 <= i < |s| ==> IsAlnum(s[i]) || s[i] == '_'
  }

  /** The variable a pending value is stored as: tried as a number, then
    * as a boolean, then as a string; nothing when no class matches. */
  function Classify(s: string): (r: Option<Variable>)
    ensures r.None? <==> !IsNumber(s) && !IsBool(s) && !IsStringLexeme(s)
    ensures r.Some? ==> !r.value.ArrayVar?
    ensures IsNumber(s) ==> r == Some(NumberVar(s))
  {
    if IsNumber(s) then Some(NumberVar(s))
    else if IsBool(s) then Some(BoolVar(BoolMeaning(s)))
    else if IsStringLexeme(s) then Some(StringVar(s))
    else None
  }

  // ---------------------------------------------------------------------
  // The predicates agree with the regular expressions they stand for
  // ---------------------------------------------------------------------

  predicate Letters(s: string) {
    forall i :: 0 <= i < |s| ==> IsAlpha(s[i])
  }

  predicate WordChars(s: string) {
    forall i :: 0 <= i < |s| ==> IsAlnum(s[i]) || s[i] == '_'
  }

  /** `[[:alpha:]]+[[:alnum:]_]*`: one or more letters, then word
    * characters. */
  lemma {:induction false} NameIsRegex(s: string)
    ensures IsName(s) <==>
      exists k :: 1 <= k <= |s| && Letters(s[..k]) && WordChars(s[k..])
  {
    if IsName(s) {
      assert Letters(s[..1]) && WordChars(s[1..]) by {
        forall i | 0 <= i < |s[1..]| ensures IsAlnum(s[1..][i]) || s[1..][i] == '_' {
          assert s[1..][i] == s[i + 1];
        }
      }
    }
    if exists k :: 1 <= k <= |s| && Letters(s[..k]) && WordChars(s[k..]) {
      var k :| 1 <= k <= |s| && Letters(s[..k]) && WordChars(s[k..]);
      assert s[..k][0] == s[0];
      forall i | 1 <= i < |s| ensures IsAlnum(s[i]) || s[i] == '_' {
        if i < k {
          assert s[..k][i] == s[i];
        } else {
          assert s[k..][i - k] == s[i];
        }
      }
    }
  }

  /** `[[:digit:]]*[.][[:digit:]]+`: some split of the text into digits, a
    * dot, and a non-empty run of digits. */
  lemma {:induction false} DecimalIsRegex(s: string)
    ensures IsDecimal(s) <==>
      exists k :: 0 <= k < |s| - 1 && s[k] == '.' && AllDigits(s[..k]) && AllDigits(s[k + 1..])
  {
    var n := LeadingDigits(s);
    if exists k :: 0 <= k < |s| - 1 && s[k] == '.' && AllDigits(s[..k]) && AllDigits(s[k + 1..]) {
      var k :| 0 <= k < |s| - 1 && s[k] == '.' && AllDigits(s[..k]) && AllDigits(s[k + 1..]);
      if n < k {
        assert s[..k][n] == s[n];
      } else if n > k {
        assert s[..n][k] == s[k];
      }
    }
  }

  /** A boolean lexeme is never a number or a single character, so the
    * classification order never hides it. */
  lemma {:induction false} BoolsAreOnlyBools(s: string)
    ensures Classify(s).Some? && Classify(s).value.BoolVar? <==> IsBool(s)
    ensures IsBool(s) ==> Classify(s) == Some(BoolVar(s == "on" || s == "true"))
  {
    if IsBool(s) {
      assert !IsDigit(s[0]);
      assert LeadingDigits(s) == 0;
    }
  }

  /** Only a single printable character that is not a digit is stored as
    * a string: a digit matches `rNumber` first. */
  lemma {:induction false} StringsAreSingleNonDigits(s: string)
    ensures Classify(s).Some? && Classify(s).value.StringVar? <==>
      |s| == 1 && IsPrint(s[0]) && !IsDigit(s[0])
    ensures Classify(s).Some? && Classify(s).value.StringVar? ==> Classify(s).value.s == s
  {
    if |s| == 1 {
      assert LeadingDigits(s) <= 1;
      if !IsDigit(s[0]) {
        assert !IsNumber(s);
      }
    }
  }

  /** Sample numbers. */
  lemma NumberExamples()
    ensures Classify("42") == Some(NumberVar("42"))
    ensures Classify(".5") == Some(NumberVar(".5"))
    ensures Classify("0x1F") == Some(NumberVar("0x1F"))
  {
    assert LeadingDigits("42") == 2;
    assert LeadingDigits(".5") == 0;
  }

  /** Sample texts that are not numbers. */
  lemma OtherExamples()
    ensures Classify("1.") == None
    ensures Classify("off") == Some(BoolVar(false))
    ensures Classify("x") == Some(StringVar("x"))
  {
    assert LeadingDigits("1.") == 1;
    assert LeadingDigits("off") == 0;
    assert LeadingDigits("x") == 0;
  }
}
