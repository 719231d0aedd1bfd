// `Config::save`: the configuration tree written back as text, one entry
// per line in map order, nested arrays in braces and indented two more
// spaces, and a "," line between neighbouring entries. A `Number` is written
// by the stream's double formatting, which is a parameter here.
module ConfigSave {
  import opened Wrappers
  import opened ConfigReflection

  /** The line written before every entry but the first. */
  function Separator(indent: string): string {
    indent + ",\n"
  }

  /** What `os << bool` writes without `boolalpha`. */
  function BoolText(b: bool): (r: string)
    ensures r == "1" <==> b
    ensures r == "0" <==> !b
  {
    if b then "1" else "0"
  }

  /** The text of the entries of an array, separators included: a
    * separator before an entry unless `first` holds for it; after any
    * entry `first` no longer holds. */
  function Render(es: seq<(string, Variable)>, indent: string, first: bool,
                  format: string -> string): (r: string)
    ensures r == "" <==> es == []
    decreases es
  {
    if es == [] then ""
    else
      (if first then "" else Separator(indent)) + EntryText(es[0], indent, format) +
      Render(es[1..], indent, false, format)
  }

  /** The text of one entry: a nested array opens with its name and a
    * brace, its entries are written two spaces further in, each starting
    * as the first, and a closing brace follows; a scalar is written on one
    * line after its name. */
  function EntryText(e: (string, Variable), indent: string, format: string -> string): (r: string)
    ensures |r| > |indent| && r[..|indent|] == indent && r[|r| - 1] == '\n'
    decreases e
  {
    var (name, v) := e;
    match v
    case ArrayVar(children) =>
      (indent + name + ":\n") + (indent + "{\n") +
      Render(children, indent + "  ", true, format) + (indent + "}\n")
    case NumberVar(lexeme) => (indent + name + ":") + (format(lexeme) + "\n")
    case StringVar(s) => (indent + name + ":") + ("\"" + s + "\"" + "\n")
    case BoolVar(b) => (indent + name + ":") + (BoolText(b) + "\n")
  }

  /** Reference definition: the entries' texts joined by separators. */
  function Joined(es: seq<(string, Variable)>, indent: string, format: string -> string): string {
    if es == [] then ""
    else if |es| == 1 then EntryText(es[0], indent, format)
    else EntryText(es[0], indent, format) + Separator(indent) + Joined(es[1..], indent, format)
  }

  lemma Regroup(a: string, b: string, c: string, d: string)
    ensures a + b + c + d == a + (b + c + d)
    ensures a + b + (c + d) == a + (b + c + d)
  {
  }

  /** The separators go exactly between neighbouring entries, plus one in
    * front when the first entry is not marked as first. */
  lemma {:induction false} RenderIsJoined(es: seq<(string, Variable)>, indent: string, first: bool,
                                          format: string -> string)
    ensures Render(es, indent, first, format) ==
      (if first || es == [] then "" else Separator(indent)) + Joined(es, indent, format)
    decreases |es|
  {
    if es != [] {
      var sep := if first then "" else Separator(indent);
      var head := EntryText(es[0], indent, format);
      RenderIsJoined(es[1..], indent, false, format);
      if |es| == 1 {
        assert es[1..] == [];
        assert Render(es, indent, first, format) == sep + head + "";
      } else {
        var tail := Joined(es[1..], indent, format);
        Regroup(sep, head, Separator(indent), tail);
        assert Render(es, indent, first, format) == sep + head + (Separator(indent) + tail);
      }
    }
  }

  lemma RenderHead(es: seq<(string, Variable)>, indent: string, first: bool, format: string -> string)
    requires es != []
    ensures Render(es, indent, first, format) ==
      (if first then "" else Separator(indent)) + EntryText(es[0], indent, format) +
      Render(es[1..], indent, false, format)
  {
  }

  lemma Regroup3(a: string, b: string, c: string)
    ensures a + (b + c) == a + b + c
  {
  }

  /** The text of the entries splits at any entry: what precedes it, then
    * the entry with its separator. */
  lemma {:induction false} RenderSplit(es: seq<(string, Variable)>, indent: string, first: bool,
                                       format: string -> string, i: nat)
    requires i < |es|
    ensures Render(es, indent, first, format) ==
      Render(es[..i], indent, first, format) +
      Render(es[i..], indent, first && i == 0, format)
    decreases i
  {
    if i > 0 {
      RenderSplit(es[1..], indent, false, format, i - 1);
      assert es[1..][..i - 1] == es[..i][1..];
      assert es[1..][i - 1..] == es[i..];
      RenderHead(es, indent, first, format);
      RenderHead(es[..i], indent, first, format);
      assert es[..i][0] == es[0];
      var a := Render(es[..i][1..], indent, false, format);
      var b := Render(es[i..], indent, false, format);
      Regroup3((if first then "" else Separator(indent)) + EntryText(es[0], indent, format), a, b);
    } else {
      assert es[..0] == [];
    }
  }

  /** `std::string::erase(length() - 2, ...)`: the position wraps around as
    * a `size_t`, and a position past the end throws `out_of_range`. */
  function EraseLastTwo(s: string): (r: Option<string>)
    requires |s| < 0x1_0000_0000_0000_0000
    ensures r.Some? <==> |s| >= 2
    ensures r.Some? ==> s == r.value + s[|s| - 2..]
  {
    var pos := (|s| - 2) % 0x1_0000_0000_0000_0000;
    if pos > |s| then None else Some(s[..pos])
  }

  /** The loop over one array, as written, minus the final erase: `first`
    * is updated in place, and after any entry it no longer holds. */
  method Save(es: seq<(string, Variable)>, indent: string, first: bool, format: string -> string)
    returns (text: string)
    ensures text == Render(es, indent, first, format)
    decreases es, 1
  {
    text := "";
    var fst := first;
    var i := 0;
    while i < |es|
      invariant 0 <= i <= |es| && (i > 0 ==> !fst) && (i == 0 ==> fst == first)
      invariant text + Render(es[i..], indent, fst, format) == Render(es, indent, first, format)
    {
      assert es[i..][0] == es[i] && es[i..][1..] == es[i + 1..];
      var sep, entry := SaveEntry(es[i], indent, fst, format);
      Regroup(text, sep, entry, Render(es[i + 1..], indent, false, format));
      text := text + sep + entry;
      fst := false;
      i := i + 1;
    }
    assert es[i..] == [];
  }

  /** The body of the loop for one entry: the separator written unless
    * `first` holds, then the entry; a nested array is written by a
    * recursive call with the indent two spaces longer, which starts as the
    * first. */
  method SaveEntry(e: (string, Variable), indent: string, first: bool, format: string -> string)
    returns (sep: string, text: string)
    ensures sep == (if first then "" else Separator(indent))
    ensures text == EntryText(e, indent, format)
    decreases e, 0
  {
    var (name, v) := e;
    var ind, fst := indent, first;
    sep := "";
    if v.ArrayVar? {
      if !fst {
        sep := ind + ",\n";
        fst := true;
      }
      text := ind + name + ":\n";
      text := text + (ind + "{\n");
      ind := ind + "  ";
      var inner := Save(v.entries, ind, fst, format);
      text := text + inner;
      ind := ind[..|ind| - 2];
      assert ind == indent;
      text := text + (ind + "}\n");
      fst := false;
    } else {
      if !fst {
        sep := ind + ",\n";
      } else {
        fst := false;
      }
      text := ind + name + ":";
      match v
      case NumberVar(lexeme) =>
        text := text + (format(lexeme) + "\n");
      case StringVar(s) =>
        text := text + ("\"" + s + "\"" + "\n");
      case BoolVar(b) =>
        text := text + (BoolText(b) + "\n");
    }
  }

  /** `save` as written: the loop, then the final erase of the call's own
    * indent, which throws for an indent shorter than two characters after
    * all the text has been written. */
  method SaveAsWritten(es: seq<(string, Variable)>, indent: string, first: bool,
                       format: string -> string)
    returns (text: string, thrown: bool)
    requires |indent| < 0x1_0000_0000_0000_0000
    ensures text == Render(es, indent, first, format)
    ensures thrown <==> |indent| < 2
  {
    text := Save(es, indent, first, format);
    var erased := EraseLastTwo(indent);
    thrown := erased.None?;
  }

  /** The top-level call with an empty indent writes the whole text and
    * then throws. */
  lemma TopLevelEraseThrows()
    ensures EraseLastTwo("") == None
    ensures EraseLastTwo(" ") == None
    ensures EraseLastTwo("  ") == Some("")
  {
    assert (0 - 2) % 0x1_0000_0000_0000_0000 == 0xFFFF_FFFF_FFFF_FFFE;
  }
}
