/**
 The runner script's lines, by the shape the reading of it gives each: a
 branch or a `case` opened or closed, a setting exported, or anything else.
 */
module ScriptLines {
  import opened Types

  type Name = string

  /** One line; an export with the settings its value expands. */
  datatype Line =
    | If
    | Else
    | Fi
    | Elif
    | Case
    | Esac
    | Export(name: Name, uses: seq<Name>)
    | Other

  predicate IsUpper(c: char) { 'A' <= c <= 'Z' }

  predicate IsDigit(c: char) { '0' <= c <= '9' }

  predicate IsNameChar(c: char) { IsUpper(c) || 'a' <= c <= 'z' || IsDigit(c) || c == '_' }

  /** A setting's spelling: a capital, then capitals, digits and underscores. */
  predicate IsSetting(name: string) {
    name != "" && IsUpper(name[0]) && forall c :: c in name ==> IsUpper(c) || IsDigit(c) || c == '_'
  }

  /** The shell name a text begins with, as far as it goes. */
  function NameAt(text: string): string {
    if text == "" || !IsNameChar(text[0]) then "" else [text[0]] + NameAt(text[1..])
  }

  /** What a `$` in front of this text expands: a name, through an optional brace. */
  function ExpandedAt(text: string): string {
    NameAt(if text != "" && text[0] == '{' then text[1..] else text)
  }

  /** Every setting a value expands, in order. */
  function Expanded(value: string): seq<Name> {
    if value == "" then []
    else
      (if value[0] == '$' && IsSetting(ExpandedAt(value[1..])) then [ExpandedAt(value[1..])] else [])
        + Expanded(value[1..])
  }

  /** None is missed: a setting is expanded exactly when some `$` stands in front of it. */
  lemma {:induction false} ExpandedExactly(value: string, name: Name)
    ensures name in Expanded(value) <==>
      IsSetting(name) && exists i :: 0 <= i < |value| && value[i] == '$' && ExpandedAt(value[i + 1..]) == name
  {
    if value != "" {
      ExpandedExactly(value[1..], name);
      assert value[1..] == value[0 + 1..];
      forall i | 0 <= i < |value[1..]| ensures value[1..][i] == value[i + 1] && value[1..][i + 1..] == value[i + 2..] {}
      if IsSetting(name) && exists i :: 0 <= i < |value| && value[i] == '$' && ExpandedAt(value[i + 1..]) == name {
        var i :| 0 <= i < |value| && value[i] == '$' && ExpandedAt(value[i + 1..]) == name;
        if i > 0 { assert value[1..][i - 1] == '$' && value[1..][i - 1 + 1..] == value[i + 1..]; }
      }
      if exists i :: 0 <= i < |value[1..]| && value[1..][i] == '$' && ExpandedAt(value[1..][i + 1..]) == name {
        var i :| 0 <= i < |value[1..]| && value[1..][i] == '$' && ExpandedAt(value[1..][i + 1..]) == name;
        assert value[i + 1] == '$' && value[i + 1 + 1..] == value[1..][i + 1..];
      }
    }
  }

  /** A text up to its first `=` and after it, if it has one. */
  function SplitAtEquals(text: string): Option<(string, string)> {
    if text == "" then None
    else if text[0] == '=' then Some(("", text[1..]))
    else
      match SplitAtEquals(text[1..])
      case None => None
      case Some((name, value)) => Some(([text[0]] + name, value))
  }

  const EXPORT := "export "

  /** The setting a line exports and the value it gives it, if it exports one. */
  function ExportOf(line: string): Option<(Name, string)> {
    if !(EXPORT <= line) then None
    else
      match SplitAtEquals(line[|EXPORT|..])
      case None => None
      case Some((name, value)) => if IsSetting(name) then Some((name, value)) else None
  }

  /** The shape of one line, trimmed. */
  function LineOf(line: string): Line {
    if "if " <= line then If
    else if line == "else" then Else
    else if line == "fi" then Fi
    else if "elif " <= line then Elif
    else if "case " <= line then Case
    else if line == "esac" then Esac
    else
      match ExportOf(line)
      case Some((name, value)) => Export(name, Expanded(value))
      case None => Other
  }

  function LinesOf(text: seq<string>): (lines: seq<Line>)
    ensures |lines| == |text|
  {
    seq(|text|, i requires 0 <= i < |text| => LineOf(text[i]))
  }

  /** One export with each setting its value expands. */
  function Pairs(name: Name, uses: seq<Name>): seq<(Name, Name)> {
    seq(|uses|, i requires 0 <= i < |uses| => (name, uses[i]))
  }

  /** Every export's, in order. */
  function UsesOf(lines: seq<Line>): seq<(Name, Name)>
    decreases |lines|
  {
    if lines == [] then []
    else
      var last := lines[|lines| - 1];
      UsesOf(lines[..|lines| - 1]) + (if last.Export? then Pairs(last.name, last.uses) else [])
  }
}
