/**
 What the testnet runner's script does to the environment it hands the bot:
 the block of settings it unsets, what it exports after it, and what those
 exports expand. A script that passes the reading's checks leaves the bot no
 setting whose value is still the operator's own shell's.
 */
module Runners {
  import opened Types
  import opened ScriptLines
  import opened Scripts

  const UNSET := "unset \\"
  const LOG_FILTER := "RUST_LOG"

  datatype Runner = Runner(cleared: set<Name>, exported: set<Name>, everyMode: set<Name>, uses: seq<(Name, Name)>)

  // ----- the text ---------------------------------------------------------

  /** How many `if`s are open after these lines, if no `fi` is stray. */
  function Depth(text: seq<string>): Option<nat>
    decreases |text|
  {
    if text == [] then Some(0)
    else
      var last := text[|text| - 1];
      match Depth(text[..|text| - 1])
      case None => None
      case Some(depth) =>
        if "if " <= last then Some(depth + 1)
        else if last != "fi" then Some(depth)
        else if depth == 0 then None
        else Some(depth - 1)
  }

  predicate Continues(line: string) { line != "" && line[|line| - 1] == '\\' }

  function WithoutSlashes(line: string): string {
    if Continues(line) then WithoutSlashes(line[..|line| - 1]) else line
  }

  predicate IsSpace(c: char) { c == ' ' || c == '\t' }

  /** A line's words; `word` is the one being read. */
  function Words(word: string, line: string): set<string>
    decreases |line|
  {
    var kept := if word == "" then {} else {word};
    if line == "" then kept
    else if IsSpace(line[0]) then kept + Words("", line[1..])
    else Words(word + [line[0]], line[1..])
  }

  /** The names a run of lines of the block gives. */
  function Named(text: seq<string>): set<string>
    decreases |text|
  {
    if text == [] then {} else Named(text[..|text| - 1]) + Words("", WithoutSlashes(text[|text| - 1]))
  }

  /** Where the block begins: its first opening line, outside every `if`. */
  ghost predicate OpensAt(text: seq<string>, at: nat) {
    && at < |text| && text[at] == UNSET && (forall i :: 0 <= i < at ==> text[i] != UNSET)
    && Depth(text[..at]) == Some(0)
  }

  /** Where it ends: past the first line after it that does not continue, or with the text. */
  ghost predicate EndsAt(text: seq<string>, at: nat, end: nat) {
    && at < end <= |text| && (forall i :: at < i < end - 1 ==> Continues(text[i]))
    && (end < |text| ==> end > at + 1 && !Continues(text[end - 1]))
  }

  /** The lines up to the block, read one by one. */
  method FindBlock(text: seq<string>) returns (at: Option<nat>)
    ensures at.Some? ==> OpensAt(text, at.value)
    ensures at.None? ==> forall i :: 0 <= i < |text| ==> !OpensAt(text, i)
  {
    var depth := 0;
    for i := 0 to |text|
      invariant 0 <= depth && Depth(text[..i]) == Some(depth) && forall j :: 0 <= j < i ==> text[j] != UNSET
    {
      assert text[..i + 1][..i] == text[..i];
      if "if " <= text[i] {
        assert text[i][0] == "if "[0] != UNSET[0];
        depth := depth + 1;
      } else if text[i] == "fi" {
        if depth == 0 {
          StrayFi(text, i);
          return None;
        }
        depth := depth - 1;
      } else if text[i] == UNSET {
        if depth != 0 { return None; }
        return Some(i);
      }
    }
    at := None;
  }

  lemma {:induction false} DepthlessStays(text: seq<string>, i: nat)
    requires i <= |text| && Depth(text[..i]).None?
    ensures Depth(text).None?
    decreases |text|
  {
    if i < |text| {
      assert text[..|text| - 1][..i] == text[..i];
      DepthlessStays(text[..|text| - 1], i);
    } else {
      assert text[..i] == text;
    }
  }

  lemma StrayFi(text: seq<string>, i: nat)
    requires i < |text| && Depth(text[..i + 1]).None? && forall j :: 0 <= j <= i ==> text[j] != UNSET
    ensures forall at :: 0 <= at < |text| ==> !OpensAt(text, at)
  {
    forall at | 0 <= at < |text| ensures !OpensAt(text, at) {
      if i < at {
        assert text[..at][..i + 1] == text[..i + 1];
        DepthlessStays(text[..at], i + 1);
      }
    }
  }

  /** The block's own lines, and what they name. */
  method ReadBlock(text: seq<string>, at: nat) returns (cleared: set<string>, end: nat)
    requires at < |text|
    ensures EndsAt(text, at, end) && cleared == Named(text[at + 1..end])
  {
    cleared, end := {}, at + 1;
    while end < |text|
      invariant at < end <= |text| && cleared == Named(text[at + 1..end])
      invariant forall i :: at < i < end ==> Continues(text[i])
    {
      var line := text[end];
      assert text[at + 1..end + 1][..end - at - 1] == text[at + 1..end];
      cleared := cleared + Words("", WithoutSlashes(line));
      end := end + 1;
      if !Continues(line) { return; }
    }
  }

  /** There is one block, and it ends in one place. */
  lemma OneBlock(text: seq<string>, a: nat, b: nat, a': nat, b': nat)
    requires OpensAt(text, a) && EndsAt(text, a, b) && OpensAt(text, a') && EndsAt(text, a', b')
    ensures a == a' && b == b'
  {
    var last, last' := Continues(text[b - 1]), Continues(text[b' - 1]);
  }

  /** What the whole script comes to: what its block names, and the reading of everything after it. */
  function RunnerOf(text: seq<string>, at: nat, end: nat): Option<Runner>
    requires at < end <= |text|
  {
    var lines := LinesOf(text[end..]);
    match Read(lines)
    case None => None
    case Some(reading) =>
      Some(Runner(Named(text[at + 1..end]), reading.exported, reading.everyMode, UsesOf(lines)))
  }

  /** The whole script: the block first, and then everything after it; nothing, where no block opens. */
  method ReadRunner(text: seq<string>) returns (runner: Option<Runner>)
    ensures forall at: nat, end: nat :: OpensAt(text, at) && EndsAt(text, at, end) ==> runner == RunnerOf(text, at, end)
    ensures runner.Some? ==> exists at: nat, end: nat :: OpensAt(text, at) && EndsAt(text, at, end)
  {
    var found := FindBlock(text);
    if found.None? { return None; }
    var cleared, end := ReadBlock(text, found.value);
    forall a: nat, b: nat | OpensAt(text, a) && EndsAt(text, a, b) ensures a == found.value && b == end {
      OneBlock(text, a, b, found.value, end);
    }
    var read, uses := ReadScript(text[end..]);
    if read.None? { return None; }
    runner := Some(Runner(cleared, read.value.exported, read.value.everyMode, uses));
  }

  // ----- what the bot inherits --------------------------------------------

  /** One export made: its name, and the settings its value expands. */
  datatype Setting = Setting(name: Name, uses: seq<Name>)

  function NamesOf(path: seq<Setting>): set<Name> { set setting | setting in path :: setting.name }

  /** The exports a block may make, in order, one sequence for each way its branches can resolve. */
  ghost predicate MayRun(block: Block, path: seq<Setting>)
    decreases block
  {
    match block
    case End => path == []
    case Quiet(_, rest) => MayRun(rest, path)
    case Exports(name, uses, rest) => exists more :: MayRun(rest, more) && path == [Setting(name, uses)] + more
    case Branch(first, elses, rest) =>
      exists taken, more ::
        && (MayRun(first, taken) || MayRunArm(elses, taken) || (elses.NoMore? && taken == []))
        && MayRun(rest, more) && path == taken + more
  }

  ghost predicate MayRunArm(arms: Arms, path: seq<Setting>)
    decreases arms
  {
    match arms
    case NoMore => false
    case Arm(block, more) => MayRun(block, path) || MayRunArm(more, path)
  }

  /** The settings whose value still comes from `shell`, the settings it held, after these exports. */
  ghost function Inherited(shell: set<Name>, path: seq<Setting>): set<Name>
    decreases |path|
  {
    if path == [] then shell
    else
      var before, last := Inherited(shell, path[..|path| - 1]), path[|path| - 1];
      if exists name :: name in last.uses && name in before then before + {last.name} else before - {last.name}
  }

  /** What the script is held to, over the settings the bot reads. */
  ghost predicate Passes(runner: Runner, known: set<Name>) {
    && runner.cleared != {} && runner.cleared + runner.exported <= known
    && (forall pair :: pair in runner.uses && pair.1 in known ==>
          pair.1 in runner.cleared || pair == (LOG_FILTER, LOG_FILTER))
    && known <= runner.cleared + runner.everyMode
  }

  lemma NamesSplit(a: seq<Setting>, b: seq<Setting>)
    ensures NamesOf(a + b) == NamesOf(a) + NamesOf(b)
  {
    forall name ensures name in NamesOf(a + b) <==> name in NamesOf(a) + NamesOf(b) {
      if name in NamesOf(a) {
        var setting :| setting in a && setting.name == name;
        assert setting in a + b;
      }
      if name in NamesOf(b) {
        var setting :| setting in b && setting.name == name;
        assert setting in a + b;
      }
    }
  }

  /** What is run on some resolution is what is exported on it. */
  lemma {:induction false} RunsAreExports(block: Block, path: seq<Setting>)
    requires MayRun(block, path)
    ensures MayExport(block, NamesOf(path))
    decreases block
  {
    match block
    case End =>
    case Quiet(_, rest) => RunsAreExports(rest, path);
    case Exports(name, uses, rest) =>
      var more :| MayRun(rest, more) && path == [Setting(name, uses)] + more;
      RunsAreExports(rest, more);
      NamesSplit([Setting(name, uses)], more);
      assert NamesOf([Setting(name, uses)]) == {name} by { assert Setting(name, uses) in [Setting(name, uses)]; }
    case Branch(first, elses, rest) =>
      var taken, more :|
        && (MayRun(first, taken) || MayRunArm(elses, taken) || (elses.NoMore? && taken == []))
        && MayRun(rest, more) && path == taken + more;
      RunsAreExports(rest, more);
      NamesSplit(taken, more);
      if MayRun(first, taken) { RunsAreExports(first, taken); }
      else if MayRunArm(elses, taken) { ArmRunsAreExports(elses, taken); }
      assert MayExport(first, NamesOf(taken)) || MayTake(elses, NamesOf(taken))
        || (elses.NoMore? && NamesOf(taken) == {});
  }

  lemma {:induction false} ArmRunsAreExports(arms: Arms, path: seq<Setting>)
    requires MayRunArm(arms, path)
    ensures MayTake(arms, NamesOf(path))
    decreases arms
  {
    if MayRun(arms.block, path) { RunsAreExports(arms.block, path); } else { ArmRunsAreExports(arms.more, path); }
  }

  /** Every export run is a line of the block. */
  lemma {:induction false} RunsAreLines(block: Block, path: seq<Setting>, setting: Setting)
    requires MayRun(block, path) && setting in path
    ensures Export(setting.name, setting.uses) in Lines(block)
    decreases block
  {
    match block
    case Quiet(_, rest) => RunsAreLines(rest, path, setting);
    case Exports(name, uses, rest) =>
      var more :| MayRun(rest, more) && path == [Setting(name, uses)] + more;
      if setting in more { RunsAreLines(rest, more, setting); }
    case Branch(first, elses, rest) =>
      var taken, more :|
        && (MayRun(first, taken) || MayRunArm(elses, taken) || (elses.NoMore? && taken == []))
        && MayRun(rest, more) && path == taken + more;
      if setting in more { RunsAreLines(rest, more, setting); }
      else if MayRun(first, taken) { RunsAreLines(first, taken, setting); }
      else { ArmRunsAreLines(elses, taken, setting); }
  }

  lemma {:induction false} ArmRunsAreLines(arms: Arms, path: seq<Setting>, setting: Setting)
    requires MayRunArm(arms, path) && setting in path
    ensures Export(setting.name, setting.uses) in ElseLines(arms)
    decreases arms
  {
    if MayRun(arms.block, path) { RunsAreLines(arms.block, path, setting); }
    else { ArmRunsAreLines(arms.more, path, setting); }
  }

  lemma {:induction false} UsesAreListed(lines: seq<Line>, line: Line, name: Name)
    requires line in lines && line.Export? && name in line.uses
    ensures (line.name, name) in UsesOf(lines)
    decreases |lines|
  {
    var front, last := lines[..|lines| - 1], lines[|lines| - 1];
    assert lines == front + [last];
    if line in front {
      UsesAreListed(front, line, name);
    } else {
      var i :| 0 <= i < |line.uses| && line.uses[i] == name;
      assert Pairs(line.name, line.uses)[i] == (line.name, name);
    }
  }

  /** Each export on a path expands only what the block cleared, but for the log filter's own. */
  ghost predicate ExpandsCleared(cleared: set<Name>, known: set<Name>, path: seq<Setting>) {
    forall setting, name :: setting in path && name in setting.uses && name in known ==>
      name in cleared || (setting.name == LOG_FILTER && name == LOG_FILTER)
  }

  lemma {:induction false} InheritsNothingMore(cleared: set<Name>, known: set<Name>, path: seq<Setting>)
    requires ExpandsCleared(cleared, known, path)
    ensures Inherited(known - cleared, path) <= known - cleared
    ensures Inherited(known - cleared, path) <= (known - cleared - NamesOf(path)) + {LOG_FILTER}
    decreases |path|
  {
    if path != [] {
      var front, last := path[..|path| - 1], path[|path| - 1];
      assert path == front + [last];
      InheritsNothingMore(cleared, known, front);
      NamesSplit(front, [last]);
      assert NamesOf([last]) == {last.name} by { assert last in [last]; }
    }
  }

  /**
   However its branches resolve, a script that passes hands the bot no
   setting of the operator's shell's, but at most the log filter it keeps on
   purpose: neither left alone nor passed through another's value.
   */
  lemma NothingIsInherited(runner: Runner, lines: seq<Line>, block: Block, known: set<Name>, path: seq<Setting>)
    requires Read(lines).Some? && Plain(block) && Lines(block) == lines && MayRun(block, path)
    requires runner.everyMode == Read(lines).value.everyMode && runner.uses == UsesOf(lines)
    requires Passes(runner, known)
    ensures Inherited(known - runner.cleared, path) <= {LOG_FILTER}
  {
    forall setting, name | setting in path && name in setting.uses && name in known
      ensures name in runner.cleared || (setting.name == LOG_FILTER && name == LOG_FILTER)
    {
      RunsAreLines(block, path, setting);
      UsesAreListed(lines, Export(setting.name, setting.uses), name);
      assert (setting.name, name) in runner.uses;
    }
    InheritsNothingMore(runner.cleared, known, path);
    RunsAreExports(block, path);
    MustIsAlwaysExported(block, NamesOf(path));
    EveryModeIsExact(lines, block, LOG_FILTER);
  }
}
