/**
 The reading of the runner script: which settings it exports in every mode.
 One pass over the lines keeps, per arm of every `if` still open, the names
 that arm exported on every path so far. What it computes is the set of
 names exported on every resolution of the script's branches.
 */
module Scripts {
  import opened Types
  import opened ScriptLines

  // ----- the one-pass reading ---------------------------------------------

  /** One `if` still open: what each of its arms exported so far, the last one being read. */
  datatype Frame = Frame(arms: seq<set<Name>>, hasElse: bool) {
    predicate Valid() { arms != [] && (hasElse <==> |arms| > 1) }
  }

  datatype Reading = Reading(open: seq<Frame>, everyMode: set<Name>, exported: set<Name>, inCase: nat) {
    predicate Valid() { forall i :: 0 <= i < |open| ==> open[i].Valid() }

    /** Names exported on every path of the arm being read, or of the script outside any `if`. */
    function Adding(names: set<Name>): Reading
      requires Valid()
    {
      if open == [] then this.(everyMode := everyMode + names)
      else
        var top := open[|open| - 1];
        var arm := |top.arms| - 1;
        this.(open := open[|open| - 1 := top.(arms := top.arms[arm := top.arms[arm] + names])])
    }
  }

  const UNREAD := Reading([], {}, {}, 0)

  /** The names every one of these arms exports. */
  function Common(arms: seq<set<Name>>): set<Name>
    requires arms != []
  {
    if |arms| == 1 then arms[0] else Common(arms[..|arms| - 1]) * arms[|arms| - 1]
  }

  /** What a closed `if` exports on every path: nothing unless it has an `else` and every arm agrees. */
  function Made(frame: Frame): set<Name>
    requires frame.Valid()
  {
    if frame.hasElse then Common(frame.arms) else {}
  }

  /** One line read, or none for a shape this reading does not follow. */
  function ReadLine(reading: Reading, line: Line): (next: Option<Reading>)
    requires reading.Valid()
    ensures next.Some? ==> next.value.Valid()
  {
    match line
    case If => Some(reading.(open := reading.open + [Frame([{}], false)]))
    case Else =>
      if reading.open == [] then None
      else
        var top := reading.open[|reading.open| - 1];
        Some(reading.(open := reading.open[|reading.open| - 1 := Frame(top.arms + [{}], true)]))
    case Fi =>
      if reading.open == [] then None
      else
        var top := reading.open[|reading.open| - 1];
        var outer := reading.(open := reading.open[..|reading.open| - 1]);
        assert outer.Valid();
        Some(outer.Adding(Made(top)))
    case Elif => None
    case Case => Some(reading.(inCase := reading.inCase + 1))
    case Esac => if reading.inCase == 0 then None else Some(reading.(inCase := reading.inCase - 1))
    case Export(name, _) =>
      if reading.inCase > 0 then None
      else Some(reading.Adding({name}).(exported := reading.exported + {name}))
    case Other => Some(reading)
  }

  function ReadLines(reading: Reading, lines: seq<Line>): (next: Option<Reading>)
    requires reading.Valid()
    ensures next.Some? ==> next.value.Valid()
    decreases |lines|
  {
    if lines == [] then Some(reading)
    else
      match ReadLine(reading, lines[0])
      case None => None
      case Some(next) => ReadLines(next, lines[1..])
  }

  /** The whole reading; none where it would not follow the script, or an `if` has no `fi`. */
  function Read(lines: seq<Line>): Option<Reading> {
    match ReadLines(UNREAD, lines)
    case None => None
    case Some(reading) => if reading.open == [] then Some(reading) else None
  }

  /**
   The reading as the loop makes it, line by line of the text, over a stack
   it updates in place; and every setting that some export's value expands.
   */
  method ReadScript(text: seq<string>) returns (read: Option<Reading>, uses: seq<(Name, Name)>)
    ensures read == Read(LinesOf(text))
    ensures read.Some? ==> uses == UsesOf(LinesOf(text))
  {
    var open: seq<Frame>, everyMode: set<Name>, exported: set<Name>, inCase: nat := [], {}, {}, 0;
    ghost var lines := LinesOf(text);
    uses := [];
    for i := 0 to |text|
      invariant Reading(open, everyMode, exported, inCase).Valid()
      invariant ReadLines(UNREAD, lines) == ReadLines(Reading(open, everyMode, exported, inCase), lines[i..])
      invariant uses == UsesOf(lines[..i])
    {
      assert lines[i..][0] == lines[i] && lines[i..][1..] == lines[i + 1..];
      assert lines[..i + 1][..i] == lines[..i];
      var line := LineOf(text[i]);
      if line.Export? { uses := uses + Pairs(line.name, line.uses); }
      var ok;
      ok, open, everyMode, exported, inCase := TakeLine(open, everyMode, exported, inCase, line);
      if !ok { return None, uses; }
    }
    assert lines[..|lines|] == lines;
    if open != [] { return None, uses; }
    read := Some(Reading(open, everyMode, exported, inCase));
  }

  /** One line, or none of it for a shape the reading does not follow. */
  method TakeLine(open: seq<Frame>, everyMode: set<Name>, exported: set<Name>, inCase: nat, line: Line)
    returns (ok: bool, open': seq<Frame>, everyMode': set<Name>, exported': set<Name>, inCase': nat)
    requires Reading(open, everyMode, exported, inCase).Valid()
    ensures ReadLine(Reading(open, everyMode, exported, inCase), line)
         == if ok then Some(Reading(open', everyMode', exported', inCase')) else None
  {
    ok, open', everyMode', exported', inCase' := true, open, everyMode, exported, inCase;
    var last := |open| - 1;
    match line {
      case If => open' := open + [Frame([{}], false)];
      case Else =>
        ok := open != [];
        if ok { open' := open[last := Frame(open[last].arms + [{}], true)]; }
      case Fi =>
        ok := open != [];
        if ok {
          var made := MadeBy(open[last]);
          open', everyMode' := Extend(open[..last], everyMode, made);
        }
      case Elif => ok := false;
      case Case => inCase' := inCase + 1;
      case Esac =>
        ok := inCase != 0;
        if ok { inCase' := inCase - 1; }
      case Export(name, _) =>
        ok := inCase == 0;
        if ok {
          exported' := exported + {name};
          open', everyMode' := Extend(open, everyMode, {name});
        }
      case Other =>
    }
  }

  /** Folds the arms' sets into what all of them made. */
  method MadeBy(frame: Frame) returns (made: set<Name>)
    requires frame.Valid()
    ensures made == Made(frame)
  {
    if !frame.hasElse { return {}; }
    made := frame.arms[0];
    for i := 1 to |frame.arms|
      invariant made == Common(frame.arms[..i])
    {
      assert frame.arms[..i + 1][..i] == frame.arms[..i];
      made := made * frame.arms[i];
    }
    assert frame.arms[..|frame.arms|] == frame.arms;
  }

  method Extend(open: seq<Frame>, everyMode: set<Name>, names: set<Name>)
    returns (open': seq<Frame>, everyMode': set<Name>)
    requires forall i :: 0 <= i < |open| ==> open[i].Valid()
    ensures Reading(open', everyMode', {}, 0) == Reading(open, everyMode, {}, 0).Adding(names)
  {
    open', everyMode' := open, everyMode;
    if open == [] {
      everyMode' := everyMode + names;
    } else {
      var top := open[|open| - 1];
      var arm := |top.arms| - 1;
      open' := open[|open| - 1 := top.(arms := top.arms[arm := top.arms[arm] + names])];
    }
  }

  // ----- the script as a tree, and what it can export ---------------------

  /** A run of lines: quiet ones, exports, and branches with a first arm and any arms behind an `else`. */
  datatype Block =
    | End
    | Quiet(line: Line, rest: Block)
    | Exports(name: Name, uses: seq<Name>, rest: Block)
    | Branch(first: Block, elses: Arms, rest: Block)

  datatype Arms = NoMore | Arm(block: Block, more: Arms)

  /** The lines of a block, in order. */
  function Lines(block: Block): seq<Line>
    decreases block
  {
    match block
    case End => []
    case Quiet(line, rest) => [line] + Lines(rest)
    case Exports(name, uses, rest) => [Export(name, uses)] + Lines(rest)
    case Branch(first, elses, rest) => [If] + Lines(first) + ElseLines(elses) + [Fi] + Lines(rest)
  }

  function ElseLines(arms: Arms): seq<Line>
    decreases arms
  {
    match arms
    case NoMore => []
    case Arm(block, more) => [Else] + Lines(block) + ElseLines(more)
  }

  /** Quiet lines are the ones that neither branch nor export. */
  predicate Plain(block: Block)
    decreases block
  {
    match block
    case End => true
    case Quiet(line, rest) => (line.Other? || line.Case? || line.Esac?) && Plain(rest)
    case Exports(_, _, rest) => Plain(rest)
    case Branch(first, elses, rest) => Plain(first) && PlainArms(elses) && Plain(rest)
  }

  predicate PlainArms(arms: Arms)
    decreases arms
  {
    match arms
    case NoMore => true
    case Arm(block, more) => Plain(block) && PlainArms(more)
  }

  /**
   The sets of names a block may export, one for each way its branches can
   resolve: an `if` takes one of its arms, and one with no `else` may take
   none.
   */
  ghost predicate MayExport(block: Block, names: set<Name>)
    decreases block
  {
    match block
    case End => names == {}
    case Quiet(_, rest) => MayExport(rest, names)
    case Exports(name, _, rest) => exists more :: MayExport(rest, more) && names == {name} + more
    case Branch(first, elses, rest) =>
      exists taken, more ::
        && (MayExport(first, taken) || MayTake(elses, taken) || (elses.NoMore? && taken == {}))
        && MayExport(rest, more) && names == taken + more
  }

  ghost predicate MayTake(arms: Arms, names: set<Name>)
    decreases arms
  {
    match arms
    case NoMore => false
    case Arm(block, more) => MayExport(block, names) || MayTake(more, names)
  }

  /** What the reading makes of a block: the names exported on every path, by recursion on the tree. */
  function Must(block: Block): set<Name>
    decreases block
  {
    match block
    case End => {}
    case Quiet(_, rest) => Must(rest)
    case Exports(name, _, rest) => {name} + Must(rest)
    case Branch(first, elses, rest) =>
      (if elses.NoMore? then {} else Must(first) * MustArms(elses)) + Must(rest)
  }

  function MustArms(arms: Arms): set<Name>
    requires arms.Arm?
    decreases arms
  {
    if arms.more.NoMore? then Must(arms.block) else Must(arms.block) * MustArms(arms.more)
  }

  /** Every block can resolve somehow. */
  lemma {:induction false} SomethingIsExported(block: Block) returns (names: set<Name>)
    ensures MayExport(block, names)
    decreases block
  {
    match block
    case End => names := {};
    case Quiet(_, rest) => names := SomethingIsExported(rest);
    case Exports(name, _, rest) =>
      var more := SomethingIsExported(rest);
      names := {name} + more;
    case Branch(first, _, rest) =>
      var taken := SomethingIsExported(first);
      var more := SomethingIsExported(rest);
      names := taken + more;
  }

  /** A name in the must-set is exported however the branches resolve. */
  lemma {:induction false} MustIsAlwaysExported(block: Block, names: set<Name>)
    requires MayExport(block, names)
    ensures Must(block) <= names
    decreases block
  {
    match block
    case End =>
    case Quiet(_, rest) => MustIsAlwaysExported(rest, names);
    case Exports(name, _, rest) =>
      var more :| MayExport(rest, more) && names == {name} + more;
      MustIsAlwaysExported(rest, more);
    case Branch(first, elses, rest) =>
      var taken, more :|
        && (MayExport(first, taken) || MayTake(elses, taken) || (elses.NoMore? && taken == {}))
        && MayExport(rest, more) && names == taken + more;
      MustIsAlwaysExported(rest, more);
      if MayExport(first, taken) { MustIsAlwaysExported(first, taken); }
      else if MayTake(elses, taken) { MustIsAlwaysTaken(elses, taken); }
  }

  lemma {:induction false} MustIsAlwaysTaken(arms: Arms, names: set<Name>)
    requires MayTake(arms, names)
    ensures MustArms(arms) <= names
    decreases arms
  {
    if MayExport(arms.block, names) { MustIsAlwaysExported(arms.block, names); }
    else { MustIsAlwaysTaken(arms.more, names); }
  }

  /** And a name outside it is missed by some resolution. */
  lemma {:induction false} OthersAreSometimesMissed(block: Block, name: Name) returns (names: set<Name>)
    requires name !in Must(block)
    ensures MayExport(block, names) && name !in names
    decreases block
  {
    match block
    case End => names := {};
    case Quiet(_, rest) => names := OthersAreSometimesMissed(rest, name);
    case Exports(exported, _, rest) =>
      var more := OthersAreSometimesMissed(rest, name);
      names := {exported} + more;
    case Branch(first, elses, rest) =>
      var more := OthersAreSometimesMissed(rest, name);
      var taken: set<Name> := {};
      if name !in Must(first) { taken := OthersAreSometimesMissed(first, name); }
      else if elses.Arm? { taken := OthersAreSometimesNotTaken(elses, name); }
      names := taken + more;
  }

  lemma {:induction false} OthersAreSometimesNotTaken(arms: Arms, name: Name) returns (names: set<Name>)
    requires arms.Arm? && name !in MustArms(arms)
    ensures MayTake(arms, names) && name !in names
    decreases arms
  {
    if name !in Must(arms.block) { names := OthersAreSometimesMissed(arms.block, name); }
    else { names := OthersAreSometimesNotTaken(arms.more, name); }
  }

  /** The must-set is exactly the names exported on every resolution of the branches. */
  lemma MustIsExact(block: Block, name: Name)
    ensures name in Must(block) <==> forall names :: MayExport(block, names) ==> name in names
  {
    if name in Must(block) {
      forall names | MayExport(block, names) ensures name in names { MustIsAlwaysExported(block, names); }
    } else {
      var names := OthersAreSometimesMissed(block, name);
    }
  }

  // ----- the reading of a script is its must-set --------------------------

  /** Every name a block exports in some mode. */
  function AllNames(block: Block): set<Name>
    decreases block
  {
    match block
    case End => {}
    case Quiet(_, rest) => AllNames(rest)
    case Exports(name, _, rest) => {name} + AllNames(rest)
    case Branch(first, elses, rest) => AllNames(first) + AllArmNames(elses) + AllNames(rest)
  }

  function AllArmNames(arms: Arms): set<Name>
    decreases arms
  {
    match arms
    case NoMore => {}
    case Arm(block, more) => AllNames(block) + AllArmNames(more)
  }

  /** How deep in `case` blocks the lines end, if no `esac` is stray and no export is inside one. */
  function CaseDepth(lines: seq<Line>, depth: nat): Option<nat>
    decreases |lines|
  {
    if lines == [] then Some(depth)
    else
      match lines[0]
      case Case => CaseDepth(lines[1..], depth + 1)
      case Esac => if depth == 0 then None else CaseDepth(lines[1..], depth - 1)
      case Export(_, _) => if depth > 0 then None else CaseDepth(lines[1..], depth)
      case _ => CaseDepth(lines[1..], depth)
  }

  lemma {:induction false} CaseDepthSplits(a: seq<Line>, b: seq<Line>, depth: nat)
    ensures CaseDepth(a + b, depth) ==
      match CaseDepth(a, depth)
      case None => None
      case Some(deeper) => CaseDepth(b, deeper)
    decreases |a|
  {
    if a == [] {
      assert a + b == b;
    } else {
      assert (a + b)[1..] == a[1..] + b;
      match a[0] {
        case Case => CaseDepthSplits(a[1..], b, depth + 1);
        case Esac => if depth > 0 { CaseDepthSplits(a[1..], b, depth - 1); }
        case _ => CaseDepthSplits(a[1..], b, depth);
      }
    }
  }

  lemma {:induction false} LinesSplit(reading: Reading, a: seq<Line>, b: seq<Line>)
    requires reading.Valid()
    ensures ReadLines(reading, a + b) ==
      match ReadLines(reading, a)
      case None => None
      case Some(next) => ReadLines(next, b)
    decreases |a|
  {
    if a == [] {
      assert a + b == b;
    } else {
      assert (a + b)[1..] == a[1..] + b && (a + b)[0] == a[0];
      var next := ReadLine(reading, a[0]);
      if next.Some? { LinesSplit(next.value, a[1..], b); }
    }
  }

  /** The reading after a block that exports `must` on every path and `all` on some. */
  function Past(reading: Reading, must: set<Name>, all: set<Name>, depth: nat): (past: Reading)
    requires reading.Valid()
    ensures past.Valid()
  {
    reading.Adding(must).(exported := reading.exported + all, inCase := depth)
  }

  lemma AddingTwice(reading: Reading, a: set<Name>, b: set<Name>)
    requires reading.Valid()
    ensures reading.Adding(a).Valid() && reading.Adding(a).Adding(b) == reading.Adding(a + b)
  {
    if reading.open != [] {
      var last := |reading.open| - 1;
      var top := reading.open[last];
      var arm := |top.arms| - 1;
      assert top.arms[arm] + a + b == top.arms[arm] + (a + b);
      assert top.arms[arm := top.arms[arm] + a][arm := top.arms[arm] + a + b]
          == top.arms[arm := top.arms[arm] + (a + b)];
      assert reading.Adding(a).Adding(b).open == reading.Adding(a + b).open;
    } else {
      assert reading.everyMode + a + b == reading.everyMode + (a + b);
    }
  }

  lemma AddingNothing(reading: Reading)
    requires reading.Valid()
    ensures reading.Adding({}) == reading
  {
    if reading.open != [] {
      var last := |reading.open| - 1;
      var top := reading.open[last];
      assert top.arms[|top.arms| - 1] + {} == top.arms[|top.arms| - 1];
      assert top.arms[|top.arms| - 1 := top.arms[|top.arms| - 1]] == top.arms;
      assert reading.open[last := top] == reading.open;
    } else {
      assert reading.everyMode + {} == reading.everyMode;
    }
  }

  lemma PastTwice(reading: Reading, must: set<Name>, all: set<Name>, depth: nat, must': set<Name>, all': set<Name>,
                  depth': nat)
    requires reading.Valid()
    ensures Past(Past(reading, must, all, depth), must', all', depth')
         == Past(reading, must + must', all + all', depth')
  {
    AddingTwice(reading, must, must');
    assert reading.exported + all + all' == reading.exported + (all + all');
    assert Past(reading, must, all, depth).Adding(must')
        == reading.Adding(must).Adding(must').(exported := reading.exported + all, inCase := depth);
  }

  /** The reading crosses a block by adding its must-set where it is. */
  lemma {:induction false} BlockIsRead(block: Block, reading: Reading)
    requires Plain(block) && reading.Valid() && CaseDepth(Lines(block), reading.inCase).Some?
    ensures ReadLines(reading, Lines(block))
         == Some(Past(reading, Must(block), AllNames(block), CaseDepth(Lines(block), reading.inCase).value))
    decreases block, 1
  {
    match block
    case End =>
      AddingNothing(reading);
      assert reading.exported + {} == reading.exported;
    case Quiet(line, rest) =>
      var lines := Lines(block);
      assert lines[0] == line && lines[1..] == Lines(rest);
      var next := ReadLine(reading, line).value;
      BlockIsRead(rest, next);
      assert next.Adding(Must(rest)) == reading.Adding(Must(rest)).(inCase := next.inCase);
    case Exports(name, uses, rest) =>
      var lines := Lines(block);
      assert lines[0] == Export(name, uses) && lines[1..] == Lines(rest);
      var next := ReadLine(reading, Export(name, uses)).value;
      assert next == Past(reading, {name}, {name}, reading.inCase);
      BlockIsRead(rest, next);
      PastTwice(reading, {name}, {name}, reading.inCase, Must(rest), AllNames(rest),
                CaseDepth(lines, reading.inCase).value);
    case Branch(first, elses, rest) =>
      BranchIsRead(block, reading);
  }

  /** The arms' own must-sets. */
  function ArmSets(arms: Arms): seq<set<Name>>
    decreases arms
  {
    match arms
    case NoMore => []
    case Arm(block, more) => [Must(block)] + ArmSets(more)
  }

  lemma {:induction false} CommonIsMust(front: seq<set<Name>>, arms: Arms)
    requires front != []
    ensures Common(front + ArmSets(arms)) == if arms.NoMore? then Common(front) else Common(front) * MustArms(arms)
    decreases arms
  {
    match arms
    case NoMore => assert front + [] == front;
    case Arm(block, more) =>
      var longer := front + [Must(block)];
      assert front + ArmSets(arms) == longer + ArmSets(more);
      assert longer[..|longer| - 1] == front;
      CommonIsMust(longer, more);
      assert more.Arm? ==>
        Common(front) * Must(block) * MustArms(more) == Common(front) * (Must(block) * MustArms(more));
  }

  /** The reading crosses the arms behind an `else` by putting each one's must-set beside the others. */
  lemma {:induction false} ArmsAreRead(arms: Arms, reading: Reading)
    requires PlainArms(arms) && reading.Valid() && reading.open != []
    requires CaseDepth(ElseLines(arms), reading.inCase).Some?
    ensures var top := reading.open[|reading.open| - 1];
      ReadLines(reading, ElseLines(arms)) == Some(reading.(
        open := reading.open[|reading.open| - 1 := Frame(top.arms + ArmSets(arms), top.hasElse || arms.Arm?)],
        exported := reading.exported + AllArmNames(arms),
        inCase := CaseDepth(ElseLines(arms), reading.inCase).value))
    decreases arms, 1
  {
    var last := |reading.open| - 1;
    var top := reading.open[last];
    match arms
    case NoMore =>
      assert top.arms + [] == top.arms && reading.exported + {} == reading.exported;
      assert reading.open[last := top] == reading.open;
    case Arm(block, more) =>
      assert ElseLines(arms) == [Else] + (Lines(block) + ElseLines(more));
      assert ElseLines(arms)[1..] == Lines(block) + ElseLines(more);
      CaseDepthSplits(Lines(block), ElseLines(more), reading.inCase);
      var depth := CaseDepth(Lines(block), reading.inCase).value;
      ArmIsRead(block, reading, ElseLines(more), depth);
      var next := Armed(reading, block, depth);
      ArmsAreRead(more, next);
      assert top.arms + [Must(block)] + ArmSets(more) == top.arms + ArmSets(arms);
      assert reading.exported + AllNames(block) + AllArmNames(more) == reading.exported + AllArmNames(arms);
      assert next.open[last := Frame(top.arms + ArmSets(arms), true)]
          == reading.open[last := Frame(top.arms + ArmSets(arms), true)];
  }

  /** Past an `else` and its arm: the innermost branch has one arm more, and an `else`. */
  function Armed(reading: Reading, block: Block, depth: nat): Reading
    requires reading.open != []
  {
    var last := |reading.open| - 1;
    reading.(open := reading.open[last := Frame(reading.open[last].arms + [Must(block)], true)],
             exported := reading.exported + AllNames(block),
             inCase := depth)
  }

  lemma {:induction false} ArmIsRead(block: Block, reading: Reading, tail: seq<Line>, depth: nat)
    requires Plain(block) && reading.Valid() && reading.open != []
    requires CaseDepth(Lines(block), reading.inCase) == Some(depth)
    ensures Armed(reading, block, depth).Valid()
    ensures ReadLines(reading, [Else] + (Lines(block) + tail)) == ReadLines(Armed(reading, block, depth), tail)
    decreases block, 2
  {
    var last := |reading.open| - 1;
    var top := reading.open[last];
    var begun := ReadLine(reading, Else).value;
    assert ([Else] + (Lines(block) + tail))[1..] == Lines(block) + tail;
    LinesSplit(begun, Lines(block), tail);
    BlockIsRead(block, begun);
    assert {} + Must(block) == Must(block);
    assert (top.arms + [{}])[|top.arms| := Must(block)] == top.arms + [Must(block)];
    assert Past(begun, Must(block), AllNames(block), depth).open == Armed(reading, block, depth).open;
  }

  /** Past an `if` and its first arm: a branch is open, with one arm read. */
  function Opened(reading: Reading, first: Block, depth: nat): Reading {
    reading.(open := reading.open + [Frame([Must(first)], false)],
             exported := reading.exported + AllNames(first),
             inCase := depth)
  }

  /** Past its other arms: the branch is still open, with all of them read. */
  function Elsed(reading: Reading, first: Block, elses: Arms, depth: nat): Reading {
    reading.(open := reading.open + [Frame([Must(first)] + ArmSets(elses), elses.Arm?)],
             exported := reading.exported + (AllNames(first) + AllArmNames(elses)),
             inCase := depth)
  }

  lemma {:induction false} FirstIsRead(first: Block, reading: Reading, tail: seq<Line>, depth: nat)
    requires Plain(first) && reading.Valid() && CaseDepth(Lines(first), reading.inCase) == Some(depth)
    ensures Opened(reading, first, depth).Valid()
    ensures ReadLines(reading, [If] + (Lines(first) + tail)) == ReadLines(Opened(reading, first, depth), tail)
    decreases first, 2
  {
    var begun := ReadLine(reading, If).value;
    assert ([If] + (Lines(first) + tail))[1..] == Lines(first) + tail;
    LinesSplit(begun, Lines(first), tail);
    BlockIsRead(first, begun);
    assert {} + Must(first) == Must(first) && [{}][0 := Must(first)] == [Must(first)];
    assert Past(begun, Must(first), AllNames(first), depth).open == reading.open + [Frame([Must(first)], false)];
  }

  lemma {:induction false} ElsesAreRead(first: Block, elses: Arms, reading: Reading, tail: seq<Line>, before: nat,
                                        depth: nat)
    requires PlainArms(elses) && Opened(reading, first, before).Valid() && reading.Valid()
    requires CaseDepth(ElseLines(elses), before) == Some(depth)
    ensures Elsed(reading, first, elses, depth).Valid()
    ensures ReadLines(Opened(reading, first, before), ElseLines(elses) + tail)
         == ReadLines(Elsed(reading, first, elses, depth), tail)
    decreases elses, 2
  {
    var one, two := Opened(reading, first, before), Elsed(reading, first, elses, depth);
    LinesSplit(one, ElseLines(elses), tail);
    ArmsAreRead(elses, one);
    assert one.open[|reading.open| := two.open[|reading.open|]] == two.open;
    assert one.exported + AllArmNames(elses) == two.exported;
  }

  /** The `fi` closes the branch, adding what its arms have in common. */
  lemma FiIsRead(block: Block, reading: Reading, depth: nat, rest: seq<Line>)
    requires block.Branch? && reading.Valid() && Elsed(reading, block.first, block.elses, depth).Valid()
    ensures var made := Made(Frame([Must(block.first)] + ArmSets(block.elses), block.elses.Arm?));
      ReadLines(Elsed(reading, block.first, block.elses, depth), [Fi] + rest)
        == ReadLines(Past(reading, made, AllNames(block.first) + AllArmNames(block.elses), depth), rest)
  {
    var two := Elsed(reading, block.first, block.elses, depth);
    assert two.open[|reading.open|].Valid();
    assert two.open[..|reading.open|] == reading.open && ([Fi] + rest)[1..] == rest;
  }

  /** And a whole `if` by adding what its arms have in common, or nothing without an `else`. */
  lemma {:induction false} BranchIsRead(block: Block, reading: Reading)
    requires block.Branch? && Plain(block) && reading.Valid() && CaseDepth(Lines(block), reading.inCase).Some?
    ensures ReadLines(reading, Lines(block))
         == Some(Past(reading, Must(block), AllNames(block), CaseDepth(Lines(block), reading.inCase).value))
    decreases block, 0
  {
    var first, elses, rest := Lines(block.first), ElseLines(block.elses), Lines(block.rest);
    var tail := [Fi] + rest;
    assert Lines(block) == [If] + (first + (elses + tail));
    assert Lines(block)[1..] == first + (elses + tail) && tail[1..] == rest;
    CaseDepthSplits(first, elses + tail, reading.inCase);
    var d1 := CaseDepth(first, reading.inCase).value;
    CaseDepthSplits(elses, tail, d1);
    var d2 := CaseDepth(elses, d1).value;
    FirstIsRead(block.first, reading, elses + tail, d1);
    ElsesAreRead(block.first, block.elses, reading, tail, d1, d2);
    FiIsRead(block, reading, d2, rest);
    CommonIsMust([Must(block.first)], block.elses);
    var made := Made(Frame([Must(block.first)] + ArmSets(block.elses), block.elses.Arm?));
    var all := AllNames(block.first) + AllArmNames(block.elses);
    BlockIsRead(block.rest, Past(reading, made, all, d2));
    PastTwice(reading, made, all, d2, Must(block.rest), AllNames(block.rest), CaseDepth(rest, d2).value);
  }

  // ----- every script read is a tree --------------------------------------

  /** Lines that close `depth` open branches: the rest of an arm, any further arms, its `fi`, and so on out. */
  ghost predicate Closes(lines: seq<Line>, depth: nat)
    decreases depth
  {
    if depth == 0 then exists block :: Plain(block) && Lines(block) == lines
    else
      exists block, arms, rest ::
        && Plain(block) && PlainArms(arms)
        && lines == Lines(block) + ElseLines(arms) + [Fi] + rest && Closes(rest, depth - 1)
  }

  /** A line that neither opens nor closes anything goes in front of what closes. */
  lemma ClosesBehind(line: Line, lines: seq<Line>, depth: nat)
    requires Closes(lines, depth)
    requires line.Other? || line.Case? || line.Esac? || line.Export?
    ensures Closes([line] + lines, depth)
  {
    if depth == 0 {
      var block :| Plain(block) && Lines(block) == lines;
      var longer := if line.Export? then Exports(line.name, line.uses, block) else Quiet(line, block);
      assert Plain(longer) && Lines(longer) == [line] + lines;
    } else {
      var block, arms, rest :| Plain(block) && PlainArms(arms)
        && lines == Lines(block) + ElseLines(arms) + [Fi] + rest && Closes(rest, depth - 1);
      var longer := if line.Export? then Exports(line.name, line.uses, block) else Quiet(line, block);
      assert Plain(longer) && Lines(longer) == [line] + Lines(block);
      assert [line] + lines == Lines(longer) + ElseLines(arms) + [Fi] + rest;
    }
  }

  lemma Associates(a: seq<Line>, b: seq<Line>, c: seq<Line>, d: seq<Line>, e: seq<Line>)
    ensures a + (b + (c + (d + e))) == a + b + c + d + e == a + (b + c + d + e)
  {
    assert b + (c + (d + e)) == b + c + d + e;
  }

  lemma Regroup(a: seq<Line>, b: seq<Line>, c: seq<Line>, d: seq<Line>, out: seq<Line>)
    ensures [If] + (a + b + [Fi] + (c + d + [Fi] + out)) == ([If] + a + b + [Fi] + c) + d + [Fi] + out
  {
  }

  /** A branch opened is closed one level further in. */
  lemma ClosesBranch(lines: seq<Line>, depth: nat)
    requires Closes(lines, depth + 1)
    ensures Closes([If] + lines, depth)
  {
    var first, arms, rest :| Plain(first) && PlainArms(arms)
      && lines == Lines(first) + ElseLines(arms) + [Fi] + rest && Closes(rest, depth);
    if depth == 0 {
      var after :| Plain(after) && Lines(after) == rest;
      ClosesWhole(first, arms, after);
    } else {
      var block, outer, out :| Plain(block) && PlainArms(outer)
        && rest == Lines(block) + ElseLines(outer) + [Fi] + out && Closes(out, depth - 1);
      ClosesWhole(first, arms, block);
      Regroup(Lines(first), ElseLines(arms), Lines(block), ElseLines(outer), out);
      assert [If] + lines == Lines(Branch(first, arms, block)) + ElseLines(outer) + [Fi] + out;
    }
  }

  lemma ClosesWhole(first: Block, arms: Arms, rest: Block)
    requires Plain(first) && PlainArms(arms) && Plain(rest)
    ensures Plain(Branch(first, arms, rest))
    ensures Lines(Branch(first, arms, rest)) == [If] + Lines(first) + ElseLines(arms) + [Fi] + Lines(rest)
    ensures Lines(Branch(first, arms, rest)) == [If] + (Lines(first) + ElseLines(arms) + [Fi] + Lines(rest))
  {
    Associates([If], Lines(first), ElseLines(arms), [Fi], Lines(rest));
  }

  /** A `fi` closes the innermost of what is open, with an arm of no lines before it. */
  lemma ClosesFi(lines: seq<Line>, depth: nat)
    requires Closes(lines, depth)
    ensures Closes([Fi] + lines, depth + 1)
  {
    assert Plain(End) && PlainArms(NoMore);
    assert [Fi] + lines == Lines(End) + ElseLines(NoMore) + [Fi] + lines;
  }

  /** What one line read does to the branches open. */
  lemma OneLineOpens(reading: Reading, line: Line)
    requires reading.Valid() && ReadLine(reading, line).Some?
    ensures !line.Elif? && (line.Else? || line.Fi? ==> |reading.open| > 0)
    ensures |ReadLine(reading, line).value.open| == |reading.open| + Deeper(line)
  {
  }

  function Deeper(line: Line): int { if line.If? then 1 else if line.Fi? then -1 else 0 }

  /** And to the depth of `case`. */
  lemma OneLineKeepsDepth(reading: Reading, line: Line, rest: seq<Line>)
    requires reading.Valid() && ReadLine(reading, line).Some?
    requires CaseDepth(rest, ReadLine(reading, line).value.inCase).Some?
    ensures CaseDepth([line] + rest, reading.inCase).Some?
  {
    assert ([line] + rest)[1..] == rest;
  }

  /** Lines the reading gets through with nothing left open close what was open. */
  lemma {:induction false} ReadIsClosed(reading: Reading, lines: seq<Line>)
    requires reading.Valid() && ReadLines(reading, lines).Some? && ReadLines(reading, lines).value.open == []
    ensures Closes(lines, |reading.open|) && CaseDepth(lines, reading.inCase).Some?
    decreases |lines|
  {
    if lines == [] {
      assert Plain(End) && Lines(End) == lines;
    } else {
      var line, rest := lines[0], lines[1..];
      assert lines == [line] + rest;
      OneLineOpens(reading, line);
      ReadIsClosed(ReadLine(reading, line).value, rest);
      OneLineKeepsDepth(reading, line, rest);
      ClosesOneMore(line, rest, |reading.open|);
    }
  }

  /** One line in front of lines that close what it leaves open. */
  lemma ClosesOneMore(line: Line, rest: seq<Line>, depth: nat)
    requires !line.Elif? && (line.Else? || line.Fi? ==> depth > 0)
    requires Closes(rest, depth + Deeper(line))
    ensures Closes([line] + rest, depth)
  {
    if line.If? { ClosesBranch(rest, depth); }
    else if line.Else? { ClosesElse(rest, depth); }
    else if line.Fi? { ClosesFi(rest, depth - 1); }
    else { ClosesBehind(line, rest, depth); }
  }

  lemma RegroupElse(a: seq<Line>, b: seq<Line>, out: seq<Line>)
    ensures [Else] + (a + b + [Fi] + out) == [] + ([Else] + (a + b)) + [Fi] + out
  {
    assert [] + ([Else] + (a + b)) == [Else] + (a + b);
  }

  /** An arm opened by an `else` is one more arm of the branch it is in. */
  lemma ClosesElse(lines: seq<Line>, depth: nat)
    requires depth > 0 && Closes(lines, depth)
    ensures Closes([Else] + lines, depth)
  {
    var block, arms, out :| Plain(block) && PlainArms(arms)
      && lines == Lines(block) + ElseLines(arms) + [Fi] + out && Closes(out, depth - 1);
    assert Plain(End) && PlainArms(Arm(block, arms));
    RegroupElse(Lines(block), ElseLines(arms), out);
    assert ElseLines(Arm(block, arms)) == [Else] + (Lines(block) + ElseLines(arms));
    assert [Else] + lines == Lines(End) + ElseLines(Arm(block, arms)) + [Fi] + out;
  }

  /** The scripts read are exactly those that are a tree of branches with no export inside a `case`. */
  lemma ReadExactlyTheTrees(lines: seq<Line>)
    ensures Read(lines).Some? <==>
      CaseDepth(lines, 0).Some? && exists block :: Plain(block) && Lines(block) == lines
  {
    if Read(lines).Some? {
      ReadIsClosed(UNREAD, lines);
    }
    if CaseDepth(lines, 0).Some? && exists block :: Plain(block) && Lines(block) == lines {
      var block :| Plain(block) && Lines(block) == lines;
      BlockIsRead(block, UNREAD);
    }
  }

  /**
   The one-pass reading is sound and complete: whatever tree the script is,
   a name is in `every_mode` exactly when every resolution of the script's
   branches exports it.
   */
  lemma EveryModeIsExact(lines: seq<Line>, block: Block, name: Name)
    requires Read(lines).Some? && Plain(block) && Lines(block) == lines
    ensures name in Read(lines).value.everyMode <==> forall names :: MayExport(block, names) ==> name in names
    ensures Read(lines).value.everyMode == Must(block) && Read(lines).value.exported == AllNames(block)
  {
    ReadIsClosed(UNREAD, lines);
    BlockIsRead(block, UNREAD);
    MustIsExact(block, name);
  }
}
