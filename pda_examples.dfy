/**
 * What the pushdown model does on small machines: one that accepts "ab" by
 * pushing on 'a' and popping on 'b', the same machine written with an empty
 * pop field, and two lines that disagree on one key. The lemmas state how
 * each machine is read, line by line, and how each run goes, step by step.
 */
module PushdownExamples {
  import opened Wrappers
  import opened Text
  import opened States
  import opened Pushdown

  /** A line as the five-field pattern captures it; the text starts with the first field. */
  function L(from: string, input: string, pop: string, to: string, push: string): Line
    requires from != []
  {
    Line(from, Some(Fields(from, input, pop, to, push)))
  }

  /** A line with single-digit states, a legal input symbol and a key the table lacks: its entry is inserted. */
  lemma NewKeyLine(p: Parsed, from: string, input: string, pop: string, to: string, push: string)
    requires |from| == 1 && IsDigit(from[0]) && |to| == 1 && IsDigit(to[0])
    requires p.kind != INVALID && InChars(input) && Get(p.lookup, (from, input, pop)) == None
    ensures WellFormed(L(from, input, pop, to, push))
    ensures ParseLine(p, L(from, input, pop, to, push)) ==
      Parsed(Insert(p.lookup, (from, input, pop), Target(to, Strip(push))),
             p.states + {from, to}, p.alphabet + {input}, p.stackAlpha + {Strip(push), pop}, p.kind)
  {
    assert !IsSpace(from[0]);
    assert DecimalValue(from) < 10 && DecimalValue(to) < 10;
  }

  lemma AcceptFive()
    ensures AcceptConvertible(["5"]) && AcceptInRange(["5"])
  {
    assert IsDigits("5") && DecimalValue("5") == 5;
    assert ["5"][0] == "5" && ["5"][1..] == [];
  }

  /** Reading a two-line definition whose lines are both good. */
  lemma ReadTwo(accept: seq<string>, l1: Line, l2: Line, q1: Parsed, q2: Parsed)
    requires AcceptConvertible(accept) && AcceptInRange(accept) && WellFormed(l1) && WellFormed(l2)
    requires ParseLine(Initial, l1) == q1 && q1.kind != INVALID
    requires ParseLine(q1, l2) == q2 && q2.kind != INVALID
    ensures AllWellFormed([l1, l2]) && ReadSpec(accept, [l1, l2]) == q2
  {
    assert [l1, l2][0] == l1 && [l1, l2][1..] == [l2] && [l2][1..] == [];
    assert ParseLines(q2, []) == q2;
    assert ParseLines(q1, [l2]) == q2;
    assert ParseLines(Initial, [l1, l2]) == q2;
  }

  /** A run that takes two main-loop steps and then has no epsilon move left. */
  lemma RunTwo(t: Table, al: set<string>, accept: seq<string>, input: string, c1: Config, c2: Config)
    requires !AllSpace(input) && input != []
    requires MainStep(t, al, Config(Start, [], input, 0)) == Continue(c1) && c1.steps == 1 && c1.pending != []
    requires MainStep(t, al, c1) == Continue(c2) && c2.steps == 2 && c2.pending == []
    requires !HasEpsilonRow(t, c2.state)
    ensures Execute(t, al, accept, Start, [], input) ==
      RunResult(c2, false, if c2.state.Str() in accept then [input] else [])
  {
    assert MainLoop(t, al, c2) == Continue(c2);
    assert MainLoop(t, al, c1) == Continue(c2);
    assert MainLoop(t, al, Config(Start, [], input, 0)) == Continue(c2);
    assert Trailing(t, c2) == c2;
  }

  // ------------------------------------------------ 'a' pushes x, 'b' pops it

  function PushX(): Line { L("0", "a", "`", "1", "x") }
  function PopX(): Line { L("1", "b", "x", "5", "`") }

  /** Accept state 5; 'a' from 0 pushes x, 'b' from 1 pops x and reaches 5. */
  function PushPop(): seq<Line> {
    [PushX(), PopX()]
  }

  function AfterFirst(): Parsed {
    Parsed(map["0" := map["a" := map["`" := Target("1", "x")]]], {"0", "1"}, {"a"}, {"x", "`"}, Unset)
  }

  function AfterBoth(): Parsed {
    Parsed(map["0" := map["a" := map["`" := Target("1", "x")]], "1" := map["b" := map["x" := Target("5", "`")]]],
           {"0", "1", "5"}, {"a", "b"}, {"x", "`"}, Unset)
  }

  lemma FirstLine()
    ensures WellFormed(PushX()) && ParseLine(Initial, PushX()) == AfterFirst()
  {
    NewKeyLine(Initial, "0", "a", "`", "1", "x");
    assert Strip("x") == "x";
    assert Insert(map[], ("0", "a", "`"), Target("1", "x")) == AfterFirst().lookup;
    assert {} + {"x", "`"} == AfterFirst().stackAlpha;
  }

  lemma SecondLine()
    ensures WellFormed(PopX()) && ParseLine(AfterFirst(), PopX()) == AfterBoth()
  {
    var p := AfterFirst();
    assert Get(p.lookup, ("1", "b", "x")) == None;
    NewKeyLine(p, "1", "b", "x", "5", "`");
    assert Strip("`") == "`";
    assert Insert(p.lookup, ("1", "b", "x"), Target("5", "`")) == AfterBoth().lookup;
    assert p.states + {"1", "5"} == AfterBoth().states;
    assert p.alphabet + {"b"} == AfterBoth().alphabet;
    assert p.stackAlpha + {"`", "x"} == AfterBoth().stackAlpha;
  }

  /** The table the two lines build. */
  lemma PushPopParsed()
    ensures AcceptConvertible(["5"]) && AllWellFormed(PushPop())
    ensures ReadSpec(["5"], PushPop()) == AfterBoth()
  {
    AcceptFive();
    FirstLine();
    SecondLine();
    ReadTwo(["5"], PushX(), PopX(), AfterFirst(), AfterBoth());
  }

  /** Nothing flags the machine, so it is a DPDA. */
  lemma PushPopIsDpda()
    ensures AcceptConvertible(["5"]) && AllWellFormed(PushPop())
    ensures MachineType(["5"], PushPop()) == DPDA
  {
    PushPopParsed();
  }

  /** 'a' from state 0: the empty stack pops as epsilon, the entry for it pushes x and moves to 1. */
  lemma AbFirstStep()
    ensures MainStep(AfterBoth().lookup, AfterBoth().alphabet, Config(Start, [], "ab", 0)) ==
      Continue(Config(Named("1"), ["x"], "b", 1))
  {
  }

  /** 'b' from state 1 pops x and moves to 5. */
  lemma AbSecondStep()
    ensures MainStep(AfterBoth().lookup, AfterBoth().alphabet, Config(Named("1"), ["x"], "b", 1)) ==
      Continue(Config(Named("5"), [], "", 2))
  {
  }

  /** "ab": 'a' pushes x and moves to 1, 'b' pops x and moves to 5. */
  lemma AbRun()
    ensures Execute(AfterBoth().lookup, AfterBoth().alphabet, ["5"], Start, [], "ab") ==
      RunResult(Config(Named("5"), [], "", 2), false, ["ab"])
  {
    AbFirstStep();
    AbSecondStep();
    assert !AllSpace("ab") by { assert !IsSpace('a'); }
    RunTwo(AfterBoth().lookup, AfterBoth().alphabet, ["5"], "ab", Config(Named("1"), ["x"], "b", 1), Config(Named("5"), [], "", 2));
  }

  /** 'b' from state 0 has no entry: the trap, with a backquote pushed. */
  lemma BaFirstStep()
    ensures MainStep(AfterBoth().lookup, AfterBoth().alphabet, Config(Start, [], "ba", 0)) ==
      Continue(Config(Trap, ["`"], "a", 1))
  {
  }

  /** The trap state has no row: the backquote is popped and pushed again. */
  lemma BaSecondStep()
    ensures MainStep(AfterBoth().lookup, AfterBoth().alphabet, Config(Trap, ["`"], "a", 1)) ==
      Continue(Config(Trap, ["`"], "", 2))
  {
  }

  /** "ba": state 0 has no entry for 'b', so the run falls into the trap and stays there. */
  lemma BaRun()
    ensures Execute(AfterBoth().lookup, AfterBoth().alphabet, ["5"], Start, [], "ba") ==
      RunResult(Config(Trap, ["`"], "", 2), false, [])
  {
    BaFirstStep();
    BaSecondStep();
    assert !AllSpace("ba") by { assert !IsSpace('b'); }
    RunTwo(AfterBoth().lookup, AfterBoth().alphabet, ["5"], "ba", Config(Trap, ["`"], "a", 1), Config(Trap, ["`"], "", 2));
  }

  /** "a": the run stops in state 1 with x on the stack; state 1 does not accept. */
  lemma ARun()
    ensures Execute(AfterBoth().lookup, AfterBoth().alphabet, ["5"], Start, [], "a") ==
      RunResult(Config(Named("1"), ["x"], "", 1), false, [])
  {
    var t, al := AfterBoth().lookup, AfterBoth().alphabet;
    var c1 := Config(Named("1"), ["x"], "", 1);
    assert MainStep(t, al, Config(Start, [], "a", 0)) == Continue(c1);
    assert MainLoop(t, al, c1) == Continue(c1);
    assert MainLoop(t, al, Config(Start, [], "a", 0)) == Continue(c1);
    assert !HasEpsilonRow(t, c1.state);
    assert !AllSpace("a") by { assert !IsSpace('a'); }
  }

  /** The machine accepts "ab" and rejects "a" and "ba". */
  lemma PushPopLanguage()
    ensures AcceptConvertible(["5"]) && AllWellFormed(PushPop())
    ensures var p := ReadSpec(["5"], PushPop());
      Execute(p.lookup, p.alphabet, ["5"], Start, [], "ab").appended == ["ab"] &&
      Execute(p.lookup, p.alphabet, ["5"], Start, [], "a").appended == [] &&
      Execute(p.lookup, p.alphabet, ["5"], Start, [], "ba").appended == []
  {
    PushPopParsed();
    AbRun();
    ARun();
    BaRun();
  }

  // ------------------------------------------------ an empty pop field

  function PushXEmptyPop(): Line { L("0", "a", "", "1", "x") }

  /** The machine above with the pop field of its first line left empty. */
  function EmptyPop(): seq<Line> {
    [PushXEmptyPop(), PopX()]
  }

  function EmptyPopFirst(): Parsed {
    Parsed(map["0" := map["a" := map["" := Target("1", "x")]]], {"0", "1"}, {"a"}, {"x", ""}, Unset)
  }

  /** The first line stores its entry under the empty pop symbol. */
  function EmptyPopBoth(): Parsed {
    Parsed(map["0" := map["a" := map["" := Target("1", "x")]], "1" := map["b" := map["x" := Target("5", "`")]]],
           {"0", "1", "5"}, {"a", "b"}, {"x", "", "`"}, Unset)
  }

  lemma EmptyPopFirstLine()
    ensures WellFormed(PushXEmptyPop()) && ParseLine(Initial, PushXEmptyPop()) == EmptyPopFirst()
  {
    NewKeyLine(Initial, "0", "a", "", "1", "x");
    assert Strip("x") == "x";
    assert Insert(map[], ("0", "a", ""), Target("1", "x")) == EmptyPopFirst().lookup;
    assert {} + {"x", ""} == EmptyPopFirst().stackAlpha;
  }

  lemma EmptyPopSecondLine()
    ensures ParseLine(EmptyPopFirst(), PopX()) == EmptyPopBoth()
  {
    var p := EmptyPopFirst();
    assert Get(p.lookup, ("1", "b", "x")) == None;
    NewKeyLine(p, "1", "b", "x", "5", "`");
    assert Strip("`") == "`";
    assert Insert(p.lookup, ("1", "b", "x"), Target("5", "`")) == EmptyPopBoth().lookup;
    assert p.states + {"1", "5"} == EmptyPopBoth().states;
    assert p.alphabet + {"b"} == EmptyPopBoth().alphabet;
    assert p.stackAlpha + {"`", "x"} == EmptyPopBoth().stackAlpha;
  }

  /** The table the two lines build. */
  lemma EmptyPopParsed()
    ensures AcceptConvertible(["5"]) && AllWellFormed(EmptyPop())
    ensures ReadSpec(["5"], EmptyPop()) == EmptyPopBoth()
  {
    AcceptFive();
    EmptyPopFirstLine();
    EmptyPopSecondLine();
    ReadTwo(["5"], PushXEmptyPop(), PopX(), EmptyPopFirst(), EmptyPopBoth());
    assert EmptyPop() == [PushXEmptyPop(), PopX()];
    assert ReadSpec(["5"], EmptyPop()) == EmptyPopBoth();
  }

  /** "ab": nothing on the empty stack is the empty symbol, so 'a' leads into the trap. */
  lemma EmptyPopRun()
    ensures Execute(EmptyPopBoth().lookup, EmptyPopBoth().alphabet, ["5"], Start, [], "ab") ==
      RunResult(Config(Trap, ["`"], "", 2), false, [])
  {
    EmptyPopFirstStep();
    EmptyPopSecondStep();
    assert !AllSpace("ab") by { assert !IsSpace('a'); }
    RunTwo(EmptyPopBoth().lookup, EmptyPopBoth().alphabet, ["5"], "ab", Config(Trap, ["`"], "b", 1), Config(Trap, ["`"], "", 2));
  }

  /** The popped epsilon is not the key "" of the only entry for 'a': the trap. */
  lemma EmptyPopFirstStep()
    ensures MainStep(EmptyPopBoth().lookup, EmptyPopBoth().alphabet, Config(Start, [], "ab", 0)) ==
      Continue(Config(Trap, ["`"], "b", 1))
  {
  }

  lemma EmptyPopSecondStep()
    ensures MainStep(EmptyPopBoth().lookup, EmptyPopBoth().alphabet, Config(Trap, ["`"], "b", 1)) ==
      Continue(Config(Trap, ["`"], "", 2))
  {
  }

  /**
   * With the pop field left empty the key is the empty symbol, not epsilon:
   * the run traps on 'a' and "ab" is rejected.
   */
  lemma EmptyPopFieldIsNotEpsilon()
    ensures AcceptConvertible(["5"]) && AllWellFormed(EmptyPop())
    ensures var p := ReadSpec(["5"], EmptyPop());
      Execute(p.lookup, p.alphabet, ["5"], Start, [], "ab").final.state == Trap &&
      Execute(p.lookup, p.alphabet, ["5"], Start, [], "ab").appended == []
  {
    EmptyPopParsed();
    EmptyPopRun();
  }

  // ------------------------------------------------ two targets for one key
  //
  // `DuplicateLinesGood` and `DuplicateLinesShareKey` show that the premises
  // of `SharedKeyKeepsFirst` can be met: the two lines below are good, share
  // the key (0, a, "") and ask for different targets.

  function OtherTarget(): Line { L("0", "a", "", "2", "y") }

  function Duplicate(): seq<Line> {
    [PushXEmptyPop(), OtherTarget()]
  }

  /** Both lines are read without fault. */
  lemma DuplicateLinesGood()
    ensures AllWellFormed(Duplicate()) && NoBadLine(Duplicate())
  {
    assert IsDigits("0") && IsDigits("1") && IsDigits("2");
    assert DecimalValue("0") == 0 && DecimalValue("1") == 1 && DecimalValue("2") == 2;
    assert !IsSpace('0');
  }

  /**
   * Two good lines that share a key and ask for different targets make the
   * machine NPDA, and the table keeps the first line's target.
   */
  lemma SharedKeyKeepsFirst(accept: seq<string>, first: Line, second: Line)
    requires AcceptConvertible(accept) && AcceptInRange(accept)
    requires AllWellFormed([first, second]) && NoBadLine([first, second])
    requires Counted(first) && Counted(second) && KeyOf(first) == KeyOf(second) && TargetOf(first) != TargetOf(second)
    ensures MachineType(accept, [first, second]) == NPDA
    ensures Get(ReadSpec(accept, [first, second]).lookup, KeyOf(first)) == Some(TargetOf(first))
  {
    var lines := [first, second];
    assert lines[0] == first && lines[1] == second;
    assert !Consistent(lines);
    MachineTypeExactly(accept, lines);
    assert FirstOfKey(map[], lines, 0);
    FirstEntryKept(accept, lines);
  }

  /** In the example, both lines ask for key (0, a, ""); the first for (1, x), the second for (2, y). */
  lemma DuplicateLinesShareKey()
    ensures Counted(PushXEmptyPop()) && Counted(OtherTarget())
    ensures KeyOf(PushXEmptyPop()) == KeyOf(OtherTarget()) == ("0", "a", "")
    ensures TargetOf(PushXEmptyPop()) == Target("1", "x") && TargetOf(OtherTarget()).to == "2"
  {
    assert !IsSpace('0');
    assert Strip("x") == "x";
  }
}
