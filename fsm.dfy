/**
 * The finite-automaton simulator. A definition is a first line, which is read
 * only for an accept list `{...}` and otherwise dropped, even when it holds a
 * transition, followed by lines `from,symbol,to`; parsing classifies the machine as DFA,
 * NFA or INVALID and builds the table `lookup[symbol][from] = to`, and a run
 * folds that table over an input string.
 *
 * The regular expressions of the definition format are not modelled: a line
 * arrives as its text together with what the three-field pattern captured
 * from it, if it matched at all, and the accept list arrives already split.
 */
module FiniteAutomaton {
  import opened Wrappers
  import opened Text
  import opened States
  import opened Gather

  /** The characters a transition may carry: printable ASCII except space and the backquote. */
  predicate InChars(s: string) {
    |s| == 1 && '!' <= s[0] <= '~' && s[0] != '`'
  }

  /** `machine_type`; Unset is the empty string the constructor starts from. */
  datatype Kind = Unset | DFA | NFA | INVALID

  /** The three groups of the pattern `(\d+),(.*),(\d+)`. */
  datatype Fields = Fields(from: string, symbol: string, to: string)

  /** A definition line after the first: its text and the captured groups, None when the pattern does not match. */
  datatype Line = Line(text: string, captured: Option<Fields>)

  /** What the pattern guarantees: the state fields are runs of digits. */
  predicate WellFormed(line: Line) {
    line.captured.Some? ==> IsDigits(line.captured.value.from) && IsDigits(line.captured.value.to)
  }

  predicate AllWellFormed(lines: seq<Line>) {
    forall i :: 0 <= i < |lines| ==> WellFormed(lines[i])
  }

  /** Lines starting with whitespace are skipped. */
  predicate Skipped(line: Line) {
    StartsWithSpace(line.text)
  }

  /** A line that is read and whose pattern matched. */
  predicate Counted(line: Line) {
    !Skipped(line) && line.captured.Some?
  }

  /** Both states of a counted line are below 256. */
  predicate InRange(line: Line)
    requires WellFormed(line) && Counted(line)
  {
    DecimalValue(line.captured.value.from) < 256 && DecimalValue(line.captured.value.to) < 256
  }

  /** A line that leaves the machine a DFA, provided its key is new. */
  predicate Good(line: Line)
    requires WellFormed(line)
  {
    Skipped(line) || (line.captured.Some? && InRange(line) && InChars(line.captured.value.symbol))
  }

  /** The table: transition symbol, then from-state, then to-state. */
  type Table = map<string, map<string, string>>

  function Get(t: Table, symbol: string, from: string): Option<string> {
    if symbol in t && from in t[symbol] then Some(t[symbol][from]) else None
  }

  /** `lookup[symbol][from] = to`, creating the row for `symbol` when it is missing. */
  function Insert(t: Table, symbol: string, from: string, to: string): (r: Table)
    ensures forall a, b :: Get(r, a, b) == if a == symbol && b == from then Some(to) else Get(t, a, b)
  {
    t[symbol := (if symbol in t then t[symbol] else map[])[from := to]]
  }

  /** Everything `read_machine` builds. */
  datatype Parsed = Parsed(lookup: Table, states: set<string>, alphabet: set<string>, kind: Kind)

  const Initial: Parsed := Parsed(map[], {}, {}, Unset)

  /** One pass of the line loop of `read_machine`. */
  function ParseLine(p: Parsed, line: Line): (q: Parsed)
    requires WellFormed(line) && p.kind == Unset
    ensures Skipped(line) ==> q == p
    // A line the pattern does not match, a backquote symbol and a repeated key make the machine an NFA.
    ensures q.kind == NFA <==>
      !Skipped(line) && (line.captured.None? ||
        (InRange(line) && (line.captured.value.symbol == "`" ||
          (InChars(line.captured.value.symbol) && Get(p.lookup, line.captured.value.symbol, line.captured.value.from).Some?))))
    // A state of 256 or more, and any other symbol outside the character set, make it INVALID.
    ensures q.kind == INVALID <==>
      Counted(line) && (!InRange(line) || (!InChars(line.captured.value.symbol) && line.captured.value.symbol != "`"))
    ensures q.kind != Unset ==> q.lookup == p.lookup
    ensures Counted(line) && q.kind == Unset ==>
      q.lookup == Insert(p.lookup, line.captured.value.symbol, line.captured.value.from, line.captured.value.to)
    // Reading a line never removes a state or a symbol; `LineSets` says what it adds.
    ensures p.states <= q.states && p.alphabet <= q.alphabet
  {
    if Skipped(line) then p
    else match line.captured
      case None => p.(kind := NFA)
      case Some(f) =>
        if DecimalValue(f.from) >= 256 then p.(kind := INVALID)
        else if DecimalValue(f.to) >= 256 then p.(states := p.states + {f.from}, kind := INVALID)
        else
          var states := p.states + {f.from, f.to};
          var alphabet := p.alphabet + {f.symbol};
          if !InChars(f.symbol) then
            Parsed(p.lookup, states, alphabet, if f.symbol == "`" then NFA else INVALID)
          else if Get(p.lookup, f.symbol, f.from).Some? then
            Parsed(p.lookup, states, alphabet, NFA)
          else
            Parsed(Insert(p.lookup, f.symbol, f.from, f.to), states, alphabet, Unset)
  }

  /**
   * The line loop: it stops at the first line that sets a kind. The table
   * only gains entries, and the sets only grow.
   */
  function ParseLines(p: Parsed, lines: seq<Line>): (r: Parsed)
    requires AllWellFormed(lines) && p.kind == Unset
    ensures r.kind != DFA
    ensures forall a, b :: Get(p.lookup, a, b).Some? ==> Get(r.lookup, a, b) == Get(p.lookup, a, b)
    ensures p.states <= r.states && p.alphabet <= r.alphabet
    decreases |lines|
  {
    if lines == [] then p
    else
      var q := ParseLine(p, lines[0]);
      if q.kind != Unset then q else ParseLines(q, lines[1..])
  }

  /**
   * `read_machine`: the accept list is checked first, then the lines are
   * read. An accept state of 256 or more leaves everything empty.
   */
  function ReadSpec(accept: seq<string>, lines: seq<Line>): (r: Parsed)
    requires AcceptConvertible(accept) && AllWellFormed(lines)
    ensures r.kind != DFA
    ensures !AcceptInRange(accept) ==> r.kind == INVALID && r.lookup == map[] && r.states == {} && r.alphabet == {}
  {
    if AcceptInRange(accept) then ParseLines(Initial, lines) else Initial.(kind := INVALID)
  }

  /** No two counted lines share a (symbol, from-state) key. */
  predicate KeysDistinct(lines: seq<Line>) {
    forall i, j :: 0 <= i < j < |lines| && Counted(lines[i]) && Counted(lines[j]) ==>
      (lines[i].captured.value.symbol, lines[i].captured.value.from) !=
      (lines[j].captured.value.symbol, lines[j].captured.value.from)
  }

  predicate AllGood(lines: seq<Line>)
    requires AllWellFormed(lines)
  {
    forall i :: 0 <= i < |lines| ==> Good(lines[i])
  }

  /** No counted line's key is in the table already. */
  predicate Fresh(t: Table, lines: seq<Line>) {
    forall i :: 0 <= i < |lines| && Counted(lines[i]) ==>
      Get(t, lines[i].captured.value.symbol, lines[i].captured.value.from) == None
  }

  /** The conditions for staying unclassified, split into the first line and the rest. */
  lemma ConditionsCons(t: Table, lines: seq<Line>)
    requires lines != [] && AllWellFormed(lines)
    ensures AllWellFormed(lines[1..])
    ensures AllGood(lines) && KeysDistinct(lines) && Fresh(t, lines) <==>
      Good(lines[0]) && AllGood(lines[1..]) &&
      if Counted(lines[0]) then
        var f := lines[0].captured.value;
        Get(t, f.symbol, f.from) == None && KeysDistinct(lines[1..]) && Fresh(Insert(t, f.symbol, f.from, f.to), lines[1..])
      else
        KeysDistinct(lines[1..]) && Fresh(t, lines[1..])
  {
    var rest := lines[1..];
    assert forall i :: 0 <= i < |rest| ==> rest[i] == lines[i + 1];
    if Counted(lines[0]) {
      var f := lines[0].captured.value;
      if Good(lines[0]) && AllGood(rest) && Get(t, f.symbol, f.from) == None && KeysDistinct(rest) &&
         Fresh(Insert(t, f.symbol, f.from, f.to), rest) {
        forall i, j | 0 <= i < j < |lines| && Counted(lines[i]) && Counted(lines[j])
          ensures (lines[i].captured.value.symbol, lines[i].captured.value.from) !=
                  (lines[j].captured.value.symbol, lines[j].captured.value.from)
        {
          assert lines[j] == rest[j - 1];
          if i > 0 { assert lines[i] == rest[i - 1]; }
        }
      }
    } else {
      if KeysDistinct(rest) {
        forall i, j | 0 <= i < j < |lines| && Counted(lines[i]) && Counted(lines[j])
          ensures (lines[i].captured.value.symbol, lines[i].captured.value.from) !=
                  (lines[j].captured.value.symbol, lines[j].captured.value.from)
        {
          assert i > 0 && lines[i] == rest[i - 1] && lines[j] == rest[j - 1];
        }
      }
    }
  }

  /**
   * Reading from a partial table stays unclassified exactly when every line is
   * good and brings a key that is new.
   */
  lemma {:induction false} ParseLinesUnset(p: Parsed, lines: seq<Line>)
    requires AllWellFormed(lines) && p.kind == Unset
    ensures ParseLines(p, lines).kind == Unset <==> AllGood(lines) && KeysDistinct(lines) && Fresh(p.lookup, lines)
    decreases |lines|
  {
    if lines != [] {
      var q := ParseLine(p, lines[0]);
      ConditionsCons(p.lookup, lines);
      if q.kind == Unset {
        ParseLinesUnset(q, lines[1..]);
      }
    }
  }

  /**
   * When reading stays unclassified, the table keeps everything it held and
   * holds every counted line's transition.
   */
  lemma {:induction false} ParseLinesTable(p: Parsed, lines: seq<Line>)
    requires AllWellFormed(lines) && p.kind == Unset && ParseLines(p, lines).kind == Unset
    ensures forall a, b :: Get(p.lookup, a, b).Some? ==> Get(ParseLines(p, lines).lookup, a, b) == Get(p.lookup, a, b)
    ensures forall i :: 0 <= i < |lines| && Counted(lines[i]) ==>
      Get(ParseLines(p, lines).lookup, lines[i].captured.value.symbol, lines[i].captured.value.from) == Some(lines[i].captured.value.to)
    decreases |lines|
  {
    if lines != [] {
      var q := ParseLine(p, lines[0]);
      var rest := lines[1..];
      assert forall i :: 0 <= i < |rest| ==> rest[i] == lines[i + 1];
      ParseLinesTable(q, rest);
      var r := ParseLines(q, rest);
      forall i | 0 <= i < |lines| && Counted(lines[i])
        ensures Get(r.lookup, lines[i].captured.value.symbol, lines[i].captured.value.from) == Some(lines[i].captured.value.to)
      {
        if i > 0 { assert lines[i] == rest[i - 1]; }
      }
    }
  }

  /** The table gains no (symbol, from-state) key but those the counted lines bring. */
  lemma {:induction false} ParseLinesOnlyNamed(p: Parsed, lines: seq<Line>)
    requires AllWellFormed(lines) && p.kind == Unset
    ensures forall a, b :: Get(ParseLines(p, lines).lookup, a, b).Some? ==>
      Get(p.lookup, a, b).Some? ||
      exists i :: 0 <= i < |lines| && Counted(lines[i]) && lines[i].captured.value.symbol == a && lines[i].captured.value.from == b
    decreases |lines|
  {
    if lines != [] {
      var q := ParseLine(p, lines[0]);
      var rest := lines[1..];
      if q.kind == Unset {
        ParseLinesOnlyNamed(q, rest);
        var r := ParseLines(q, rest);
        assert ParseLines(p, lines) == r;
        forall a, b | Get(r.lookup, a, b).Some? && Get(p.lookup, a, b).None?
          ensures exists i :: 0 <= i < |lines| && Counted(lines[i]) && lines[i].captured.value.symbol == a && lines[i].captured.value.from == b
        {
          if Get(q.lookup, a, b).None? {
            var i :| 0 <= i < |rest| && Counted(rest[i]) && rest[i].captured.value.symbol == a && rest[i].captured.value.from == b;
            assert lines[i + 1] == rest[i];
          } else {
            assert Counted(lines[0]) && lines[0].captured.value.symbol == a && lines[0].captured.value.from == b;
          }
        }
      }
    }
  }

  /**
   * The machine is left a DFA exactly when the accept states are in range,
   * every line is good and no (symbol, from-state) key repeats, even with the
   * same target; every line's transition is then in the table. The table
   * never holds a key that no line brings.
   */
  lemma DfaExactly(accept: seq<string>, lines: seq<Line>)
    requires AcceptConvertible(accept) && AllWellFormed(lines)
    ensures var r := ReadSpec(accept, lines);
      r.kind == Unset <==> AcceptInRange(accept) && AllGood(lines) && KeysDistinct(lines)
    ensures var r := ReadSpec(accept, lines);
      r.kind == Unset ==>
        forall i :: 0 <= i < |lines| && Counted(lines[i]) ==>
          Get(r.lookup, lines[i].captured.value.symbol, lines[i].captured.value.from) == Some(lines[i].captured.value.to)
    // The table holds no other key.
    ensures forall a, b :: Get(ReadSpec(accept, lines).lookup, a, b).Some? ==>
      exists i :: 0 <= i < |lines| && Counted(lines[i]) && lines[i].captured.value.symbol == a && lines[i].captured.value.from == b
  {
    if AcceptInRange(accept) {
      ParseLinesOnlyNamed(Initial, lines);
      ParseLinesUnset(Initial, lines);
      if ParseLines(Initial, lines).kind == Unset {
        ParseLinesTable(Initial, lines);
      }
    }
  }

  /**
   * Parsing stops at the first line that sets a kind: the lines after it
   * have no effect on anything that was built.
   */
  lemma {:induction false} ParseStopsAtFirstFlag(p: Parsed, lines: seq<Line>, k: nat)
    requires AllWellFormed(lines) && p.kind == Unset && k < |lines|
    requires ParseLines(p, lines[..k]).kind == Unset
    requires ParseLine(ParseLines(p, lines[..k]), lines[k]).kind != Unset
    ensures ParseLines(p, lines) == ParseLine(ParseLines(p, lines[..k]), lines[k])
    decreases k
  {
    if k == 0 {
      assert lines[..k] == [];
    } else {
      var q := ParseLine(p, lines[0]);
      assert lines[..k][0] == lines[0];
      assert lines[..k][1..] == lines[1..][..k - 1];
      ParseStopsAtFirstFlag(q, lines[1..], k - 1);
    }
  }

  // What a counted line names; a line that is skipped or fails the pattern names nothing.
  function FromOf(line: Line): Option<string> { if Counted(line) then Some(line.captured.value.from) else None }
  function ToOf(line: Line): Option<string> { if Counted(line) then Some(line.captured.value.to) else None }
  function SymbolOf(line: Line): Option<string> { if Counted(line) then Some(line.captured.value.symbol) else None }

  /** The states the counted lines name. */
  function NamedStates(lines: seq<Line>): set<string> {
    Collect(lines, FromOf) + Collect(lines, ToOf)
  }

  /** What the first line names, and what the rest name. */
  lemma NamedCons(lines: seq<Line>)
    requires lines != []
    ensures var rest := lines[1..];
      if Counted(lines[0]) then
        var f := lines[0].captured.value;
        NamedStates(lines) == {f.from, f.to} + NamedStates(rest) &&
        Collect(lines, SymbolOf) == {f.symbol} + Collect(rest, SymbolOf)
      else
        NamedStates(lines) == NamedStates(rest) && Collect(lines, SymbolOf) == Collect(rest, SymbolOf)
  {
  }

  /**
   * What one line adds to the states and the alphabet. A line that is skipped
   * or fails the pattern adds nothing. A counted line adds its from-state
   * once that is in range, then its to-state once that is; with both in
   * range it adds its symbol, even when the symbol then proves illegal.
   */
  lemma LineSets(p: Parsed, line: Line)
    requires WellFormed(line) && p.kind == Unset
    ensures var q := ParseLine(p, line);
      if Counted(line) then
        var f := line.captured.value;
        q.states == p.states +
          (if DecimalValue(f.from) >= 256 then {} else if DecimalValue(f.to) >= 256 then {f.from} else {f.from, f.to}) &&
        q.alphabet == p.alphabet + (if InRange(line) then {f.symbol} else {})
      else
        q.states == p.states && q.alphabet == p.alphabet
  {
  }

  /**
   * When reading stays unclassified, it collects exactly the states and the
   * symbols that the counted lines name.
   */
  lemma {:induction false} ParseLinesSets(p: Parsed, lines: seq<Line>)
    requires AllWellFormed(lines) && p.kind == Unset && ParseLines(p, lines).kind == Unset
    ensures var r := ParseLines(p, lines);
      r.states == p.states + NamedStates(lines) && r.alphabet == p.alphabet + Collect(lines, SymbolOf)
    decreases |lines|
  {
    if lines == [] {
      assert Collect(lines, FromOf) == Collect(lines, ToOf) == Collect(lines, SymbolOf) == {};
    } else {
      var q := ParseLine(p, lines[0]);
      var rest := lines[1..];
      assert q.kind == Unset;
      assert AllWellFormed(rest);
      ParseLinesSets(q, rest);
      assert ParseLines(p, lines) == ParseLines(q, rest);
      LineSets(p, lines[0]);
      NamedCons(lines);
    }
  }

  // ---------------------------------------------------------------- running

  /** One transition; a missing entry leads to the trap state. */
  function Step(lookup: Table, s: StateRef, c: char): (r: StateRef)
    ensures r != Start
    ensures r.Named? ==> [c] in lookup && r.name in lookup[[c]].Values
    ensures r == Trap <==> Get(lookup, [c], s.Str()) == None
  {
    match Get(lookup, [c], s.Str())
    case Some(to) => Named(to)
    case None => Trap
  }

  /**
   * The left fold of `Step` over a string. After at least one character the
   * run stands in the trap state or in some to-state of the table.
   */
  function Fold(lookup: Table, s: StateRef, w: string): (r: StateRef)
    ensures w == [] ==> r == s
    ensures w != [] ==> r == Trap || (r.Named? && exists c :: c in lookup && r.name in lookup[c].Values)
    decreases |w|
  {
    if w == [] then s else Fold(lookup, Step(lookup, s, w[0]), w[1..])
  }

  lemma {:induction false} FoldSnoc(lookup: Table, s: StateRef, w: string, c: char)
    ensures Fold(lookup, s, w + [c]) == Step(lookup, Fold(lookup, s, w), c)
    decreases |w|
  {
    if w == [] {
      assert [c][1..] == [];
    } else {
      assert (w + [c])[1..] == w[1..] + [c];
      FoldSnoc(lookup, Step(lookup, s, w[0]), w[1..], c);
    }
  }

  /** When no row holds the from-state "255", the trap state is never left. */
  lemma {:induction false} TrapAbsorbing(lookup: Table, w: string)
    requires forall c :: c in lookup ==> "255" !in lookup[c]
    ensures Fold(lookup, Trap, w) == Trap
    decreases |w|
  {
    if w != [] {
      TrapAbsorbing(lookup, w[1..]);
    }
  }

  /** The index of the first character outside the alphabet, or the length when there is none. */
  function FirstForeign(alphabet: set<string>, w: string): (k: nat)
    ensures k <= |w|
    ensures forall j :: 0 <= j < k ==> [w[j]] in alphabet
    ensures k < |w| ==> [w[k]] !in alphabet
  {
    if w == [] || [w[0]] !in alphabet then 0 else 1 + FirstForeign(alphabet, w[1..])
  }

  /** The state a run leaves behind and what it appends to `language`. */
  datatype RunResult = RunResult(final: StateRef, appended: seq<string>)

  /** `run_machine` from state `start`. */
  function Run(lookup: Table, alphabet: set<string>, accept: seq<string>, start: StateRef, input: string): (r: RunResult)
    // A whitespace-only string is judged at the current state, without stepping.
    ensures AllSpace(input) ==> r.final == start && r.appended == (if start.Str() in accept then ["\n"] else [])
    // Otherwise a string is appended only if every character is in the alphabet and the fold ends accepting.
    ensures !AllSpace(input) ==> r.appended == [] || r.appended == [input]
    ensures !AllSpace(input) && (exists j :: 0 <= j < |input| && [input[j]] !in alphabet) ==> r.appended == []
    ensures !AllSpace(input) && (forall j :: 0 <= j < |input| ==> [input[j]] in alphabet) ==>
      r.final == Fold(lookup, start, input) && (r.appended == [input] <==> Fold(lookup, start, input).Str() in accept)
  {
    if AllSpace(input) then
      RunResult(start, if start.Str() in accept then ["\n"] else [])
    else
      var k := FirstForeign(alphabet, input);
      var final := Fold(lookup, start, input[..k]);
      assert k == |input| ==> input[..k] == input;
      RunResult(final, if k == |input| && final.Str() in accept then [input] else [])
  }

  /** A machine read from a definition, with the state of the current run and the accepted strings. */
  class Machine {
    var lookup: Table
    var accept: seq<string>
    var currentState: StateRef
    var alphabet: set<string>
    var language: seq<string>
    var kind: Kind
    var states: set<string>

    function Snapshot(): Parsed
      reads this
    {
      Parsed(lookup, states, alphabet, kind)
    }

    /** Reads the definition; a machine that nothing flagged becomes a DFA. */
    constructor (entries: seq<string>, lines: seq<Line>)
      requires AcceptConvertible(entries) && AllWellFormed(lines)
      ensures var p := ReadSpec(entries, lines);
        lookup == p.lookup && states == p.states && alphabet == p.alphabet &&
        kind == (if p.kind == Unset then DFA else p.kind)
      ensures accept == entries && currentState == Start && language == []
    {
      lookup, accept, currentState, alphabet := map[], [], Start, {};
      language, kind, states := [], Unset, {};
      new;
      ReadMachine(entries, lines);
      if kind == Unset {
        kind := DFA;
      }
    }

    /** Only the current state goes back to the start. */
    method ResetMachine()
      modifies this`currentState
      ensures currentState == Start
    {
      currentState := Start;
    }

    method ReadMachine(entries: seq<string>, lines: seq<Line>)
      requires AcceptConvertible(entries) && AllWellFormed(lines)
      requires Snapshot() == Initial
      modifies this
      ensures Snapshot() == ReadSpec(entries, lines) && accept == entries
      ensures currentState == old(currentState) && language == old(language)
    {
      accept := entries;
      var inRange := CheckAccept(entries);
      if !inRange {
        kind := INVALID;
        return;
      }
      var j := 0;
      while j < |lines|
        invariant 0 <= j <= |lines|
        invariant kind == Unset && accept == entries
        invariant currentState == old(currentState) && language == old(language)
        invariant ParseLines(Snapshot(), lines[j..]) == ParseLines(Initial, lines)
      {
        assert lines[j..][0] == lines[j] && lines[j..][1..] == lines[j + 1..];
        ReadLine(lines[j]);
        if kind != Unset {
          return;
        }
        j := j + 1;
      }
    }

    /** One pass of the line loop of `read_machine`; a kind it sets ends the loop. */
    method ReadLine(line: Line)
      requires WellFormed(line) && kind == Unset
      modifies this`lookup, this`states, this`alphabet, this`kind
      ensures Snapshot() == ParseLine(old(Snapshot()), line)
    {
      if StartsWithSpace(line.text) {
        return;
      }
      if line.captured.None? {
        kind := NFA;
        return;
      }
      var f := line.captured.value;
      if !(DecimalValue(f.from) < 256) {
        kind := INVALID;
        return;
      }
      states := states + {f.from};
      if !(DecimalValue(f.to) < 256) {
        kind := INVALID;
        return;
      }
      states := states + {f.to};
      alphabet := alphabet + {f.symbol};
      if !InChars(f.symbol) {
        if f.symbol == "`" {
          kind := NFA;
        } else {
          kind := INVALID;
        }
        return;
      }
      ghost var p := old(Snapshot());
      assert states == p.states + {f.from, f.to} && alphabet == p.alphabet + {f.symbol};
      if f.symbol !in lookup {
        lookup := lookup[f.symbol := map[]];
      }
      if f.from in lookup[f.symbol] {
        assert lookup == p.lookup && Get(p.lookup, f.symbol, f.from).Some?;
        kind := NFA;
        return;
      }
      lookup := lookup[f.symbol := lookup[f.symbol][f.from := f.to]];
      assert lookup == Insert(p.lookup, f.symbol, f.from, f.to);
    }

    /** Runs one string from the current state and appends it to `language` if accepted. */
    method RunMachine(input: string)
      modifies this`currentState, this`language
      ensures var r := Run(lookup, alphabet, accept, old(currentState), input);
        currentState == r.final && language == old(language) + r.appended
    {
      if AllSpace(input) {
        if currentState.Str() in accept {
          language := language + ["\n"];
        }
        return;
      }
      ghost var k := FirstForeign(alphabet, input);
      for i := 0 to |input|
        invariant i <= k && language == old(language)
        invariant currentState == Fold(lookup, old(currentState), input[..i])
      {
        var c := input[i];
        if [c] !in alphabet {
          assert i == k;
          return;
        }
        FoldSnoc(lookup, old(currentState), input[..i], c);
        assert input[..i + 1] == input[..i] + [c];
        var key := currentState.Str();
        if [c] in lookup && key in lookup[[c]] {
          currentState := Named(lookup[[c]][key]);
        } else {
          currentState := Trap;
        }
      }
      assert input[..|input|] == input;
      if currentState.Str() in accept {
        language := language + [input];
      }
    }
  }
}
