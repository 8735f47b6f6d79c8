/**
 * The pushdown-automaton engine. A definition is a first line, which is read
 * only for an accept list `{...}` and otherwise dropped, even when it holds a
 * transition, followed by lines `from,input,pop,to,push`; parsing builds the three-level
 * table `lookup[from][input][pop] = (to, push)` and classifies the machine as
 * DPDA, NPDA or INVALID, and a run drives one string through the table with a
 * list stack, epsilon transitions and a budget of TIMEOUT steps.
 *
 * Epsilon is the backquote character. An empty field is not epsilon: it is
 * the empty symbol "", a key like any other. As in the finite-automaton
 * module, a line arrives as its text with the groups the five-field pattern
 * captured, and the accept list arrives already split.
 */
module Pushdown {
  import opened Wrappers
  import opened Text
  import opened States
  import opened Gather

  /** The epsilon marker, for input, pop and push alike. */
  const EPS: string := "`"

  /** The step budget of one run. */
  const TIMEOUT: nat := 10000

  /** The characters an input symbol may be: printable ASCII, space and backquote included. */
  predicate InChars(s: string) {
    |s| == 1 && ' ' <= s[0] <= '~'
  }

  /** `machine_type`; Unset is the empty string the constructor starts from. */
  datatype Kind = Unset | DPDA | NPDA | INVALID

  /** The five groups of the pattern `(\d+),(.*),(.*),(\d+),(.*)`. */
  datatype Fields = Fields(from: string, input: string, pop: string, to: string, push: string)

  /** A definition line after the first: its text and the captured groups, None when the pattern does not match. */
  datatype Line = Line(text: string, captured: Option<Fields>)

  /** What the pattern guarantees: the state fields are runs of digits. */
  predicate WellFormed(line: Line) {
    line.captured.Some? ==> IsDigits(line.captured.value.from) && IsDigits(line.captured.value.to)
  }

  predicate AllWellFormed(lines: seq<Line>) {
    forall i :: 0 <= i < |lines| ==> WellFormed(lines[i])
  }

  /** Lines starting with whitespace are skipped. */
  predicate Skipped(line: Line) {
    StartsWithSpace(line.text)
  }

  /** A line that is read and whose pattern matched. */
  predicate Counted(line: Line) {
    !Skipped(line) && line.captured.Some?
  }

  /** A line that makes the machine INVALID: no match, a state of 256 or more, or an input symbol outside the character set. */
  predicate Bad(line: Line)
    requires WellFormed(line)
  {
    !Skipped(line) &&
    (line.captured.None? ||
     DecimalValue(line.captured.value.from) >= 256 ||
     DecimalValue(line.captured.value.to) >= 256 ||
     !InChars(line.captured.value.input))
  }

  predicate NoBadLine(lines: seq<Line>)
    requires AllWellFormed(lines)
  {
    forall i :: 0 <= i < |lines| ==> !Bad(lines[i])
  }

  /** What a table entry holds: the state to go to and the symbol to push. */
  datatype Target = Target(to: string, push: string)

  /** from-state, input symbol, pop symbol. */
  type Key = (string, string, string)

  /** The table: from-state, then input symbol, then pop symbol. */
  type Table = map<string, map<string, map<string, Target>>>

  function Get(t: Table, k: Key): Option<Target> {
    if k.0 in t && k.1 in t[k.0] && k.2 in t[k.0][k.1] then Some(t[k.0][k.1][k.2]) else None
  }

  /** `lookup[from][input][pop] = target`, creating the missing levels. */
  function Insert(t: Table, k: Key, target: Target): (r: Table)
    ensures forall k' :: Get(r, k') == if k' == k then Some(target) else Get(t, k')
  {
    var row := if k.0 in t then t[k.0] else map[];
    var cell := if k.1 in row then row[k.1] else map[];
    t[k.0 := row[k.1 := cell[k.2 := target]]]
  }

  function KeyOf(line: Line): Key
    requires line.captured.Some?
  {
    (line.captured.value.from, line.captured.value.input, line.captured.value.pop)
  }

  /** The entry a line asks for; the push field is stripped of whitespace, the pop field is not. */
  function TargetOf(line: Line): Target
    requires line.captured.Some?
  {
    Target(line.captured.value.to, Strip(line.captured.value.push))
  }

  /** Everything `read_machine` builds. */
  datatype Parsed = Parsed(lookup: Table, states: set<string>, alphabet: set<string>, stackAlpha: set<string>, kind: Kind)

  const Initial: Parsed := Parsed(map[], {}, {}, {}, Unset)

  /** One pass of the line loop of `read_machine`. */
  function ParseLine(p: Parsed, line: Line): (q: Parsed)
    requires WellFormed(line) && p.kind != INVALID
    ensures Skipped(line) ==> q == p
    // The source exempts the backquote from the character check, but it is in the set already.
    ensures q.kind == INVALID <==> Bad(line)
    ensures Bad(line) ==> q.lookup == p.lookup
    // A key already present keeps its entry; a different target only marks the machine NPDA.
    ensures Counted(line) && !Bad(line) ==>
      match Get(p.lookup, KeyOf(line))
      case Some(stored) => q.lookup == p.lookup && q.kind == (if stored != TargetOf(line) then NPDA else p.kind)
      case None => q.lookup == Insert(p.lookup, KeyOf(line), TargetOf(line)) && q.kind == p.kind
    // Reading a line never removes a state or a symbol; `LineSets` says what it adds.
    ensures p.states <= q.states && p.alphabet <= q.alphabet && p.stackAlpha <= q.stackAlpha
  {
    if Skipped(line) then p
    else match line.captured
      case None => p.(kind := INVALID)
      case Some(f) => ParseFields(p, f)
  }

  /** A line whose pattern matched: the state checks, the sets, the character check, then the table. */
  function ParseFields(p: Parsed, f: Fields): (q: Parsed)
    requires IsDigits(f.from) && IsDigits(f.to) && p.kind != INVALID
    ensures q.kind == INVALID <==> DecimalValue(f.from) >= 256 || DecimalValue(f.to) >= 256 || !InChars(f.input)
    ensures q.kind == INVALID ==> q.lookup == p.lookup
    ensures q.kind != INVALID ==>
      match Get(p.lookup, (f.from, f.input, f.pop))
      case Some(stored) => q.lookup == p.lookup && q.kind == (if stored != Target(f.to, Strip(f.push)) then NPDA else p.kind)
      case None => q.lookup == Insert(p.lookup, (f.from, f.input, f.pop), Target(f.to, Strip(f.push))) && q.kind == p.kind
    // The from-state is collected once it is in range, then the to-state once that is.
    ensures q.states == p.states +
      (if DecimalValue(f.from) >= 256 then {} else if DecimalValue(f.to) >= 256 then {f.from} else {f.from, f.to})
    // With both states in range the symbols are collected, even when the input symbol then proves illegal.
    ensures DecimalValue(f.from) < 256 && DecimalValue(f.to) < 256 ==>
      q.alphabet == p.alphabet + {f.input} && q.stackAlpha == p.stackAlpha + {Strip(f.push), f.pop}
    ensures DecimalValue(f.from) >= 256 || DecimalValue(f.to) >= 256 ==>
      q.alphabet == p.alphabet && q.stackAlpha == p.stackAlpha
  {
    if DecimalValue(f.from) >= 256 then p.(kind := INVALID)
    else if DecimalValue(f.to) >= 256 then p.(states := p.states + {f.from}, kind := INVALID)
    else
      var target := Target(f.to, Strip(f.push));
      var states := p.states + {f.from, f.to};
      var alphabet := p.alphabet + {f.input};
      var stackAlpha := p.stackAlpha + {target.push, f.pop};
      if !InChars(f.input) && f.input != EPS then
        Parsed(p.lookup, states, alphabet, stackAlpha, INVALID)
      else match Get(p.lookup, (f.from, f.input, f.pop))
        case Some(stored) =>
          Parsed(p.lookup, states, alphabet, stackAlpha, if stored != target then NPDA else p.kind)
        case None =>
          Parsed(Insert(p.lookup, (f.from, f.input, f.pop), target), states, alphabet, stackAlpha, p.kind)
  }

  /** The line loop: it stops at the first line that makes the machine INVALID. */
  function ParseLines(p: Parsed, lines: seq<Line>): (r: Parsed)
    requires AllWellFormed(lines) && p.kind != INVALID
    // Reading never clears a kind other than to INVALID, and never removes a state or a symbol.
    ensures r.kind in {p.kind, NPDA, INVALID}
    ensures p.states <= r.states && p.alphabet <= r.alphabet && p.stackAlpha <= r.stackAlpha
    decreases |lines|
  {
    if lines == [] then p
    else
      var q := ParseLine(p, lines[0]);
      if q.kind == INVALID then q else ParseLines(q, lines[1..])
  }

  /** `read_machine`: the accept list is checked first, then the lines are read. */
  function ReadSpec(accept: seq<string>, lines: seq<Line>): (r: Parsed)
    requires AcceptConvertible(accept) && AllWellFormed(lines)
    // Reading never decides DPDA; only the constructor does, when nothing else was set.
    ensures r.kind != DPDA
    // An accept entry of 256 or more ends reading before any line is read.
    ensures !AcceptInRange(accept) ==> r.kind == INVALID && r.lookup == map[] && r.states == {} && r.alphabet == {} && r.stackAlpha == {}
  {
    if AcceptInRange(accept) then ParseLines(Initial, lines) else Initial.(kind := INVALID)
  }

  /** Every counted line whose key the table holds finds its own target there. */
  predicate Agrees(t: Table, lines: seq<Line>) {
    forall i :: 0 <= i < |lines| && Counted(lines[i]) && Get(t, KeyOf(lines[i])).Some? ==>
      Get(t, KeyOf(lines[i])) == Some(TargetOf(lines[i]))
  }

  /** Counted lines with the same key ask for the same target. */
  predicate Consistent(lines: seq<Line>) {
    forall i, j :: 0 <= i < j < |lines| && Counted(lines[i]) && Counted(lines[j]) && KeyOf(lines[i]) == KeyOf(lines[j]) ==>
      TargetOf(lines[i]) == TargetOf(lines[j])
  }

  /** The counted line at index i is the first with its key, and the table did not hold it. */
  predicate FirstOfKey(t: Table, lines: seq<Line>, i: int)
    requires 0 <= i < |lines|
  {
    Counted(lines[i]) && Get(t, KeyOf(lines[i])) == None &&
    forall j :: 0 <= j < i && Counted(lines[j]) ==> KeyOf(lines[j]) != KeyOf(lines[i])
  }

  /** Every counted line with key k asks for target t. */
  predicate AllAsk(lines: seq<Line>, k: Key, t: Target) {
    forall j :: 0 <= j < |lines| && Counted(lines[j]) && KeyOf(lines[j]) == k ==> TargetOf(lines[j]) == t
  }

  // What a counted line names; a line that is skipped or fails the pattern names nothing.
  function FromOf(line: Line): Option<string> { if Counted(line) then Some(line.captured.value.from) else None }
  function ToOf(line: Line): Option<string> { if Counted(line) then Some(line.captured.value.to) else None }
  function InputOf(line: Line): Option<string> { if Counted(line) then Some(line.captured.value.input) else None }
  function PopOf(line: Line): Option<string> { if Counted(line) then Some(line.captured.value.pop) else None }
  function PushOf(line: Line): Option<string> { if Counted(line) then Some(Strip(line.captured.value.push)) else None }

  /** The states the counted lines name. */
  function NamedStates(lines: seq<Line>): set<string> {
    Collect(lines, FromOf) + Collect(lines, ToOf)
  }

  /** The stack symbols the counted lines name: the stripped push fields and the pop fields. */
  function NamedStackSymbols(lines: seq<Line>): set<string> {
    Collect(lines, PushOf) + Collect(lines, PopOf)
  }

  /** The machine turns INVALID exactly when some line is bad. */
  lemma {:induction false} ParseLinesInvalid(p: Parsed, lines: seq<Line>)
    requires AllWellFormed(lines) && p.kind != INVALID
    ensures ParseLines(p, lines).kind == INVALID <==> !NoBadLine(lines)
    decreases |lines|
  {
    if lines != [] {
      var q := ParseLine(p, lines[0]);
      if q.kind != INVALID {
        ParseLinesInvalid(q, lines[1..]);
        assert NoBadLine(lines) <==> NoBadLine(lines[1..]) by {
          assert forall i :: 0 <= i < |lines| - 1 ==> lines[1..][i] == lines[i + 1];
        }
      }
    }
  }

  lemma AgreesCons(t: Table, lines: seq<Line>)
    requires lines != []
    ensures Agrees(t, lines) <==>
      (Counted(lines[0]) && Get(t, KeyOf(lines[0])).Some? ==> Get(t, KeyOf(lines[0])) == Some(TargetOf(lines[0]))) &&
      Agrees(t, lines[1..])
  {
    assert forall i :: 0 <= i < |lines| - 1 ==> lines[1..][i] == lines[i + 1];
  }

  lemma ConsistentCons(lines: seq<Line>)
    requires lines != []
    ensures Consistent(lines) <==>
      Consistent(lines[1..]) && (Counted(lines[0]) ==> AllAsk(lines[1..], KeyOf(lines[0]), TargetOf(lines[0])))
  {
    var rest := lines[1..];
    assert forall i :: 0 <= i < |rest| ==> rest[i] == lines[i + 1];
    if Consistent(rest) && (Counted(lines[0]) ==> AllAsk(rest, KeyOf(lines[0]), TargetOf(lines[0]))) {
      forall i, j | 0 <= i < j < |lines| && Counted(lines[i]) && Counted(lines[j]) && KeyOf(lines[i]) == KeyOf(lines[j])
        ensures TargetOf(lines[i]) == TargetOf(lines[j])
      {
        assert lines[j] == rest[j - 1];
        if i > 0 {
          assert lines[i] == rest[i - 1];
        }
      }
    }
  }

  /** Adding a key the table lacked: the lines agree with the new table iff they agree with the old one and ask the new target for that key. */
  lemma AgreesInsert(t: Table, k: Key, target: Target, lines: seq<Line>)
    requires Get(t, k) == None
    ensures Agrees(Insert(t, k, target), lines) <==> Agrees(t, lines) && AllAsk(lines, k, target)
  {
  }

  /**
   * Without bad lines, the machine is marked NPDA exactly when it already
   * was, when a line disagrees with an entry the table held, or when two
   * lines with the same key ask for different targets.
   */
  lemma {:induction false} ParseLinesNpda(p: Parsed, lines: seq<Line>)
    requires AllWellFormed(lines) && p.kind != INVALID && NoBadLine(lines)
    ensures ParseLines(p, lines).kind == NPDA <==> p.kind == NPDA || !Agrees(p.lookup, lines) || !Consistent(lines)
    decreases |lines|
  {
    if lines != [] {
      var q := ParseLine(p, lines[0]);
      var rest := lines[1..];
      assert !Bad(lines[0]) && rest[..] == rest;
      assert forall i :: 0 <= i < |rest| ==> WellFormed(rest[i]) && !Bad(rest[i]) by {
        assert forall i :: 0 <= i < |rest| ==> rest[i] == lines[i + 1];
      }
      ParseLinesNpda(q, rest);
      assert ParseLines(p, lines) == ParseLines(q, rest);
      AgreesCons(p.lookup, lines);
      ConsistentCons(lines);
      if Counted(lines[0]) {
        var k0, t0 := KeyOf(lines[0]), TargetOf(lines[0]);
        match Get(p.lookup, k0)
        case Some(stored) =>
          // The stored entry stays; every later line with this key is compared with it.
          assert Agrees(p.lookup, rest) ==> AllAsk(rest, k0, stored);
        case None =>
          AgreesInsert(p.lookup, k0, t0, rest);
      }
    }
  }

  /** Entries the table held are kept, and every counted line's key ends up in the table. */
  lemma {:induction false} ParseLinesKeeps(p: Parsed, lines: seq<Line>)
    requires AllWellFormed(lines) && p.kind != INVALID && NoBadLine(lines)
    ensures forall k :: Get(p.lookup, k).Some? ==> Get(ParseLines(p, lines).lookup, k) == Get(p.lookup, k)
    ensures forall i :: 0 <= i < |lines| && Counted(lines[i]) ==> Get(ParseLines(p, lines).lookup, KeyOf(lines[i])).Some?
    decreases |lines|
  {
    if lines != [] {
      var q := ParseLine(p, lines[0]);
      var rest := lines[1..];
      assert forall i :: 0 <= i < |rest| ==> rest[i] == lines[i + 1];
      assert !Bad(lines[0]);
      ParseLinesKeeps(q, rest);
      var r := ParseLines(q, rest);
      assert ParseLines(p, lines) == r;
      forall k | Get(p.lookup, k).Some? ensures Get(r.lookup, k) == Get(p.lookup, k) {
        assert Get(q.lookup, k) == Get(p.lookup, k);
      }
      forall i | 0 <= i < |lines| && Counted(lines[i]) ensures Get(r.lookup, KeyOf(lines[i])).Some? {
        if i == 0 {
          assert Get(q.lookup, KeyOf(lines[0])).Some?;
        } else {
          assert lines[i] == rest[i - 1];
        }
      }
    }
  }

  /** One line adds at most its own key to the table. */
  lemma LineKeys(p: Parsed, line: Line)
    requires WellFormed(line) && p.kind != INVALID
    ensures forall k :: Get(ParseLine(p, line).lookup, k).Some? ==>
      Get(p.lookup, k).Some? || (Counted(line) && KeyOf(line) == k)
  {
    var q := ParseLine(p, line);
    if Counted(line) && !Bad(line) && Get(p.lookup, KeyOf(line)).None? {
      assert q.lookup == Insert(p.lookup, KeyOf(line), TargetOf(line));
    } else {
      assert q.lookup == p.lookup;
    }
  }

  /** The table gains no key but those the counted lines bring. */
  lemma {:induction false} ParseLinesOnlyNamed(p: Parsed, lines: seq<Line>)
    requires AllWellFormed(lines) && p.kind != INVALID
    ensures forall k :: Get(ParseLines(p, lines).lookup, k).Some? ==>
      Get(p.lookup, k).Some? || exists i :: 0 <= i < |lines| && Counted(lines[i]) && KeyOf(lines[i]) == k
    decreases |lines|
  {
    if lines != [] {
      var q := ParseLine(p, lines[0]);
      var rest := lines[1..];
      LineKeys(p, lines[0]);
      if q.kind != INVALID {
        ParseLinesOnlyNamed(q, rest);
        var r := ParseLines(q, rest);
        assert ParseLines(p, lines) == r;
        forall k | Get(r.lookup, k).Some? && Get(p.lookup, k).None?
          ensures exists i :: 0 <= i < |lines| && Counted(lines[i]) && KeyOf(lines[i]) == k
        {
          if Get(q.lookup, k).None? {
            var i :| 0 <= i < |rest| && Counted(rest[i]) && KeyOf(rest[i]) == k;
            assert lines[i + 1] == rest[i];
          }
        }
      }
    }
  }

  /** What the first line names, and what the rest name. */
  lemma NamedCons(lines: seq<Line>)
    requires lines != []
    ensures var rest := lines[1..];
      if Counted(lines[0]) then
        var f := lines[0].captured.value;
        NamedStates(lines) == {f.from, f.to} + NamedStates(rest) &&
        Collect(lines, InputOf) == {f.input} + Collect(rest, InputOf) &&
        NamedStackSymbols(lines) == {Strip(f.push), f.pop} + NamedStackSymbols(rest)
      else
        NamedStates(lines) == NamedStates(rest) && Collect(lines, InputOf) == Collect(rest, InputOf) &&
        NamedStackSymbols(lines) == NamedStackSymbols(rest)
  {
  }

  /**
   * What one line adds to the states and the two alphabets. A line that is
   * skipped or fails the pattern adds nothing. A counted line adds its
   * from-state once that is in range, then its to-state once that is; with
   * both in range it adds its input symbol, its stripped push symbol and its
   * pop symbol, even when the input symbol then proves illegal.
   */
  lemma LineSets(p: Parsed, line: Line)
    requires WellFormed(line) && p.kind != INVALID
    ensures var q := ParseLine(p, line);
      if Counted(line) then
        var f := line.captured.value;
        var inRange := DecimalValue(f.from) < 256 && DecimalValue(f.to) < 256;
        q.states == p.states +
          (if DecimalValue(f.from) >= 256 then {} else if DecimalValue(f.to) >= 256 then {f.from} else {f.from, f.to}) &&
        q.alphabet == p.alphabet + (if inRange then {f.input} else {}) &&
        q.stackAlpha == p.stackAlpha + (if inRange then {Strip(f.push), f.pop} else {})
      else
        q.states == p.states && q.alphabet == p.alphabet && q.stackAlpha == p.stackAlpha
  {
  }

  /**
   * Without bad lines, reading collects exactly the states, the input symbols
   * and the stack symbols that the counted lines name.
   */
  lemma {:induction false} ParseLinesSets(p: Parsed, lines: seq<Line>)
    requires AllWellFormed(lines) && p.kind != INVALID && NoBadLine(lines)
    ensures var r := ParseLines(p, lines);
      r.states == p.states + NamedStates(lines) &&
      r.alphabet == p.alphabet + Collect(lines, InputOf) &&
      r.stackAlpha == p.stackAlpha + NamedStackSymbols(lines)
    decreases |lines|
  {
    if lines == [] {
      assert Collect(lines, FromOf) == Collect(lines, ToOf) == Collect(lines, InputOf) == {};
      assert Collect(lines, PushOf) == Collect(lines, PopOf) == {};
    } else {
      var q := ParseLine(p, lines[0]);
      var rest := lines[1..];
      assert forall i :: 0 <= i < |rest| ==> rest[i] == lines[i + 1];
      assert !Bad(lines[0]);
      ParseLinesSets(q, rest);
      var r := ParseLines(q, rest);
      assert ParseLines(p, lines) == r;
      LineSets(p, lines[0]);
      NamedCons(lines);
    }
  }

  /** The first counted line with a key the table lacked is the one whose target is stored. */
  lemma {:induction false} ParseLinesFirst(p: Parsed, lines: seq<Line>)
    requires AllWellFormed(lines) && p.kind != INVALID && NoBadLine(lines)
    ensures forall i :: 0 <= i < |lines| && FirstOfKey(p.lookup, lines, i) ==>
      Get(ParseLines(p, lines).lookup, KeyOf(lines[i])) == Some(TargetOf(lines[i]))
    decreases |lines|
  {
    if lines != [] {
      var q := ParseLine(p, lines[0]);
      var rest := lines[1..];
      assert forall i :: 0 <= i < |rest| ==> rest[i] == lines[i + 1];
      assert !Bad(lines[0]);
      ParseLinesFirst(q, rest);
      ParseLinesKeeps(q, rest);
      var r := ParseLines(q, rest);
      forall i | 0 <= i < |lines| && FirstOfKey(p.lookup, lines, i)
        ensures Get(r.lookup, KeyOf(lines[i])) == Some(TargetOf(lines[i]))
      {
        if i > 0 {
          assert lines[i] == rest[i - 1];
          assert Counted(lines[0]) ==> KeyOf(lines[0]) != KeyOf(lines[i]);
          assert FirstOfKey(q.lookup, rest, i - 1) by {
            forall j | 0 <= j < i - 1 && Counted(rest[j]) ensures KeyOf(rest[j]) != KeyOf(rest[i - 1]) {
              assert rest[j] == lines[j + 1];
            }
          }
        }
      }
    }
  }

  /** The machine is INVALID exactly when an accept state is 256 or more or some line is bad. */
  lemma InvalidExactly(accept: seq<string>, lines: seq<Line>)
    requires AcceptConvertible(accept) && AllWellFormed(lines)
    ensures ReadSpec(accept, lines).kind == INVALID <==> !AcceptInRange(accept) || !NoBadLine(lines)
  {
    if AcceptInRange(accept) {
      ParseLinesInvalid(Initial, lines);
    }
  }

  /**
   * A valid machine is marked NPDA exactly when two lines share a key and ask
   * for different targets, and the first line with each key is the one kept;
   * the table holds the keys of the lines and nothing else.
   */
  lemma FirstEntryKept(accept: seq<string>, lines: seq<Line>)
    requires AcceptConvertible(accept) && AllWellFormed(lines)
    requires AcceptInRange(accept) && NoBadLine(lines)
    ensures ReadSpec(accept, lines).kind == NPDA <==> !Consistent(lines)
    ensures ReadSpec(accept, lines).kind == Unset <==> Consistent(lines)
    ensures forall i :: 0 <= i < |lines| && FirstOfKey(map[], lines, i) ==>
      Get(ReadSpec(accept, lines).lookup, KeyOf(lines[i])) == Some(TargetOf(lines[i]))
    // The table holds no other key.
    ensures forall k :: Get(ReadSpec(accept, lines).lookup, k).Some? ==>
      exists i :: 0 <= i < |lines| && Counted(lines[i]) && KeyOf(lines[i]) == k
  {
    ParseLinesOnlyNamed(Initial, lines);
    ParseLinesNpda(Initial, lines);
    ParseLinesFirst(Initial, lines);
    ParseLinesInvalid(Initial, lines);
  }

  /** The type the constructor settles on: whatever parsing set, or DPDA when nothing was flagged. */
  function MachineType(accept: seq<string>, lines: seq<Line>): (r: Kind)
    requires AcceptConvertible(accept) && AllWellFormed(lines)
    ensures r != Unset
  {
    var k := ReadSpec(accept, lines).kind;
    if k == Unset then DPDA else k
  }

  /**
   * A machine is a DPDA exactly when its accept states and lines are valid and
   * no two lines with the same key ask for different targets; NPDA when only
   * the latter fails; INVALID otherwise.
   */
  lemma MachineTypeExactly(accept: seq<string>, lines: seq<Line>)
    requires AcceptConvertible(accept) && AllWellFormed(lines)
    ensures MachineType(accept, lines) == DPDA <==> AcceptInRange(accept) && NoBadLine(lines) && Consistent(lines)
    ensures MachineType(accept, lines) == NPDA <==> AcceptInRange(accept) && NoBadLine(lines) && !Consistent(lines)
    ensures MachineType(accept, lines) == INVALID <==> !AcceptInRange(accept) || !NoBadLine(lines)
  {
    InvalidExactly(accept, lines);
    if AcceptInRange(accept) && NoBadLine(lines) {
      FirstEntryKept(accept, lines);
    }
  }

  /** Parsing stops at the first bad line: the lines after it have no effect. */
  lemma {:induction false} ParseStopsAtFirstBad(p: Parsed, lines: seq<Line>, k: nat)
    requires AllWellFormed(lines) && p.kind != INVALID && k < |lines|
    requires ParseLines(p, lines[..k]).kind != INVALID && Bad(lines[k])
    ensures ParseLines(p, lines) == ParseLine(ParseLines(p, lines[..k]), lines[k])
    decreases k
  {
    if k == 0 {
      assert lines[..k] == [];
    } else {
      assert lines[..k][0] == lines[0];
      assert lines[..k][1..] == lines[1..][..k - 1];
      ParseStopsAtFirstBad(ParseLine(p, lines[0]), lines[1..], k - 1);
    }
  }

  // ---------------------------------------------------------------- running

  /** The state of one run: where it stands, the stack (top last), the input still to read, the step count. */
  datatype Config = Config(state: StateRef, stack: seq<string>, pending: string, steps: nat)

  /** Where the main loop leaves a run: it ran out of input or budget, or met a character outside the alphabet. */
  datatype Progress = Continue(config: Config) | Halt(config: Config)

  /** Pop the top of the stack; an empty stack gives epsilon. */
  function PopStack(stack: seq<string>): (string, seq<string>) {
    if stack == [] then (EPS, []) else (stack[|stack| - 1], stack[..|stack| - 1])
  }

  /** Push a symbol unless it is epsilon. */
  function PushUnlessEps(stack: seq<string>, symbol: string): seq<string> {
    if symbol != EPS then stack + [symbol] else stack
  }

  /**
   * The transition taken for input symbol `symbol` when `popped` came off the
   * stack leaving `rest`: an epsilon pop key wins and gives the popped symbol
   * back; otherwise the exact pop key; otherwise the trap, with a backquote
   * pushed.
   */
  function Resolve(lookup: Table, s: string, symbol: string, popped: string, rest: seq<string>): (r: (StateRef, seq<string>))
    ensures r.0 != Start
    // The stack below the popped symbol is untouched; at most two symbols go on top.
    ensures |rest| <= |r.1| <= |rest| + 2 && r.1[..|rest|] == rest
    ensures r.0 == Trap <==> Get(lookup, (s, symbol, EPS)) == None && Get(lookup, (s, symbol, popped)) == None
  {
    if s in lookup && symbol in lookup[s] then
      var cell := lookup[s][symbol];
      if EPS in cell then
        (Named(cell[EPS].to), PushUnlessEps(PushUnlessEps(rest, popped), cell[EPS].push))
      else if popped in cell then
        (Named(cell[popped].to), PushUnlessEps(rest, cell[popped].push))
      else
        (Trap, rest + [EPS])
    else
      (Trap, rest + [EPS])
  }

  /**
   * One pass of the main loop. The next character is taken and counted; a
   * character outside the alphabet ends the run. When the state has an
   * epsilon-input entry for the popped symbol, the character is put back and
   * epsilon is used as the input symbol instead.
   */
  function MainStep(lookup: Table, alphabet: set<string>, c: Config): (r: Progress)
    requires c.pending != []
    ensures r.config.steps == c.steps + 1
    ensures r.Halt? <==> [c.pending[0]] !in alphabet
    ensures r.Halt? ==> r.config == Config(c.state, c.stack, c.pending[1..], c.steps + 1)
    // At most one character is read, and the run never returns to the start state.
    ensures r.Continue? ==> (r.config.pending == c.pending || r.config.pending == c.pending[1..]) && r.config.state != Start
  {
    var ch := [c.pending[0]];
    var steps := c.steps + 1;
    if ch !in alphabet then
      Halt(Config(c.state, c.stack, c.pending[1..], steps))
    else
      var (popped, rest) := PopStack(c.stack);
      var s := c.state.Str();
      var preempt := s in lookup && EPS in lookup[s] && popped in lookup[s][EPS];
      var (state, stack) := Resolve(lookup, s, if preempt then EPS else ch, popped, rest);
      Continue(Config(state, stack, if preempt then c.pending else c.pending[1..], steps))
  }

  /**
   * The priority of the keys in one lookup, stated on the table: the epsilon
   * pop key wins and gives the popped symbol back (unless it is epsilon
   * itself); failing that the exact pop key consumes it; failing both the
   * run falls into the trap and a backquote is pushed.
   */
  lemma ResolveOrder(lookup: Table, s: string, symbol: string, popped: string, rest: seq<string>)
    ensures var (state, stack) := Resolve(lookup, s, symbol, popped, rest);
      match Get(lookup, (s, symbol, EPS))
      case Some(t) =>
        state == Named(t.to) &&
        stack == rest + (if popped != EPS then [popped] else []) + (if t.push != EPS then [t.push] else [])
      case None =>
        match Get(lookup, (s, symbol, popped))
        case Some(t) => state == Named(t.to) && stack == rest + (if t.push != EPS then [t.push] else [])
        case None => state == Trap && stack == rest + [EPS]
  {
  }

  /**
   * A main-loop pass on a character of the alphabet: an epsilon-input entry
   * for the popped symbol pre-empts the character, which stays pending;
   * otherwise the character is read and used as the input symbol.
   */
  lemma MainStepOrder(lookup: Table, alphabet: set<string>, c: Config)
    requires c.pending != [] && [c.pending[0]] in alphabet
    ensures var r := MainStep(lookup, alphabet, c);
      var (popped, rest) := PopStack(c.stack);
      var preempt := Get(lookup, (c.state.Str(), EPS, popped)).Some?;
      r.Continue? &&
      r.config.pending == (if preempt then c.pending else c.pending[1..]) &&
      (r.config.state, r.config.stack) == Resolve(lookup, c.state.Str(), if preempt then EPS else [c.pending[0]], popped, rest)
  {
  }

  /** The main loop: it runs while input remains and the budget lasts. */
  function MainLoop(lookup: Table, alphabet: set<string>, c: Config): (r: Progress)
    requires c.steps <= TIMEOUT
    ensures c.steps <= r.config.steps <= TIMEOUT
    decreases TIMEOUT - c.steps
  {
    if c.pending == [] || c.steps >= TIMEOUT then Continue(c)
    else match MainStep(lookup, alphabet, c)
      case Halt(h) => Halt(h)
      case Continue(n) => MainLoop(lookup, alphabet, n)
  }

  /**
   * A main loop started on `pending` and ended at `r` read a prefix of it:
   * what is left is a suffix, every character read is in the alphabet unless
   * the loop halted, and a halt happens on the first character outside the
   * alphabet, which is the last one read.
   */
  predicate ReadsPrefix(alphabet: set<string>, pending: string, r: Progress) {
    |r.config.pending| <= |pending| && r.config.pending == pending[|pending| - |r.config.pending|..] &&
    (r.Continue? ==> forall j :: 0 <= j < |pending| - |r.config.pending| ==> [pending[j]] in alphabet) &&
    (r.Halt? ==> HaltedAtFirstForeign(alphabet, pending, |pending| - |r.config.pending|))
  }

  /** The k-th character (counting from 1) is the first one outside the alphabet. */
  predicate HaltedAtFirstForeign(alphabet: set<string>, pending: string, k: int) {
    0 < k <= |pending| && [pending[k - 1]] !in alphabet && forall j :: 0 <= j < k - 1 ==> [pending[j]] in alphabet
  }

  /**
   * What the main loop reads: a prefix of the input, and unless it halted it
   * ends with the input used up or the budget spent.
   */
  lemma {:induction false} MainLoopReads(lookup: Table, alphabet: set<string>, c: Config)
    requires c.steps <= TIMEOUT
    ensures var r := MainLoop(lookup, alphabet, c);
      ReadsPrefix(alphabet, c.pending, r) && (r.Continue? ==> r.config.pending == [] || r.config.steps == TIMEOUT)
    decreases TIMEOUT - c.steps
  {
    if c.pending != [] && c.steps < TIMEOUT {
      var r := MainStep(lookup, alphabet, c);
      if r.Halt? {
        assert MainLoop(lookup, alphabet, c) == r;
        assert r.config.pending == c.pending[1..] && [c.pending[0]] !in alphabet;
      } else {
        var n := r.config;
        MainLoopReads(lookup, alphabet, n);
        var m := MainLoop(lookup, alphabet, n);
        assert MainLoop(lookup, alphabet, c) == m;
        if n.pending != c.pending {
          // The character was read: it is in the alphabet, and the rest is read from the tail.
          assert n.pending == c.pending[1..];
          ReadOneMore(alphabet, c.pending, m);
        }
      }
    }
  }

  /** A loop that read the first character, which is in the alphabet, and then a prefix of the rest, read a prefix of the whole. */
  lemma ReadOneMore(alphabet: set<string>, pending: string, m: Progress)
    requires pending != [] && [pending[0]] in alphabet && ReadsPrefix(alphabet, pending[1..], m)
    ensures ReadsPrefix(alphabet, pending, m)
  {
    var rest := pending[1..];
    var k := |rest| - |m.config.pending|;
    assert m.config.pending == pending[1 + k..];
    if m.Continue? {
      forall j | 0 <= j < 1 + k ensures [pending[j]] in alphabet {
        if j > 0 { assert pending[j] == rest[j - 1]; }
      }
    } else {
      assert HaltedAtFirstForeign(alphabet, rest, k);
      forall j | 0 <= j < k ensures [pending[j]] in alphabet {
        if j > 0 { assert pending[j] == rest[j - 1]; }
      }
      assert pending[k] == rest[k - 1];
      assert HaltedAtFirstForeign(alphabet, pending, k + 1);
    }
  }

  /** The state has an epsilon-input row; the trap and start states never have one, since the table is keyed by strings. */
  predicate HasEpsilonRow(lookup: Table, s: StateRef) {
    s.Named? && s.name in lookup && EPS in lookup[s.name]
  }

  /** One pass of the trailing loop: the popped symbol is consumed and only the epsilon-input row is consulted. */
  function TrailStep(lookup: Table, c: Config): (r: Config)
    requires HasEpsilonRow(lookup, c.state)
    ensures r.steps == c.steps + 1 && r.pending == c.pending && r.state != Start
    // The popped symbol is gone for good when the trap is entered; otherwise at most the push lands on what lay below it.
    ensures var below := PopStack(c.stack).1;
      (r.state == Trap ==> r.stack == below) && |below| <= |r.stack| <= |below| + 1 && r.stack[..|below|] == below
    // Only the epsilon-input entry for the popped symbol is looked up; without one the pass traps.
    ensures var (popped, below) := PopStack(c.stack);
      match Get(lookup, (c.state.name, EPS, popped))
      case Some(t) => r.state == Named(t.to) && r.stack == PushUnlessEps(below, t.push)
      case None => r.state == Trap && r.stack == below
  {
    var (popped, rest) := PopStack(c.stack);
    var cell := lookup[c.state.name][EPS];
    if popped in cell then
      Config(Named(cell[popped].to), PushUnlessEps(rest, cell[popped].push), c.pending, c.steps + 1)
    else
      Config(Trap, rest, c.pending, c.steps + 1)
  }

  /** The trailing loop: epsilon moves after the input is used up, within the same budget. */
  function Trailing(lookup: Table, c: Config): (r: Config)
    requires c.steps <= TIMEOUT
    ensures c.steps <= r.steps <= TIMEOUT && r.pending == c.pending
    ensures c.steps == TIMEOUT || !HasEpsilonRow(lookup, c.state) ==> r == c
    // It stops at a state without an epsilon-input row, or when the budget is spent.
    ensures r.steps == TIMEOUT || !HasEpsilonRow(lookup, r.state)
    decreases TIMEOUT - c.steps
  {
    if HasEpsilonRow(lookup, c.state) && c.steps < TIMEOUT then Trailing(lookup, TrailStep(lookup, c)) else c
  }

  /**
   * The two loops read a backquote pop key differently. In the main loop a
   * row whose pop key is the backquote is taken and the popped symbol is
   * given back; in the trailing loop only the popped symbol itself is looked
   * up, so an epsilon-input row that holds nothing but the backquote pop key
   * sends the run into the trap and the popped symbol is lost.
   */
  lemma LoopsTreatBackquotePopDifferently(lookup: Table, alphabet: set<string>, s: string, ch: char, t: Target,
                                          x: string, below: seq<string>, more: string, n: nat)
    requires x != EPS && [ch] in alphabet
    requires Get(lookup, (s, EPS, EPS)).Some? && Get(lookup, (s, EPS, x)) == None
    requires Get(lookup, (s, [ch], EPS)) == Some(t)
    ensures HasEpsilonRow(lookup, Named(s))
    ensures MainStep(lookup, alphabet, Config(Named(s), below + [x], [ch] + more, n)) ==
      Continue(Config(Named(t.to), below + [x] + (if t.push != EPS then [t.push] else []), more, n + 1))
    ensures TrailStep(lookup, Config(Named(s), below + [x], more, n)) == Config(Trap, below, more, n + 1)
  {
    var c := Config(Named(s), below + [x], [ch] + more, n);
    assert PopStack(c.stack) == (x, below);
    assert c.pending[0] == ch && c.pending[1..] == more;
    MainStepOrder(lookup, alphabet, c);
    ResolveOrder(lookup, s, [ch], x, below);
  }

  /** The state and stack a run leaves behind, whether it halted on a foreign character, and what it appends to `language`. */
  datatype RunResult = RunResult(final: Config, halted: bool, appended: seq<string>)

  /** `run_machine` from state `start` with stack `stack`. */
  function Execute(lookup: Table, alphabet: set<string>, accept: seq<string>, start: StateRef, stack: seq<string>, input: string): (r: RunResult)
    ensures r.final.steps <= TIMEOUT
    // A whitespace-only string is judged at the current state, without stepping.
    ensures AllSpace(input) ==>
      r.final.state == start && r.final.stack == stack && r.appended == (if start.Str() in accept then ["\n"] else [])
    // Any other string is appended only when the run ends accepting and under budget.
    ensures !AllSpace(input) ==>
      (r.appended == [input] <==> !r.halted && r.final.state.Str() in accept && r.final.steps != TIMEOUT) &&
      (r.appended == [] || r.appended == [input])
  {
    if AllSpace(input) then
      RunResult(Config(start, stack, input, 0), false, if start.Str() in accept then ["\n"] else [])
    else match MainLoop(lookup, alphabet, Config(start, stack, input, 0))
      case Halt(h) => RunResult(h, true, [])
      case Continue(m) =>
        var t := Trailing(lookup, m);
        RunResult(t, false, if t.state.Str() in accept && t.steps != TIMEOUT then [input] else [])
  }

  /** When the table has no row "255", a run that reaches the trap state stays there through the main loop. */
  lemma {:induction false} MainLoopTrapAbsorbing(lookup: Table, alphabet: set<string>, c: Config)
    requires "255" !in lookup && c.state == Trap && c.steps <= TIMEOUT
    ensures MainLoop(lookup, alphabet, c).config.state == Trap
    decreases TIMEOUT - c.steps
  {
    if c.pending != [] && c.steps < TIMEOUT {
      match MainStep(lookup, alphabet, c)
      case Halt(h) =>
      case Continue(n) => MainLoopTrapAbsorbing(lookup, alphabet, n);
    }
  }

  /** ... and through the trailing loop, so the verdict is that of state 255. */
  lemma TrapAbsorbing(lookup: Table, alphabet: set<string>, accept: seq<string>, c: Config)
    requires "255" !in lookup && c.state == Trap && c.steps <= TIMEOUT
    ensures var m := MainLoop(lookup, alphabet, c);
      m.config.state == Trap && (m.Continue? ==> Trailing(lookup, m.config).state == Trap)
  {
    MainLoopTrapAbsorbing(lookup, alphabet, c);
  }

  /** A string with a character outside the alphabet is never appended, and a run halts only on such a character. */
  lemma ForeignNeverAppended(lookup: Table, alphabet: set<string>, accept: seq<string>, start: StateRef, stack: seq<string>, input: string)
    ensures var r := Execute(lookup, alphabet, accept, start, stack, input);
      (!AllSpace(input) && (exists j :: 0 <= j < |input| && [input[j]] !in alphabet) ==> r.appended == []) &&
      (r.halted ==> exists j :: 0 <= j < |input| && [input[j]] !in alphabet)
  {
    MainLoopReads(lookup, alphabet, Config(start, stack, input, 0));
    var r := Execute(lookup, alphabet, accept, start, stack, input);
    if r.halted {
      var m := MainLoop(lookup, alphabet, Config(start, stack, input, 0));
      assert [input[|input| - |m.config.pending| - 1]] !in alphabet;
    }
    if !AllSpace(input) && (exists j :: 0 <= j < |input| && [input[j]] !in alphabet) && !r.halted {
      var m := MainLoop(lookup, alphabet, Config(start, stack, input, 0));
      var j :| 0 <= j < |input| && [input[j]] !in alphabet;
      // Every character read was in the alphabet, so the foreign one was never reached: the budget ran out.
      assert m.config.pending != [];
      assert m.config.steps == TIMEOUT;
    }
  }

  // ---------------------------------------------------------------- the machine

  /** A machine read from a definition, with the state of the current run and the accepted strings. */
  class Dpda {
    var lookup: Table
    var stack: seq<string>
    var input: string
    var accept: seq<string>
    var currentState: StateRef
    var alphabet: set<string>
    var stackAlpha: set<string>
    var language: seq<string>
    var kind: Kind
    var states: set<string>

    function Snapshot(): Parsed
      reads this
    {
      Parsed(lookup, states, alphabet, stackAlpha, kind)
    }

    /** Reads the definition and checks determinism; a machine that nothing flagged becomes a DPDA. */
    constructor (entries: seq<string>, lines: seq<Line>)
      requires AcceptConvertible(entries) && AllWellFormed(lines)
      ensures var p := ReadSpec(entries, lines);
        lookup == p.lookup && states == p.states && alphabet == p.alphabet && stackAlpha == p.stackAlpha
      ensures kind == MachineType(entries, lines)
      ensures accept == entries && currentState == Start && stack == [] && input == "" && language == []
    {
      lookup, stack, input, accept, currentState := map[], [], "", [], Start;
      alphabet, stackAlpha, language, kind, states := {}, {}, [], Unset, {};
      new;
      ReadMachine(entries, lines);
      ValidateDeterminism();
      if kind == Unset {
        kind := DPDA;
      }
    }

    /** Clears the state of a run; the table, the alphabets and `language` stay. */
    method ResetMachine()
      modifies this`currentState, this`stack, this`input
      ensures currentState == Start && stack == [] && input == ""
    {
      currentState := Start;
      stack := [];
      input := "";
    }

    method ReadMachine(entries: seq<string>, lines: seq<Line>)
      requires AcceptConvertible(entries) && AllWellFormed(lines)
      requires Snapshot() == Initial
      modifies this`accept, this`lookup, this`states, this`alphabet, this`stackAlpha, this`kind
      ensures Snapshot() == ReadSpec(entries, lines) && accept == entries
    {
      accept := entries;
      var inRange := CheckAccept(entries);
      if !inRange {
        kind := INVALID;
        return;
      }
      var j := 0;
      while j < |lines|
        invariant 0 <= j <= |lines|
        invariant kind != INVALID && accept == entries
        invariant ParseLines(Snapshot(), lines[j..]) == ParseLines(Initial, lines)
      {
        ghost var before := Snapshot();
        assert lines[j..][0] == lines[j] && lines[j..][1..] == lines[j + 1..];
        ReadLine(lines[j]);
        if kind == INVALID {
          assert ParseLines(before, lines[j..]) == Snapshot();
          return;
        }
        assert ParseLines(before, lines[j..]) == ParseLines(Snapshot(), lines[j + 1..]);
        j := j + 1;
      }
    }

    /** One pass of the line loop of `read_machine`; INVALID ends the loop. */
    method ReadLine(line: Line)
      requires WellFormed(line) && kind != INVALID
      modifies this`lookup, this`states, this`alphabet, this`stackAlpha, this`kind
      ensures Snapshot() == ParseLine(old(Snapshot()), line)
    {
      if StartsWithSpace(line.text) {
        return;
      }
      if line.captured.None? {
        kind := INVALID;
        return;
      }
      ReadFields(line.captured.value);
    }

    /** The rest of a pass for a line whose pattern matched. */
    method ReadFields(f: Fields)
      requires IsDigits(f.from) && IsDigits(f.to) && kind != INVALID
      modifies this`lookup, this`states, this`alphabet, this`stackAlpha, this`kind
      ensures Snapshot() == ParseFields(old(Snapshot()), f)
    {
      ghost var p := Snapshot();
      if !(DecimalValue(f.from) < 256) {
        kind := INVALID;
        return;
      }
      states := states + {f.from};
      if !(DecimalValue(f.to) < 256) {
        kind := INVALID;
        return;
      }
      states := states + {f.to};
      var push := Strip(f.push);
      var target := Target(f.to, push);
      alphabet := alphabet + {f.input};
      stackAlpha := stackAlpha + {push};
      stackAlpha := stackAlpha + {f.pop};
      assert states == p.states + {f.from, f.to} && stackAlpha == p.stackAlpha + {target.push, f.pop};
      ghost var read := Parsed(p.lookup, states, alphabet, stackAlpha, p.kind);
      if !InChars(f.input) && f.input != EPS {
        kind := INVALID;
        assert ParseFields(p, f) == read.(kind := INVALID);
        return;
      }
      assert ParseFields(p, f) == match Get(p.lookup, (f.from, f.input, f.pop))
        case Some(stored) => read.(kind := if stored != target then NPDA else p.kind)
        case None => read.(lookup := Insert(p.lookup, (f.from, f.input, f.pop), target));
      EnterTransition((f.from, f.input, f.pop), target);
    }

    /** Sets up the table levels for a key and stores the target unless the key is already present. */
    method EnterTransition(k: Key, target: Target)
      modifies this`lookup, this`kind
      ensures match Get(old(lookup), k)
        case Some(stored) => lookup == old(lookup) && kind == (if stored != target then NPDA else old(kind))
        case None => lookup == Insert(old(lookup), k, target) && kind == old(kind)
    {
      var (from, input, pop) := k;
      ghost var row := if from in lookup then lookup[from] else map[];
      ghost var cell := if input in row then row[input] else map[];
      if from !in lookup {
        lookup := lookup[from := map[]];
      }
      assert lookup == old(lookup)[from := row];
      if input !in lookup[from] {
        lookup := lookup[from := lookup[from][input := map[]]];
      }
      assert lookup[from] == row[input := cell];
      if pop in lookup[from][input] {
        assert lookup == old(lookup);
        if target != lookup[from][input][pop] {
          kind := NPDA;
        }
      } else {
        assert lookup == old(lookup)[from := row[input := cell]];
        lookup := lookup[from := lookup[from][input := lookup[from][input][pop := target]]];
        assert lookup[from] == row[input := cell[pop := target]];
      }
    }

    /**
     * For each row, the (input symbol, pop-symbol set) pairs are compared
     * neighbour by neighbour; two equal neighbours would mark the machine
     * NPDA. The input symbols of a row are distinct keys, so no two pairs are
     * ever equal and the kind is left as parsing set it.
     */
    method ValidateDeterminism()
      modifies this`kind
      ensures kind == old(kind)
    {
      var fromStates := lookup.Keys;
      var found := false;
      while fromStates != {} && !found
        invariant fromStates <= lookup.Keys && !found && kind == old(kind)
        decreases fromStates
      {
        var from :| from in fromStates;
        fromStates := fromStates - {from};
        var pairs := PopKeyPairs(lookup[from]);
        found := AdjacentDuplicate(pairs);
      }
      kind := if found then NPDA else kind;
    }

    /** Runs one string from the current state and stack and appends it to `language` if accepted. */
    method RunMachine(inputString: string)
      modifies this`currentState, this`stack, this`input, this`language
      ensures var r := Execute(lookup, alphabet, accept, old(currentState), old(stack), inputString);
        currentState == r.final.state && stack == r.final.stack && language == old(language) + r.appended
      ensures input == if AllSpace(inputString) then old(input) else inputString
    {
      if AllSpace(inputString) {
        if currentState.Str() in accept {
          language := language + ["\n"];
        }
        return;
      }
      input := inputString;
      var halted, pending, transitions := MainPhase(inputString);
      if halted {
        return;
      }
      transitions := TrailingPhase(pending, transitions);
      if currentState.Str() in accept && transitions != TIMEOUT {
        language := language + [input];
      }
    }

    /** The main loop of `run_machine`: reads the input under the step budget. */
    method MainPhase(inputString: string) returns (halted: bool, pending: string, transitions: nat)
      modifies this`currentState, this`stack
      ensures var m := MainLoop(lookup, alphabet, Config(old(currentState), old(stack), inputString, 0));
        halted == m.Halt? && m.config == Config(currentState, stack, pending, transitions)
    {
      transitions := 0;
      pending := inputString;
      ghost var main := MainLoop(lookup, alphabet, Config(currentState, stack, pending, 0));
      while pending != [] && transitions < TIMEOUT
        invariant transitions <= TIMEOUT
        invariant MainLoop(lookup, alphabet, Config(currentState, stack, pending, transitions)) == main
        decreases TIMEOUT - transitions
      {
        ghost var before := Config(currentState, stack, pending, transitions);
        var halt;
        halt, pending := MainPass(pending, transitions);
        transitions := transitions + 1;
        ghost var after := Config(currentState, stack, pending, transitions);
        if halt {
          assert MainStep(lookup, alphabet, before) == Halt(after);
          return true, pending, transitions;
        }
        assert MainStep(lookup, alphabet, before) == Continue(after);
        assert MainLoop(lookup, alphabet, before) == MainLoop(lookup, alphabet, after);
      }
      halted := false;
    }

    /**
     * One pass of the main loop: the next character is taken; outside the
     * alphabet the run halts; otherwise a symbol is popped and, when the state
     * has an epsilon-input entry for it, the character is put back and
     * epsilon is looked up instead.
     */
    method MainPass(pending: string, steps: nat) returns (halt: bool, rest: string)
      requires pending != []
      modifies this`currentState, this`stack
      ensures MainStep(lookup, alphabet, Config(old(currentState), old(stack), pending, steps)) ==
        if halt then Halt(Config(currentState, stack, rest, steps + 1)) else Continue(Config(currentState, stack, rest, steps + 1))
    {
      var inputChar := [pending[0]];
      rest := pending[1..];
      if inputChar !in alphabet {
        return true, rest;
      }
      var stackChar := EPS;
      if stack != [] {
        stackChar := stack[|stack| - 1];
        stack := stack[..|stack| - 1];
      }
      assert (stackChar, stack) == PopStack(old(stack));
      var s := currentState.Str();
      ghost var preempt := s in lookup && EPS in lookup[s] && stackChar in lookup[s][EPS];
      ghost var symbol := if preempt then EPS else inputChar;
      ghost var popped := stack;
      if s in lookup && EPS in lookup[s] && stackChar in lookup[s][EPS] {
        rest := inputChar + rest;
        assert rest == pending;
        inputChar := EPS;
      }
      Transition(s, inputChar, stackChar);
      assert (currentState, stack) == Resolve(lookup, s, symbol, stackChar, popped);
      halt := false;
    }

    /** The transition lookup of one main-loop pass, after `popped` came off the stack. */
    method Transition(s: string, symbol: string, popped: string)
      modifies this`currentState, this`stack
      ensures (currentState, stack) == Resolve(lookup, s, symbol, popped, old(stack))
    {
      if s in lookup && symbol in lookup[s] {
        var cell := lookup[s][symbol];
        if EPS in cell {
          if popped != EPS {
            stack := stack + [popped];
          }
          var target := cell[EPS];
          currentState := Named(target.to);
          if target.push != EPS {
            stack := stack + [target.push];
          }
        } else if popped in cell {
          var target := cell[popped];
          currentState := Named(target.to);
          if target.push != EPS {
            stack := stack + [target.push];
          }
        } else {
          currentState := Trap;
          stack := stack + [EPS];
        }
      } else {
        currentState := Trap;
        stack := stack + [EPS];
      }
    }

    /** The trailing loop of `run_machine`: epsilon moves after the input is used up. */
    method TrailingPhase(pending: string, transitions: nat) returns (steps: nat)
      requires transitions <= TIMEOUT
      modifies this`currentState, this`stack
      ensures Trailing(lookup, Config(old(currentState), old(stack), pending, transitions)) == Config(currentState, stack, pending, steps)
    {
      steps := transitions;
      while HasEpsilonRow(lookup, currentState) && steps < TIMEOUT
        invariant transitions <= steps <= TIMEOUT
        invariant Trailing(lookup, Config(currentState, stack, pending, steps)) ==
          Trailing(lookup, Config(old(currentState), old(stack), pending, transitions))
        decreases TIMEOUT - steps
      {
        ghost var before := Config(currentState, stack, pending, steps);
        assert Trailing(lookup, before) == Trailing(lookup, TrailStep(lookup, before));
        TrailPass(pending, steps);
        steps := steps + 1;
        assert TrailStep(lookup, before) == Config(currentState, stack, pending, steps);
      }
    }

    /** One pass of the trailing loop: pop a symbol and follow the epsilon-input entry for it, or fall into the trap. */
    method TrailPass(pending: string, steps: nat)
      requires HasEpsilonRow(lookup, currentState)
      modifies this`currentState, this`stack
      ensures Config(currentState, stack, pending, steps + 1) == TrailStep(lookup, Config(old(currentState), old(stack), pending, steps))
    {
      var stackChar := EPS;
      if stack != [] {
        stackChar := stack[|stack| - 1];
        stack := stack[..|stack| - 1];
      }
      var cell := lookup[currentState.name][EPS];
      if stackChar in cell {
        var target := cell[stackChar];
        currentState := Named(target.to);
        if target.push != EPS {
          stack := stack + [target.push];
        }
      } else {
        currentState := Trap;
      }
    }
  }

  /** The (input symbol, pop-symbol set) pairs of one row, in the order the keys are drawn. */
  method PopKeyPairs(row: map<string, map<string, Target>>) returns (pairs: seq<(string, set<string>)>)
    ensures forall i :: 0 <= i < |pairs| ==> pairs[i].0 in row && pairs[i].1 == row[pairs[i].0].Keys
    ensures forall i, j :: 0 <= i < j < |pairs| ==> pairs[i].0 != pairs[j].0
    ensures (set i | 0 <= i < |pairs| :: pairs[i].0) == row.Keys
  {
    pairs := [];
    var todo := row.Keys;
    while todo != {}
      invariant todo <= row.Keys
      invariant forall i :: 0 <= i < |pairs| ==> pairs[i].0 in row && pairs[i].0 !in todo && pairs[i].1 == row[pairs[i].0].Keys
      invariant forall i, j :: 0 <= i < j < |pairs| ==> pairs[i].0 != pairs[j].0
      invariant (set i | 0 <= i < |pairs| :: pairs[i].0) == row.Keys - todo
      decreases todo
    {
      var x :| x in todo;
      ghost var prev := pairs;
      pairs := pairs + [(x, row[x].Keys)];
      todo := todo - {x};
      assert (set i | 0 <= i < |pairs| :: pairs[i].0) == (set i | 0 <= i < |prev| :: prev[i].0) + {x} by {
        assert pairs[|prev|].0 == x;
        assert forall i :: 0 <= i < |prev| ==> pairs[i] == prev[i];
      }
    }
  }

  /** Whether two neighbouring pairs are equal. */
  method AdjacentDuplicate(pairs: seq<(string, set<string>)>) returns (found: bool)
    ensures found <==> exists i :: 0 <= i < |pairs| - 1 && pairs[i] == pairs[i + 1]
  {
    var i := 0;
    while i + 1 < |pairs|
      invariant 0 <= i <= |pairs|
      invariant forall j :: 0 <= j < i && j + 1 < |pairs| ==> pairs[j] != pairs[j + 1]
    {
      if pairs[i] == pairs[i + 1] {
        return true;
      }
      i := i + 1;
    }
    return false;
  }
}
