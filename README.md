# Table-driven automata: a pushdown engine, a finite-automaton simulator and a character classifier

This project models three components of a formal-languages coursework
repository in Dafny and proves properties of the model.

- **Pushdown-automaton engine** (`PJ04/PDA.py`, class `DPDA`), in `pda.dfy`,
  module `Pushdown`. A definition is a first line, read only for an accept
  list `{s1,s2,...}`, followed by lines `from,input,pop,to,push`. Reading it builds the
  three-level table `lookup[from][input][pop] = (to, push)`, the state set and
  the input and stack alphabets, and classifies the machine as DPDA, NPDA or
  INVALID. A run drives one string through the table. It uses a list stack,
  epsilon transitions and a budget of `TIMEOUT` = 10000 steps, and appends
  accepted strings to `language`. The class `Pushdown.Dpda` keeps the
  source's fields and updates them in place. Its reading and running methods
  are proved against specification functions: `ReadSpec`/`ParseLine` for reading,
  `Execute`/`MainLoop`/`Trailing` for a run. The lemmas state what those
  functions guarantee.
- **Finite-automaton simulator** (`PJ01/FSM.py`, class `Machine`), in
  `fsm.dfy`, module `FiniteAutomaton`. Its definitions have the same first
  line, then lines `from,symbol,to`. These build
  `lookup[symbol][from] = to` and classify the machine as DFA, NFA or
  INVALID. A run is a left fold of the table over the input, and a missing
  entry leads to state 255.
- **Character classifier** (`PJ03/jack.py`, `get_col`), in `jack.dfy`,
  module `JackColumns`. It maps one character to the name of a tokenizer
  column; the first matching branch decides.
- `common.dfy` holds what the automata share. `Wrappers.Option`. Module
  `Text` has the ASCII part of Python's whitespace class, `str.strip`,
  `int()` and the accept-state loop. Module `Gather` collects the values the
  lines of a definition name. Module `States` has the state reference
  `Start | Trap | Named(name)`.
- `pda_examples.dfy` holds lemmas that prove what the pushdown model does on
  small machines.

Points where the model follows the code rather than its comments:

- **The first line is always consumed.** Both readers take the first line
  with `readline()` and look in it only for `{...}`
  (`PJ04/PDA.py:59-66`, `PJ01/FSM.py:36-43`). Without braces the line is
  dropped silently, even when it is a transition, and the accept list stays
  empty. The line loop starts at the second line. So the model takes the
  accept entries and the remaining lines as two separate inputs.

- **Epsilon is the backquote `` ` ``.** An empty field is the symbol `""`,
  not epsilon. Once a line has matched, reading its groups never fails, so
  the fallbacks to `` ` `` at `PJ04/PDA.py:92-96` and `:115-118` are never
  taken. So ``0,a,,1,x`` / ``1,b,x,5,` `` does not accept "ab": the empty stack
  pops as `` ` ``, which is not the key `""`, and the run traps
  (`PushdownExamples.EmptyPopFieldIsNotEpsilon`). Written with `` ` ``, the
  same machine accepts "ab" and rejects "a" and "ba"
  (`PushdownExamples.PushPopLanguage`).
- **A repeated `(from, input, pop)` key keeps the FIRST entry.** A different
  target only marks the machine NPDA; nothing overwrites the stored entry
  (`PJ04/PDA.py:147-154`).
- **The determinism check never changes the type.** It compares whole
  `(input symbol, pop keys)` pairs, and the input symbols of one row are
  distinct keys, so no two pairs are ever equal. The final type is what
  reading left, or DPDA when reading set none.
- **The current state has three forms.** It is the integer 0 at the start,
  the integer 255 after a trap, and otherwise a string copied from the
  table. The main loop looks rows up by `str(state)`. The trailing loop
  looks them up by the state itself, so it never runs from the start or trap
  state, and it stops at a state without a row. `StateRef` keeps the three
  forms apart.
- **The trap state is not special in the table.** States up to 255 are
  legal, so a definition may give the string state `"255"` a row or list 255
  as an accept state. The trap is absorbing when no `"255"` row exists
  (`Pushdown.TrapAbsorbing`, `FiniteAutomaton.TrapAbsorbing`).
- **The budget is checked with `!=`.** A run that ends after exactly 10000
  steps is rejected, whatever its state.

## Model

| member | source | states |
|---|---|---|
| `Pushdown.ParseLine` | PJ04/PDA.py:73-154 | A blank-led line changes nothing. The machine becomes INVALID exactly when the line fails the pattern, has a state of 256 or more, or has an input symbol outside the printable set. A key already present keeps its entry, and a different target marks NPDA. A new key is inserted. No state or symbol is ever removed from the sets. |
| `Pushdown.ParseFields` | PJ04/PDA.py:97-154 | For a matched line: INVALID exactly on an out-of-range state or an illegal input symbol, with the table untouched. Otherwise the stored entry is kept (NPDA if the new target differs) or the new key is inserted. The from-state is added once it is in range, then the to-state. With both in range, the input symbol, the stripped push symbol and the pop symbol are added, even when the input symbol then proves illegal. |
| `Pushdown.LineSets` | PJ04/PDA.py:73-124 | What one line adds to the states, the input alphabet and the stack alphabet. A skipped or unmatched line adds nothing. A matched line adds what `ParseFields` states. |
| `Pushdown.ParseLinesSets` | PJ04/PDA.py:73-132 | Without bad lines, the loop adds exactly the states, input symbols and stack symbols that the matched lines name. |
| `Pushdown.ParseLines` | PJ04/PDA.py:73-154 | The line loop only moves the kind to NPDA or INVALID, and the sets only grow. |
| `Pushdown.ReadSpec` | PJ04/PDA.py:54-154 | Reading never yields DPDA by itself. An accept state of 256 or more gives INVALID with an empty table, no states, no input symbols and no stack symbols. |
| `Pushdown.MachineType` | PJ04/PDA.py:25-28 | The constructor always settles on a type. |
| `Pushdown.ParseLinesInvalid` | PJ04/PDA.py:73-132 | The line loop ends INVALID exactly when some line is bad. Otherwise the kind stays as it was or becomes NPDA. |
| `Pushdown.ParseLinesNpda` | PJ04/PDA.py:146-154 | Without bad lines, the loop ends NPDA exactly when it already was NPDA, or a line disagrees with an entry the table held, or two lines with one key ask for different targets. |
| `Pushdown.ParseLinesKeeps` | PJ04/PDA.py:146-154 | Entries already in the table survive the loop, and every matched line's key ends up in the table. |
| `Pushdown.ParseLinesFirst` | PJ04/PDA.py:146-154 | The first line with a key the table lacked is the one whose target is stored. |
| `Pushdown.InvalidExactly` | PJ04/PDA.py:67-132 | The machine is INVALID exactly when an accept entry is 256 or more or some line is bad. |
| `Pushdown.FirstEntryKept` | PJ04/PDA.py:146-154 | For a valid definition: NPDA exactly when two lines with one key ask for different targets, the first line of each key is the entry kept, and the table holds no key that no line brings. |
| `Pushdown.ParseLinesOnlyNamed` | PJ04/PDA.py:146-154 | Every key in the table after the loop was there before or is the key of a matched line. |
| `Pushdown.LineKeys` | PJ04/PDA.py:146-154 | One line adds at most its own key to the table. |
| `Pushdown.MachineTypeExactly` | PJ04/PDA.py:25-28 | The final type is DPDA, NPDA or INVALID exactly under the conditions above, both directions. |
| `Pushdown.ParseStopsAtFirstBad` | PJ04/PDA.py:73-132 | Reading stops at the first bad line: the lines after it change nothing. |
| `Pushdown.Resolve` | PJ04/PDA.py:194-219 | A lookup never returns to the start state. It leaves the stack below the popped symbol untouched and puts at most two symbols on top. It traps exactly when neither the epsilon pop key nor the popped symbol has an entry. |
| `Pushdown.ResolveOrder` | PJ04/PDA.py:194-219 | Lookup priority: the epsilon pop key wins and gives the popped symbol back. Then the exact pop key consumes it. Otherwise the run traps and pushes a backquote. |
| `Pushdown.MainStep` | PJ04/PDA.py:175-219 | A main-loop pass counts one step and halts exactly on a character outside the alphabet, changing nothing else but the input. Otherwise it reads at most one character and never returns to the start state. |
| `Pushdown.MainStepOrder` | PJ04/PDA.py:175-193 | On a character of the alphabet, an epsilon-input entry for the popped symbol pre-empts the character, which stays pending. Otherwise the character is read and used as the input symbol. |
| `Pushdown.MainLoop` | PJ04/PDA.py:174-175 | The step counter never decreases and never exceeds TIMEOUT. |
| `Pushdown.MainLoopReads` | PJ04/PDA.py:174-180 | The loop reads a prefix of the input. It ends with the input used up or the budget spent, all characters read being in the alphabet, or it halts, and then on the first character outside the alphabet, the last one read. |
| `Pushdown.TrailStep` | PJ04/PDA.py:222-233 | A trailing pass counts one step and leaves the input alone. It pops a symbol and looks up only the epsilon-input entry for it: with one it goes to the entry's target with the push on what lay below; without one it traps and the popped symbol is lost. |
| `Pushdown.LoopsTreatBackquotePopDifferently` | PJ04/PDA.py:194-233 | The main loop takes a backquote pop key and gives the popped symbol back. The trailing loop looks up only the popped symbol, so a row holding only the backquote pop key sends it to the trap and the symbol is lost. |
| `Pushdown.Trailing` | PJ04/PDA.py:220-236 | The trailing loop stays within the budget, leaves pending input alone and does nothing at a state without an epsilon-input row. It stops only at such a state or when the budget is spent. |
| `Pushdown.Execute` | PJ04/PDA.py:157-238 | Every run ends within TIMEOUT steps. A whitespace-only string is judged at the current state without stepping. Any other string is appended exactly when the run did not halt, its final state is accepting and the counter is not TIMEOUT. |
| `Pushdown.MainLoopTrapAbsorbing` | PJ04/PDA.py:194-219 | Without a `"255"` row, a run in the trap state stays there through the main loop. |
| `Pushdown.TrapAbsorbing` | PJ04/PDA.py:220-236 | Without a `"255"` row, the trap state survives the main loop and the trailing loop. |
| `Pushdown.ForeignNeverAppended` | PJ04/PDA.py:179-180 | A string with a character outside the alphabet is never appended, and a run halts only on such a character. |
| `Pushdown.PopKeyPairs` | PJ04/PDA.py:44-46 | One pair per input symbol of the row, pairing it with that symbol's pop-key set; the symbols are pairwise distinct and cover the row. |
| `Pushdown.AdjacentDuplicate` | PJ04/PDA.py:47-51 | True exactly when two neighbouring pairs are equal. |
| `Pushdown.Dpda.constructor` | PJ04/PDA.py:7-28 | The table, states and alphabets are those of `ReadSpec`. The type is `MachineType`. The run state starts at state 0 with an empty stack, and `language` starts empty. |
| `Pushdown.Dpda.ResetMachine` | PJ04/PDA.py:30-35 | Sets state 0, an empty stack and empty input; nothing else is modified. |
| `Pushdown.Dpda.ReadMachine` | PJ04/PDA.py:54-154 | The loop leaves exactly the machine `ReadSpec` describes. |
| `Pushdown.Dpda.ReadLine` | PJ04/PDA.py:73-96 | One pass of the line loop is `ParseLine`. |
| `Pushdown.Dpda.ReadFields` | PJ04/PDA.py:97-132 | The rest of a pass for a matched line is `ParseFields`. |
| `Pushdown.Dpda.EnterTransition` | PJ04/PDA.py:134-154 | A present key keeps its entry, and NPDA is set if the target differs. A missing key is inserted with the kind unchanged. |
| `Pushdown.Dpda.ValidateDeterminism` | PJ04/PDA.py:37-51 | The machine type is left unchanged. |
| `Pushdown.Dpda.RunMachine` | PJ04/PDA.py:157-238 | The new state, stack and `language` are those `Execute` gives for the old state and stack. |
| `Pushdown.Dpda.MainPhase` | PJ04/PDA.py:164-219 | The loop ends where `MainLoop` ends, and reports whether it halted. |
| `Pushdown.Dpda.MainPass` | PJ04/PDA.py:175-219 | One pass is `MainStep`. |
| `Pushdown.Dpda.Transition` | PJ04/PDA.py:194-219 | The state and stack after the lookup are those `Resolve` gives. |
| `Pushdown.Dpda.TrailingPhase` | PJ04/PDA.py:220-236 | The loop ends where `Trailing` ends. |
| `Pushdown.Dpda.TrailPass` | PJ04/PDA.py:222-233 | One pass pops a symbol and follows the epsilon-input entry for it, or traps. |
| `PushdownExamples.PushPopLanguage` | PJ04/PDA.py:157-238 | `{5}` / ``0,a,`,1,x`` / ``1,b,x,5,` `` accepts "ab" and rejects "a" and "ba". |
| `PushdownExamples.PushPopIsDpda` | PJ04/PDA.py:26-28 | That machine is a DPDA. |
| `PushdownExamples.EmptyPopFieldIsNotEpsilon` | PJ04/PDA.py:90-96 | With the pop field left empty, "ab" traps and is rejected. |
| `PushdownExamples.SharedKeyKeepsFirst` | PJ04/PDA.py:146-154 | Two good lines with one key and different targets make the machine NPDA, and the table keeps the first line's target. The lines `0,a,,1,x` and `0,a,,2,y` meet these premises. |
| `FiniteAutomaton.ParseLine` | PJ01/FSM.py:50-107 | NFA exactly on an unmatched line, a backquote symbol, or a repeated (symbol, from) key. INVALID exactly on an out-of-range state or another symbol outside the character set. Otherwise the transition is inserted. |
| `FiniteAutomaton.ParseLines` | PJ01/FSM.py:50-107 | The line loop never yields DFA by itself. Table entries are never overwritten, and the sets only grow. |
| `FiniteAutomaton.ReadSpec` | PJ01/FSM.py:31-107 | Reading never yields DFA by itself. An accept state of 256 or more gives INVALID with an empty table, no states and no symbols. |
| `FiniteAutomaton.LineSets` | PJ01/FSM.py:72-84 | A skipped or unmatched line adds nothing. A matched line adds its from-state once that is in range, then its to-state. With both in range it adds its symbol, even when the symbol then proves illegal. |
| `FiniteAutomaton.ParseLinesSets` | PJ01/FSM.py:50-107 | When the loop leaves the kind unset, it adds exactly the states and symbols that the matched lines name. |
| `FiniteAutomaton.ParseLinesUnset` | PJ01/FSM.py:50-107 | The loop leaves the kind unset exactly when every line is good and brings a new key. |
| `FiniteAutomaton.ParseLinesTable` | PJ01/FSM.py:96-107 | When it stays unset, the table keeps its entries and holds every line's transition. |
| `FiniteAutomaton.DfaExactly` | PJ01/FSM.py:44-107 | The machine is a DFA exactly when the accept states are in range, every line is good and no key repeats, even with the same target. Every line's transition is then in the table, and the table never holds a key that no line brings. |
| `FiniteAutomaton.ParseLinesOnlyNamed` | PJ01/FSM.py:96-107 | Every key in the table after the loop was there before or is the (symbol, from-state) of a matched line. |
| `FiniteAutomaton.ParseStopsAtFirstFlag` | PJ01/FSM.py:50-107 | Reading stops at the first line that sets a type. |
| `FiniteAutomaton.Step` | PJ01/FSM.py:124-127 | A step never returns to the start state. It goes to a to-state of the character's row, or to the trap exactly when the table has no entry. |
| `FiniteAutomaton.Fold` | PJ01/FSM.py:119-127 | After at least one character, the run stands in the trap state or in some to-state of the table. |
| `FiniteAutomaton.TrapAbsorbing` | PJ01/FSM.py:124-127 | Without a `"255"` entry, the fold never leaves state 255. |
| `FiniteAutomaton.FirstForeign` | PJ01/FSM.py:119-123 | The index of the first character outside the alphabet, or the length of the input. |
| `FiniteAutomaton.Run` | PJ01/FSM.py:110-129 | A whitespace-only string appends a newline iff the current state accepts. Any other string is appended iff all its characters are in the alphabet and the fold ends accepting. |
| `FiniteAutomaton.Machine.constructor` | PJ01/FSM.py:7-24 | The fields are those of `ReadSpec`; an unflagged machine is a DFA. |
| `FiniteAutomaton.Machine.ResetMachine` | PJ01/FSM.py:26-29 | Only the current state changes, back to 0. |
| `FiniteAutomaton.Machine.ReadMachine` | PJ01/FSM.py:31-107 | The loop leaves exactly the machine `ReadSpec` describes. |
| `FiniteAutomaton.Machine.ReadLine` | PJ01/FSM.py:50-107 | One pass of the line loop is `ParseLine`. |
| `FiniteAutomaton.Machine.RunMachine` | PJ01/FSM.py:110-129 | The new state and `language` are those `Run` gives. |
| `Text.CheckAccept` | PJ04/PDA.py:67-72 | The accept loop passes exactly when every entry converts to an integer below 256. The loop at `PJ01/FSM.py:44-49` is the same. |
| `Text.ParseInt` | PJ04/PDA.py:70 | `int()` of a plain run of digits is its decimal value. |
| `Text.UnderscoreSeparates` | PJ04/PDA.py:70 | As in `int()`, a single underscore between digits leaves the value alone. Two underscores in a row, or one at either end, make the conversion fail. |
| `JackColumns.GetCol` | PJ03/jack.py:11-55 | `\r` and `\n` give NEWLINE and other whitespace gives SPACE. `/`, `*` and `"` give SLASH, STAR and QUOTE. A digit or letter gives itself, `_` gives UNDERSCORE, and exactly the unrecognised characters give BADTOKEN. |
| `JackColumns.SymbolColumns` | PJ03/jack.py:29-52 | Each of `()[]{};.,=-~` gets its own named column. |
| `JackColumns.OperatorColumn` | PJ03/jack.py:53-54 | SY_OP exactly for the operator-list characters other than `/` and `*` (plus, ampersand, vertical bar, less-than, greater-than); earlier branches claim `/` and `*`. |

## Left out

- Reading files, listing directories, writing result and log files, and the
  module-level drivers (`PJ04/PDA.py:240-265`, `PJ01/FSM.py:131-157`,
  `PJ03/jack.py:57-116`). A definition arrives as its accept entries, already
  split, and its lines.
- Regular expressions. Each line arrives as its text plus the groups the
  pattern captured, or no match. Only one fact about a match is assumed:
  the state fields are runs of digits. "Starts with whitespace" and "all
  whitespace" are predicates over the ASCII part of Python's whitespace
  class.
- The Jack tokenizer loop (`PJ03/jack.py:72-112`). It depends on a
  `transition` module that is not part of this model.
- Python's Unicode character classes. `isspace`, `isdigit` and `isalpha` are
  modelled on ASCII only.
- Text.ParseInt: reads ASCII digits only. Python's `int()` also accepts
  the other Unicode decimal digits, which the model leaves out with the
  Unicode classes.
- `int()` on an accept entry that is not a number raises an uncaught error.
  The model requires every entry the accept loop converts to be a number.
- `validate_determinism` sorts each row's pairs before comparing
  neighbours. The model draws them in any order, which is sound because no
  two pairs are ever equal.
- Identity tests `is not '`'` are modelled as value inequality.
