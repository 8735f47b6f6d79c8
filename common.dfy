/** Option values, shared by the automaton modules. */
module Wrappers {
  datatype Option<+T> = None | Some(value: T)
}

/**
 * The few pieces of Python string behaviour the automata rely on, restricted
 * to ASCII: the whitespace class used by `\s`, `str.isspace` and `str.strip`,
 * `str.isdigit`/`str.isalpha`, and `int()` applied to a string.
 */
module Text {
  import opened Wrappers

  /** Python's whitespace characters below 128: space, \t, \n, \v, \f, \r and \x1c-\x1f. */
  predicate IsSpace(c: char) {
    c == ' ' || '\t' <= c <= '\r' || 0x1C <= c as int <= 0x1F
  }

  predicate IsDigit(c: char) {
    '0' <= c <= '9'
  }

  predicate IsAlpha(c: char) {
    'a' <= c <= 'z' || 'A' <= c <= 'Z'
  }

  /** `re.match(r"^\s+$", s)` succeeds: at least one character, and all of them whitespace. */
  predicate AllSpace(s: string) {
    |s| > 0 && forall i :: 0 <= i < |s| ==> IsSpace(s[i])
  }

  /** `re.match(r"\s", line)` succeeds: the line begins with whitespace. */
  predicate StartsWithSpace(s: string) {
    |s| > 0 && IsSpace(s[0])
  }

  /** A non-empty run of decimal digits, which is what `\d+` captures. */
  predicate IsDigits(s: string) {
    |s| > 0 && forall i :: 0 <= i < |s| ==> IsDigit(s[i])
  }

  /** The value of a string of decimal digits, most significant first. */
  function DecimalValue(s: string): (n: nat)
    requires forall i :: 0 <= i < |s| ==> IsDigit(s[i])
    ensures s == [] ==> n == 0
    ensures |s| == 1 ==> n == s[0] as int - '0' as int
  {
    if s == [] then 0
    else
      assert IsDigit(s[|s| - 1]);
      var digit: nat := s[|s| - 1] as int - '0' as int;
      10 * DecimalValue(s[..|s| - 1]) + digit
  }

  /** `s.lstrip()`: drop the leading whitespace. */
  function TrimStart(s: string): (r: string)
    ensures |r| <= |s| && r == s[|s| - |r|..]
    ensures forall i :: 0 <= i < |s| - |r| ==> IsSpace(s[i])
    ensures r != [] ==> !IsSpace(r[0])
  {
    if s != [] && IsSpace(s[0]) then TrimStart(s[1..]) else s
  }

  /** `s.rstrip()`: drop the trailing whitespace. */
  function TrimEnd(s: string): (r: string)
    ensures |r| <= |s| && r == s[..|r|]
    ensures forall i :: |r| <= i < |s| ==> IsSpace(s[i])
    ensures r != [] ==> !IsSpace(r[|r| - 1])
  {
    if s != [] && IsSpace(s[|s| - 1]) then TrimEnd(s[..|s| - 1]) else s
  }

  /** `s.strip()`: the longest infix of `s` that neither begins nor ends with whitespace. */
  function Strip(s: string): (r: string)
    ensures |r| <= |s|
    ensures r != [] ==> !IsSpace(r[0]) && !IsSpace(r[|r| - 1])
    ensures (forall i :: 0 <= i < |s| ==> !IsSpace(s[i])) ==> r == s
  {
    TrimEnd(TrimStart(s))
  }

  /**
   * The digits of an integer literal as `int()` reads them: decimal digits,
   * where a single underscore may stand between two of them.
   */
  predicate IsNumeral(s: string)
    decreases |s|
  {
    |s| > 0 && IsDigit(s[0]) &&
    (|s| == 1 || (if s[1] == '_' then IsNumeral(s[2..]) else IsNumeral(s[1..])))
  }

  /** The digits of a numeral with its separating underscores dropped. */
  function NumeralDigits(s: string): (r: string)
    requires IsNumeral(s)
    ensures IsDigits(r) && |r| <= |s| && r[0] == s[0]
    decreases |s|
  {
    if |s| == 1 then s
    else if s[1] == '_' then [s[0]] + NumeralDigits(s[2..])
    else [s[0]] + NumeralDigits(s[1..])
  }

  /** A plain run of digits is a numeral, and is its own digits. */
  lemma {:induction false} DigitsAreNumeral(s: string)
    requires IsDigits(s)
    ensures IsNumeral(s) && NumeralDigits(s) == s
    decreases |s|
  {
    if |s| > 1 {
      assert IsDigits(s[1..]);
      DigitsAreNumeral(s[1..]);
      assert s == [s[0]] + s[1..];
    }
  }

  /** An underscore between a run of digits and a numeral only separates them. */
  lemma {:induction false} NumeralJoin(a: string, b: string)
    requires IsDigits(a) && IsNumeral(b)
    ensures IsNumeral(a + "_" + b) && NumeralDigits(a + "_" + b) == a + NumeralDigits(b)
    decreases |a|
  {
    var s := a + "_" + b;
    if |a| == 1 {
      assert s[1] == '_' && s[2..] == b;
    } else {
      assert IsDigits(a[1..]);
      NumeralJoin(a[1..], b);
      assert s[1] == a[1] && s[1..] == a[1..] + "_" + b;
      assert a == [a[0]] + a[1..];
    }
  }

  /** The value of a numeral, or None when `t` is not one. */
  function NumeralValue(t: string): (r: Option<nat>)
    ensures IsDigits(t) ==> r == Some(DecimalValue(t))
    ensures r.Some? <==> IsNumeral(t)
  {
    if IsNumeral(t) then
      assert IsDigits(t) ==> NumeralDigits(t) == t by {
        if IsDigits(t) { DigitsAreNumeral(t); }
      }
      Some(DecimalValue(NumeralDigits(t)))
    else
      assert !IsDigits(t) by {
        if IsDigits(t) { DigitsAreNumeral(t); }
      }
      None
  }

  /** A string that neither begins nor ends with whitespace is its own strip. */
  lemma StripUntouched(s: string)
    requires s != [] && !IsSpace(s[0]) && !IsSpace(s[|s| - 1])
    ensures Strip(s) == s
  {
    assert TrimStart(s) == s;
    assert TrimEnd(s) == s;
  }

  /**
   * `int(s)` on a string: surrounding whitespace, an optional sign and a
   * numeral. None stands for the ValueError Python raises.
   */
  function ParseInt(s: string): (r: Option<int>)
    ensures IsDigits(s) ==> r == Some(DecimalValue(s))
  {
    var t := Strip(s);
    assert IsDigits(s) ==> t == s && IsDigit(t[0]) by {
      if IsDigits(s) { StripUntouched(s); }
    }
    if |t| > 0 && (t[0] == '+' || t[0] == '-') then
      match NumeralValue(t[1..])
      case None => None
      case Some(magnitude) => Some(if t[0] == '-' then -(magnitude as int) else magnitude)
    else
      NumeralValue(t)
  }

  /** `int()` on a string that begins with a digit and does not end in whitespace reads it as a numeral. */
  lemma UnsignedParse(s: string)
    requires |s| > 0 && IsDigit(s[0]) && !IsSpace(s[|s| - 1])
    ensures ParseInt(s) == if IsNumeral(s) then Some(DecimalValue(NumeralDigits(s))) else None
  {
    StripUntouched(s);
    assert !(s[0] == '+' || s[0] == '-');
  }

  /**
   * An underscore between two runs of digits leaves the value alone; two
   * underscores in a row, or one at either end, make `int()` raise.
   */
  lemma UnderscoreSeparates(a: string, b: string)
    requires IsDigits(a) && IsDigits(b)
    ensures ParseInt(a + "_" + b) == ParseInt(a + b)
    ensures ParseInt(a + "__" + b) == None
    ensures ParseInt("_" + a) == None && ParseInt(a + "_") == None
  {
    SingleUnderscore(a, b);
    NoDoubleUnderscore(a, b);
    NoEdgeUnderscore(a);
  }

  lemma SingleUnderscore(a: string, b: string)
    requires IsDigits(a) && IsDigits(b)
    ensures ParseInt(a + "_" + b) == ParseInt(a + b)
  {
    var s := a + "_" + b;
    assert s[0] == a[0] && s[|s| - 1] == b[|b| - 1];
    DigitsAreNumeral(b);
    NumeralJoin(a, b);
    UnsignedParse(s);
    var ab := a + b;
    assert IsDigits(ab) by {
      forall i | 0 <= i < |ab| ensures IsDigit(ab[i]) {
        if i >= |a| { assert ab[i] == b[i - |a|]; }
      }
    }
  }

  lemma NoDoubleUnderscore(a: string, b: string)
    requires IsDigits(a) && IsDigits(b)
    ensures ParseInt(a + "__" + b) == None
  {
    var s := a + "__" + b;
    assert s[0] == a[0] && s[|s| - 1] == b[|b| - 1];
    UnsignedParse(s);
    DoubleUnderscoreBreaks(a, b);
  }

  /** No numeral holds a run of digits followed by two underscores. */
  lemma {:induction false} DoubleUnderscoreBreaks(a: string, b: string)
    requires IsDigits(a)
    ensures !IsNumeral(a + "__" + b)
    decreases |a|
  {
    var s := a + "__" + b;
    if |a| == 1 {
      assert s[1] == '_' && s[2..] == "_" + b;
    } else {
      assert IsDigits(a[1..]);
      DoubleUnderscoreBreaks(a[1..], b);
      assert s[1] == a[1] && s[1..] == a[1..] + "__" + b;
    }
  }

  lemma NoEdgeUnderscore(a: string)
    requires IsDigits(a)
    ensures ParseInt("_" + a) == None && ParseInt(a + "_") == None
  {
    LeadingUnderscore(a);
    var u := a + "_";
    assert u[0] == a[0] && u[|u| - 1] == '_';
    UnsignedParse(u);
    TrailingUnderscoreBreaks(a);
  }

  lemma LeadingUnderscore(a: string)
    requires IsDigits(a)
    ensures ParseInt("_" + a) == None
  {
    var s := "_" + a;
    assert s[0] == '_' && !IsNumeral(s);
    assert NumeralValue(s) == None;
    assert s[|s| - 1] == a[|a| - 1];
    StripUntouched(s);
  }

  /** No numeral ends in an underscore. */
  lemma {:induction false} TrailingUnderscoreBreaks(a: string)
    requires IsDigits(a)
    ensures !IsNumeral(a + "_")
    decreases |a|
  {
    var s := a + "_";
    if |a| == 1 {
      assert s[1] == '_' && s[2..] == "";
    } else {
      assert IsDigits(a[1..]);
      TrailingUnderscoreBreaks(a[1..]);
      assert s[1] == a[1] && s[1..] == a[1..] + "_";
    }
  }

  /**
   * The accept-state loop `for i in accept: if not int(i) < 256` only ever
   * converts the entries up to the first one that is 256 or more: every such
   * entry must convert, or the interpreter raises.
   */
  predicate AcceptConvertible(accept: seq<string>) {
    accept == [] ||
    (ParseInt(accept[0]).Some? && (ParseInt(accept[0]).value >= 256 || AcceptConvertible(accept[1..])))
  }

  /** Every accept entry converts to an integer below 256. */
  predicate AcceptInRange(accept: seq<string>)
    requires AcceptConvertible(accept)
  {
    accept == [] || (ParseInt(accept[0]).value < 256 && AcceptInRange(accept[1..]))
  }

  /** The accept-state loop of both simulators: true when every entry converts to an integer below 256. */
  method CheckAccept(entries: seq<string>) returns (inRange: bool)
    requires AcceptConvertible(entries)
    ensures inRange == AcceptInRange(entries)
  {
    var i := 0;
    while i < |entries|
      invariant 0 <= i <= |entries|
      invariant AcceptConvertible(entries[i..])
      invariant AcceptInRange(entries) <==> AcceptInRange(entries[i..])
    {
      assert entries[i..][1..] == entries[i + 1..];
      if !(ParseInt(entries[i]).value < 256) {
        return false;
      }
      i := i + 1;
    }
    return true;
  }
}

/** Sets gathered from the lines of a definition. */
module Gather {
  import opened Wrappers

  /** The values `pick` finds in the lines; a line where it finds none adds nothing. */
  function Collect<L>(lines: seq<L>, pick: L -> Option<string>): set<string>
    decreases |lines|
  {
    if lines == [] then {}
    else (if pick(lines[0]).Some? then {pick(lines[0]).value} else {}) + Collect(lines[1..], pick)
  }

  /** A value is collected exactly when `pick` finds it in some line. */
  lemma {:induction false} CollectMembers<L>(lines: seq<L>, pick: L -> Option<string>)
    ensures forall x :: x in Collect(lines, pick) <==> exists i :: 0 <= i < |lines| && pick(lines[i]) == Some(x)
    decreases |lines|
  {
    if lines != [] {
      var rest := lines[1..];
      CollectMembers(rest, pick);
      assert forall i :: 0 < i < |lines| ==> lines[i] == rest[i - 1];
      forall x | x in Collect(rest, pick)
        ensures exists i :: 0 <= i < |lines| && pick(lines[i]) == Some(x)
      {
        var i :| 0 <= i < |rest| && pick(rest[i]) == Some(x);
        assert lines[i + 1] == rest[i];
      }
    }
  }
}

/**
 * Where an automaton stands. Both simulators start in the integer 0 and fall
 * into the integer 255 on a missing transition; every other state is a string
 * copied out of the transition table. `Str` is Python's `str()` of each.
 */
module States {
  datatype StateRef = Start | Trap | Named(name: string) {
    function Str(): string {
      match this
      case Start => "0"
      case Trap => "255"
      case Named(n) => n
    }
  }
}
