/**
 * Command-line handling of the watched-state sync: the `arg_parse` check of
 * its one optional argument and the choice between export and import mode.
 */
module SyncArgs {
  import opened Wrappers
  import opened Text

  /** Unit suffixes of a relative date: minutes, hours, days, weeks, months, years. */
  const Units: seq<string> := ["m", "h", "d", "w", "mon", "y"]

  /** The window used when no range is given, and always in import mode. */
  const DefaultRange: string := "999y"

  const ImportToken: string := "import"

  predicate IsDigit(c: char)
  {
    '0' <= c <= '9'
  }

  predicate AllDigits(d: string)
  {
    forall i :: 0 <= i < |d| ==> IsDigit(d[i])
  }

  function DigitChar(n: nat): char
    requires n < 10
  {
    ('0' as int + n) as char
  }

  function DigitValue(c: char): nat
    requires IsDigit(c)
  {
    c as int - '0' as int
  }

  /** The decimal numeral of `n`, without leading zeros. */
  function Numeral(n: nat): string
  {
    if n < 10 then [DigitChar(n)] else Numeral(n / 10) + [DigitChar(n % 10)]
  }

  /** The number a string of decimal digits denotes. */
  function DigitsValue(d: string): nat
    requires AllDigits(d)
  {
    if d == [] then 0 else 10 * DigitsValue(d[..|d| - 1]) + DigitValue(d[|d| - 1])
  }

  /**
   * The relative dates the script accepts: a magnitude from 1 to 999 in
   * decimal followed by one unit suffix. Python's `$` also matches just
   * before a final newline, so one trailing "\n" is admitted.
   */
  ghost predicate IsRelativeDate(s: string)
  {
    exists n: nat, u: nat ::
      1 <= n <= 999 && u < |Units| &&
      (s == Numeral(n) + Units[u] || s == Numeral(n) + Units[u] + "\n")
  }

  /** Number of leading decimal digits of `s`. */
  function LeadingDigits(s: string): (k: nat)
    ensures k <= |s| && AllDigits(s[..k])
    ensures k < |s| ==> !IsDigit(s[k])
  {
    if s == [] || !IsDigit(s[0]) then 0 else 1 + LeadingDigits(s[1..])
  }

  /** The regular expression without its `$`: `[1-9]|[1-9][0-9]|[1-9][0-9][0-9]` then a unit, to the end of `t`. */
  predicate MatchesToEnd(t: string)
  {
    var k := LeadingDigits(t);
    1 <= k <= 3 && t[0] != '0' && t[k..] in Units
  }

  /** `re.match('^(?:[1-9]|[1-9][0-9]|[1-9][0-9][0-9])(?:m|h|d|w|mon|y)$', s)` succeeds. */
  predicate MatchesRange(s: string)
  {
    MatchesToEnd(s) || (|s| > 0 && s[|s| - 1] == '\n' && MatchesToEnd(s[..|s| - 1]))
  }

  lemma {:induction false} NumeralFacts(n: nat)
    ensures 1 <= |Numeral(n)| && AllDigits(Numeral(n))
    ensures DigitsValue(Numeral(n)) == n
    ensures 1 <= n ==> Numeral(n)[0] != '0'
    ensures n <= 999 ==> |Numeral(n)| <= 3
  {
    if n >= 10 {
      NumeralFacts(n / 10);
      var d := Numeral(n);
      assert d[..|d| - 1] == Numeral(n / 10);
    }
  }

  lemma {:induction false} DigitsValueBounds(d: string)
    requires AllDigits(d) && 1 <= |d| && d[0] != '0'
    ensures 1 <= DigitsValue(d)
    ensures |d| <= 3 ==> DigitsValue(d) <= 999
    ensures |d| <= 2 ==> DigitsValue(d) <= 99
    ensures |d| <= 1 ==> DigitsValue(d) <= 9
  {
    if |d| > 1 {
      DigitsValueBounds(d[..|d| - 1]);
    }
  }

  /** A digit string without a leading zero is the numeral of its value. */
  lemma {:induction false} NumeralOfValue(d: string)
    requires AllDigits(d) && 1 <= |d| && d[0] != '0'
    ensures Numeral(DigitsValue(d)) == d
  {
    DigitsValueBounds(d);
    if |d| > 1 {
      var p := d[..|d| - 1];
      NumeralOfValue(p);
      DigitsValueBounds(p);
      var n := DigitsValue(d);
      assert n / 10 == DigitsValue(p) && n % 10 == DigitValue(d[|d| - 1]);
      assert d == p + [d[|d| - 1]];
    }
  }

  lemma {:induction false} LeadingDigitsOfConcat(a: string, b: string)
    requires AllDigits(a) && |b| > 0 && !IsDigit(b[0])
    ensures LeadingDigits(a + b) == |a|
  {
    if a != [] {
      assert (a + b)[1..] == a[1..] + b;
      LeadingDigitsOfConcat(a[1..], b);
    }
  }

  /** `t` is the numeral of a magnitude from 1 to 999 followed by the unit `Units[u]`. */
  ghost predicate Spells(t: string, n: nat, u: nat)
  {
    1 <= n <= 999 && u < |Units| && t == Numeral(n) + Units[u]
  }

  lemma UnitStartsWithLetter(u: nat)
    requires u < |Units|
    ensures |Units[u]| > 0 && !IsDigit(Units[u][0])
  {
  }

  lemma MatchesToEndSound(t: string) returns (n: nat, u: nat)
    requires MatchesToEnd(t)
    ensures Spells(t, n, u)
  {
    var k := LeadingDigits(t);
    var d := t[..k];
    NumeralOfValue(d);
    DigitsValueBounds(d);
    n := DigitsValue(d);
    u :| 0 <= u < |Units| && Units[u] == t[k..];
    assert t == d + t[k..];
  }

  lemma MatchesToEndComplete(t: string, n: nat, u: nat)
    requires Spells(t, n, u)
    ensures MatchesToEnd(t)
  {
    NumeralFacts(n);
    UnitStartsWithLetter(u);
    LeadingDigitsOfConcat(Numeral(n), Units[u]);
    assert t[|Numeral(n)|..] == Units[u];
  }

  /** The executable match is exactly the language of relative dates. */
  lemma MatchesRangeIsRelativeDate(s: string)
    ensures MatchesRange(s) <==> IsRelativeDate(s)
  {
    if MatchesRange(s) {
      MatchesRangeSound(s);
    }
    if IsRelativeDate(s) {
      MatchesRangeComplete(s);
    }
  }

  lemma MatchesRangeSound(s: string)
    requires MatchesRange(s)
    ensures IsRelativeDate(s)
  {
    if MatchesToEnd(s) {
      var n, u := MatchesToEndSound(s);
      assert s == Numeral(n) + Units[u];
    } else if |s| > 0 && s[|s| - 1] == '\n' && MatchesToEnd(s[..|s| - 1]) {
      var n, u := MatchesToEndSound(s[..|s| - 1]);
      assert s == Numeral(n) + Units[u] + "\n";
    }
  }

  lemma MatchesRangeComplete(s: string)
    requires IsRelativeDate(s)
    ensures MatchesRange(s)
  {
    var n: nat, u: nat :| 1 <= n <= 999 && u < |Units| &&
      (s == Numeral(n) + Units[u] || s == Numeral(n) + Units[u] + "\n");
    if s == Numeral(n) + Units[u] {
      MatchesToEndComplete(s, n, u);
    } else {
      assert s[..|s| - 1] == Numeral(n) + Units[u];
      MatchesToEndComplete(s[..|s| - 1], n, u);
    }
  }

  datatype ArgError = InvalidRangeOrImport

  /**
   * `arg_parse`: the lower-cased argument when it is "import" or a relative
   * date, an ArgumentTypeError otherwise.
   */
  function ArgParse(arg: string): (r: Result<string, ArgError>)
    ensures r.Ok? <==> Lower(arg) == ImportToken || IsRelativeDate(Lower(arg))
    ensures r.Ok? ==> r.value == Lower(arg)
  {
    var a := Lower(arg);
    MatchesRangeIsRelativeDate(a);
    if !MatchesRange(a) && a != ImportToken then Err(InvalidRangeOrImport) else Ok(a)
  }

  datatype Mode = Export | Import

  /** The outcome of argument handling: the relative date and the sync direction. */
  datatype RunConfig = RunConfig(relativeDate: string, mode: Mode)

  lemma DefaultRangeIsRelativeDate()
    ensures IsRelativeDate(DefaultRange)
  {
    assert Numeral(999) == "999";
    assert DefaultRange == Numeral(999) + Units[5];
  }

  /**
   * Mode selection: no argument means export over the default window; the
   * argument "import" means import mode, and the window is reset to the default.
   */
  function SelectMode(arg: Option<string>): (r: Result<RunConfig, ArgError>)
    ensures arg.None? ==> r == Ok(RunConfig(DefaultRange, Export))
    ensures arg.Some? ==> (r.Err? <==> ArgParse(arg.value).Err?)
    ensures r.Ok? ==> IsRelativeDate(r.value.relativeDate)
    ensures r.Ok? ==> (r.value.mode == Import <==> arg.Some? && Lower(arg.value) == ImportToken)
    ensures r.Ok? && r.value.mode == Import ==> r.value.relativeDate == DefaultRange
    ensures r.Ok? && r.value.mode == Export && arg.Some? ==> r.value.relativeDate == Lower(arg.value)
  {
    DefaultRangeIsRelativeDate();
    match arg
    case None => Ok(RunConfig(DefaultRange, Export))
    case Some(a) =>
      match ArgParse(a)
      case Err(e) => Err(e)
      case Ok(v) =>
        if v == ImportToken then Ok(RunConfig(DefaultRange, Import)) else Ok(RunConfig(v, Export))
  }

  /** Python's `$` lets a relative date with one trailing newline through. */
  lemma TrailingNewlineAccepted()
    ensures ArgParse("2W\n") == Ok("2w\n")
  {
    assert Lower("2W\n") == "2w\n";
    assert LeadingDigits("2w") == 1;
    assert "2w"[1..] == Units[3];
    assert "2w\n"[..2] == "2w";
    assert MatchesRange("2w\n");
  }

  /** A leading zero, a fourth digit, or an unknown unit is refused. */
  lemma RejectedExamples()
    ensures ArgParse("02w").Err?
    ensures ArgParse("1000d").Err?
    ensures ArgParse("5s").Err?
  {
    assert Lower("02w") == "02w";
    assert LeadingDigits("02w") == 2;
    assert Lower("1000d") == "1000d";
    assert LeadingDigits("1000d") == 4;
    assert Lower("5s") == "5s";
    assert LeadingDigits("5s") == 1;
    MatchesRangeIsRelativeDate("02w");
    MatchesRangeIsRelativeDate("1000d");
    MatchesRangeIsRelativeDate("5s");
  }
}
