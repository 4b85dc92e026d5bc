/**
 * Output layout: `<category root>/<year>/<month, two digits>/<prefix>_<yyyymmdd>.nc`,
 * every category root a fixed sub-directory of the chosen base output directory.
 */
module OutputPaths {
  import opened Catalog

  /** A day of the run: its year, its month and its `yyyymmdd` stamp. */
  datatype Date = Date(year: nat, month: nat, stamp: string)

  predicate IsDigit(ch: char)
  {
    '0' <= ch <= '9'
  }

  function DigitChar(d: nat): (ch: char)
    requires d < 10
    ensures IsDigit(ch) && ch as int - '0' as int == d
  {
    (d + '0' as int) as char
  }

  /** `str(n)`: the decimal digits of n, without leading zeros. */
  function Decimal(n: nat): (s: string)
    ensures |s| >= 1 && forall k :: 0 <= k < |s| ==> IsDigit(s[k])
    ensures n >= 10 ==> s[0] != '0'
  {
    if n < 10 then [DigitChar(n)] else Decimal(n / 10) + [DigitChar(n % 10)]
  }

  /** The number a string of decimal digits denotes. */
  function DecimalValue(s: string): nat
    requires forall k :: 0 <= k < |s| ==> IsDigit(s[k])
  {
    if s == [] then 0
    else DecimalValue(s[..|s| - 1]) * 10 + DigitValue(s[|s| - 1])
  }

  function DigitValue(ch: char): nat
    requires IsDigit(ch)
  {
    ch as int - '0' as int
  }

  /** Reading back the digits of `str(n)` gives n. */
  lemma {:induction false} DecimalRoundTrip(n: nat)
    ensures DecimalValue(Decimal(n)) == n
  {
    if n >= 10 {
      DecimalRoundTrip(n / 10);
      var s := Decimal(n);
      assert s[..|s| - 1] == Decimal(n / 10);
    }
  }

  /** `f'{m:02d}'`: at least two digits, zero-padded on the left. */
  function TwoDigits(m: nat): (s: string)
    ensures forall k :: 0 <= k < |s| ==> IsDigit(s[k])
    ensures m < 100 ==> |s| == 2
    ensures DecimalValue(s) == m
  {
    DecimalRoundTrip(m);
    if m < 10 then
      var s := ['0'] + Decimal(m);
      assert s[..1] == ['0'];
      s
    else Decimal(m)
  }

  /**
   * `os.path.join(a, b)` for a relative component b: a separator is added
   * unless a is empty or already ends with one.
   */
  function Join(a: string, b: string): (r: string)
    ensures |r| == |a| + |b| || (|r| == |a| + |b| + 1 && r[|a|] == '/')
    ensures |r| == |a| + |b| <==> a == [] || a[|a| - 1] == '/'
    ensures a <= r && r[|r| - |b|..] == b
  {
    JoinPrefix(a) + b
  }

  /** What Join puts in front of its second component. */
  function JoinPrefix(a: string): string
  {
    if a == [] || a[|a| - 1] == '/' then a else a + "/"
  }

  /** The first component below the base output directory, per category. */
  function TopDirectory(c: Category): string
  {
    match c
    case Evaporation => "Evaporation_Flux"
    case Vegetation => "Vegetation"
    case Radiation => "Radiation"
    case Soil => "SoilMoisture"
    case RunoffPrecip => "Precipitation_Runoff"
  }

  /**
   * `os.path.join(a, b1, b2, ...)` for relative components: the components
   * joined to a one after the other.
   */
  function JoinAll(a: string, parts: seq<string>): (r: string)
    ensures a <= r
    decreases |parts|
  {
    if parts == [] then a
    else
      var init := JoinAll(a, parts[..|parts| - 1]);
      Join(init, parts[|parts| - 1])
  }

  /** Joining a list of components starts with joining its first one. */
  lemma {:induction false} JoinAllStartsWithFirst(a: string, parts: seq<string>)
    requires |parts| >= 1
    ensures Join(a, parts[0]) <= JoinAll(a, parts)
    decreases |parts|
  {
    var init := parts[..|parts| - 1];
    if |parts| > 1 {
      assert init[0] == parts[0];
      JoinAllStartsWithFirst(a, init);
    } else {
      assert JoinAll(a, init) == a;
    }
  }

  /** The components of `OUT_EVAP`, `OUT_VEG`, `OUT_RAD`, `OUT_SOIL`, `OUT_ROPR` below the base. */
  function RootParts(c: Category): (r: seq<string>)
    ensures |r| >= 1 && r[0] == TopDirectory(c)
  {
    if c == Evaporation then [TopDirectory(c), "ERA5L"] else [TopDirectory(c)]
  }

  /** `OUT_EVAP`, `OUT_VEG`, `OUT_RAD`, `OUT_SOIL`, `OUT_ROPR`. */
  function CategoryRoot(base: string, c: Category): (r: string)
    ensures base <= r
  {
    JoinAll(base, RootParts(c))
  }

  /** The file-name prefix of a category's output. */
  function FilePrefix(c: Category): string
  {
    match c
    case Evaporation => "ERA5_Land_Daily_ET"
    case Vegetation => "ERA5_Land_Daily_Vegetation"
    case Radiation => "ERA5_Land_Daily_Radiation"
    case Soil => "ERA5_Land_Daily_Soil"
    case RunoffPrecip => "ERA5_Land_Daily_RunoffPrecip"
  }

  /** The components of an output path below its category root: year, month and file name. */
  function DateParts(c: Category, date: Date): seq<string>
  {
    [Decimal(date.year), TwoDigits(date.month), FilePrefix(c) + "_" + date.stamp + ".nc"]
  }

  /** The output file of category c for the given date, joined onto the category root. */
  function OutputPath(base: string, c: Category, date: Date): (r: string)
    ensures CategoryRoot(base, c) <= r
  {
    JoinAll(CategoryRoot(base, c), DateParts(c, date))
  }

  /** Joining two lists of components one after the other is joining their concatenation. */
  lemma {:induction false} JoinAllAppend(a: string, xs: seq<string>, ys: seq<string>)
    ensures JoinAll(a, xs + ys) == JoinAll(JoinAll(a, xs), ys)
    decreases |ys|
  {
    if ys == [] {
      assert xs + ys == xs;
    } else {
      var init := ys[..|ys| - 1];
      assert (xs + ys)[..|xs + ys| - 1] == xs + init;
      assert (xs + ys)[|xs + ys| - 1] == ys[|ys| - 1];
      JoinAllAppend(a, xs, init);
    }
  }

  /** An output path is the base joined with the root components, then year, month and file name. */
  lemma OutputPathComponents(base: string, c: Category, date: Date)
    ensures OutputPath(base, c, date) == JoinAll(base, RootParts(c) + DateParts(c, date))
  {
    JoinAllAppend(base, RootParts(c), DateParts(c, date));
  }

  /** The five output files of a date, in the day loop's order. */
  function OutputPathsOf(base: string, date: Date): (r: seq<string>)
    ensures |r| == |Categories|
    ensures forall k :: 0 <= k < |r| ==> r[k] == OutputPath(base, Categories[k], date)
  {
    seq(|Categories|, k requires 0 <= k < |Categories| => OutputPath(base, Categories[k], date))
  }

  /** Every output path of c starts with the base, then c's top-level directory. */
  lemma OutputPathShape(base: string, c: Category, date: Date)
    ensures JoinPrefix(base) + TopDirectory(c) <= OutputPath(base, c, date)
  {
    var parts := RootParts(c) + DateParts(c, date);
    assert parts[0] == TopDirectory(c);
    OutputPathComponents(base, c, date);
    JoinAllStartsWithFirst(base, parts);
  }

  /** The five categories of a date never share an output file. */
  lemma OutputPathsDistinct(base: string, date: Date, c1: Category, c2: Category)
    requires c1 != c2
    ensures OutputPath(base, c1, date) != OutputPath(base, c2, date)
  {
    OutputPathShape(base, c1, date);
    OutputPathShape(base, c2, date);
    var n := |JoinPrefix(base)|;
    assert OutputPath(base, c1, date)[n] == (JoinPrefix(base) + TopDirectory(c1))[n] == TopDirectory(c1)[0];
    assert OutputPath(base, c2, date)[n] == (JoinPrefix(base) + TopDirectory(c2))[n] == TopDirectory(c2)[0];
  }
}
