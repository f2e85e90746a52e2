/** Monthly partitions of optical_reading: their names, and the two maintenance jobs (partitions.py). */
module Partitions {
  import opened Prelude
  import opened Calendar

  const PREFIX := "optical_reading_"
  const DEFAULT_NAME := "optical_reading_default"
  const LOOK_AHEAD_MONTHS := 3

  // ---------- Names ----------

  predicate IsDigit(c: char) {
    '0' <= c <= '9'
  }

  function DigitChar(d: int): (c: char)
    requires 0 <= d < 10
    ensures IsDigit(c)
  {
    ['0', '1', '2', '3', '4', '5', '6', '7', '8', '9'][d]
  }

  function DigitValue(c: char): (d: int)
    requires IsDigit(c)
    ensures 0 <= d < 10 && DigitChar(d) == c
  {
    c as int - '0' as int
  }

  /** to_char(month_start, 'YYYY_MM') behind the prefix. */
  function PrintName(year: int, month: int): string
    requires 0 <= year <= 9999 && 0 <= month <= 99
  {
    PREFIX + PrintYear(year) + "_" + PrintTwo(month)
  }

  function PrintTwo(n: int): string
    requires 0 <= n <= 99
  {
    [DigitChar(n / 10), DigitChar(n % 10)]
  }

  function PrintYear(n: int): string
    requires 0 <= n <= 9999
  {
    PrintTwo(n / 100) + PrintTwo(n % 100)
  }

  predicate IsSpace(c: char) {
    c == ' ' || c == '\t' || c == '\n' || c == '\r'
  }

  function StripLeft(s: string): string {
    if s != [] && IsSpace(s[0]) then StripLeft(s[1..]) else s
  }

  function StripRight(s: string): string {
    if s != [] && IsSpace(s[|s| - 1]) then StripRight(s[..|s| - 1]) else s
  }

  /** Decimal digits, single underscores allowed between two of them. */
  function ParseDigits(s: string): Option<nat> {
    if s == [] || !IsDigit(s[|s| - 1]) then None
    else
      var n := |s| - 1;
      var d := DigitValue(s[n]);
      if n == 0 then Some(d)
      else
        var front := if s[n - 1] == '_' then s[..n - 1] else s[..n];
        Appended(ParseDigits(front), d)
  }

  function Appended(front: Option<nat>, d: nat): Option<nat> {
    if front.None? then None else Some(10 * front.value + d)
  }

  /** Python's int() on a string: surrounding blanks, a sign and separated digits are all accepted. */
  function ParseInt(s: string): Option<int> {
    var t := StripRight(StripLeft(s));
    if t == [] then None
    else if t[0] == '+' then ParseDigits(t[1..])
    else if t[0] == '-' then Negate(ParseDigits(t[1..]))
    else ParseDigits(t)
  }

  function Negate(n: Option<nat>): Option<int> {
    if n.None? then None else Some(-(n.value as int))
  }

  function RemovePrefix(s: string): string {
    if PREFIX <= s then s[|PREFIX|..] else s
  }

  function FirstUnderscore(s: string): (i: nat)
    ensures i <= |s| && (i < |s| ==> s[i] == '_') && forall j | 0 <= j < i :: s[j] != '_'
  {
    if s == [] || s[0] == '_' then 0 else FirstUnderscore(s[1..]) + 1
  }

  /** Year and month the drop job reads out of a name; None where it logs unrecognized_name. */
  function ParseName(name: string): Option<(int, int)> {
    var suffix := RemovePrefix(name);
    var i := FirstUnderscore(suffix);
    if i == |suffix| then None
    else
      match (ParseInt(suffix[..i]), ParseInt(suffix[i + 1..]))
      case (Some(y), Some(m)) => Some((y, m))
      case _ => None
  }

  /** The pattern drop_optical_reading_partition insists on. */
  predicate IsSafeName(name: string) {
    PREFIX <= name && IsSafeSuffix(name[|PREFIX|..])
  }

  predicate IsSafeSuffix(s: string) {
    && |s| == 7
    && IsDigit(s[0]) && IsDigit(s[1]) && IsDigit(s[2]) && IsDigit(s[3]) && s[4] == '_' && IsDigit(s[5]) && IsDigit(s[6])
  }

  lemma ParseDigitsSnoc(s: string, c: char)
    requires s != [] && s[|s| - 1] != '_' && IsDigit(c)
    ensures ParseDigits(s + [c]) == Appended(ParseDigits(s), DigitValue(c))
  {
    var t := s + [c];
    assert t[..|t| - 1] == s && t[|t| - 1] == c && t[|t| - 2] == s[|s| - 1];
  }

  lemma ParseTwo(a: char, b: char)
    requires IsDigit(a) && IsDigit(b)
    ensures ParseInt([a, b]) == Some(10 * DigitValue(a) + DigitValue(b))
  {
    assert StripRight(StripLeft([a, b])) == [a, b];
    ParseDigitsSnoc([a], b);
    assert [a] + [b] == [a, b];
  }

  lemma ParseFour(a: char, b: char, c: char, d: char)
    requires IsDigit(a) && IsDigit(b) && IsDigit(c) && IsDigit(d)
    ensures ParseInt([a, b, c, d]) == Some(1000 * DigitValue(a) + 100 * DigitValue(b) + 10 * DigitValue(c) + DigitValue(d))
  {
    assert StripRight(StripLeft([a, b, c, d])) == [a, b, c, d];
    ParseDigitsSnoc([a], b);
    ParseDigitsSnoc([a, b], c);
    ParseDigitsSnoc([a, b, c], d);
    assert [a] + [b] == [a, b] && [a, b] + [c] == [a, b, c] && [a, b, c] + [d] == [a, b, c, d];
  }

  lemma PrintYearDigits(a: char, b: char, c: char, d: char, y: int)
    requires IsDigit(a) && IsDigit(b) && IsDigit(c) && IsDigit(d)
    requires y == 1000 * DigitValue(a) + 100 * DigitValue(b) + 10 * DigitValue(c) + DigitValue(d)
    ensures 0 <= y <= 9999 && PrintYear(y) == [a, b, c, d]
  {
    assert y / 100 == 10 * DigitValue(a) + DigitValue(b) && y % 100 == 10 * DigitValue(c) + DigitValue(d);
    PrintTwoDigits(a, b, y / 100);
    PrintTwoDigits(c, d, y % 100);
  }

  lemma PrintTwoDigits(a: char, b: char, n: int)
    requires IsDigit(a) && IsDigit(b) && n == 10 * DigitValue(a) + DigitValue(b)
    ensures 0 <= n <= 99 && PrintTwo(n) == [a, b]
  {
    assert n / 10 == DigitValue(a) && n % 10 == DigitValue(b);
  }

  function FourDigits(a: char, b: char, c: char, d: char): int
    requires IsDigit(a) && IsDigit(b) && IsDigit(c) && IsDigit(d)
  {
    1000 * DigitValue(a) + 100 * DigitValue(b) + 10 * DigitValue(c) + DigitValue(d)
  }

  function YearOf(s: string): int
    requires IsSafeSuffix(s)
  {
    FourDigits(s[0], s[1], s[2], s[3])
  }

  function MonthIn(s: string): int
    requires IsSafeSuffix(s)
  {
    10 * DigitValue(s[5]) + DigitValue(s[6])
  }

  lemma SafeNameParts(name: string, s: string)
    requires IsSafeName(name) && s == name[|PREFIX|..]
    ensures ParseName(name) == Some((YearOf(s), MonthIn(s)))
  {
    ParseFour(s[0], s[1], s[2], s[3]);
    ParseTwo(s[5], s[6]);
    assert FirstUnderscore(s) == 4;
    assert s[..4] == [s[0], s[1], s[2], s[3]] && s[4 + 1..] == [s[5], s[6]];
  }

  lemma Reprint(s: string)
    requires IsSafeSuffix(s)
    ensures 0 <= YearOf(s) <= 9999 && 0 <= MonthIn(s) <= 99
    ensures s == PrintYear(YearOf(s)) + "_" + PrintTwo(MonthIn(s))
  {
    PrintYearDigits(s[0], s[1], s[2], s[3], YearOf(s));
    PrintTwoDigits(s[5], s[6], MonthIn(s));
    assert s == [s[0], s[1], s[2], s[3]] + "_" + [s[5], s[6]];
  }

  lemma Behind(prefix: string, name: string)
    requires prefix <= name
    ensures name == prefix + name[|prefix|..]
  {
  }

  /** A name of the safe pattern parses, and is the printed form of what it parses to. */
  lemma ParseSafeName(name: string) returns (y: int, m: int)
    requires IsSafeName(name)
    ensures ParseName(name) == Some((y, m))
    ensures 0 <= y <= 9999 && 0 <= m <= 99 && name == PrintName(y, m)
  {
    var s := name[|PREFIX|..];
    y, m := YearOf(s), MonthIn(s);
    SafeNameParts(name, s);
    Reprint(s);
    PrintSuffix(name, y, m);
  }

  lemma PrintSuffix(name: string, y: int, m: int)
    requires 0 <= y <= 9999 && 0 <= m <= 99
    requires PREFIX <= name && name[|PREFIX|..] == PrintYear(y) + "_" + PrintTwo(m)
    ensures name == PrintName(y, m)
  {
    Behind(PREFIX, name);
    Assemble(PREFIX, PrintYear(y), "_", PrintTwo(m));
  }

  lemma Assemble(a: string, b: string, c: string, d: string)
    ensures a + (b + c + d) == a + b + c + d
  {
  }

  lemma PrintedIsSafe(year: int, month: int)
    requires 0 <= year <= 9999 && 0 <= month <= 99
    ensures IsSafeName(PrintName(year, month)) && PrintName(year, month) != DEFAULT_NAME
  {
    var name := PrintName(year, month);
    assert name[|PREFIX|..] == PrintYear(year) + "_" + PrintTwo(month);
    assert DEFAULT_NAME[16] == 'd';
  }

  lemma PrintInjective(y1: int, m1: int, y2: int, m2: int)
    requires 0 <= y1 <= 9999 && 0 <= m1 <= 99 && 0 <= y2 <= 9999 && 0 <= m2 <= 99
    requires PrintName(y1, m1) == PrintName(y2, m2)
    ensures y1 == y2 && m1 == m2
  {
    var n := |PREFIX|;
    var a, b := PrintName(y1, m1), PrintName(y2, m2);
    assert a[n..] == PrintYear(y1) + "_" + PrintTwo(m1);
    assert b[n..] == PrintYear(y2) + "_" + PrintTwo(m2);
    assert PrintYear(y1) == a[n..][..4] && PrintYear(y2) == b[n..][..4];
    assert PrintTwo(m1) == a[n..][5..] && PrintTwo(m2) == b[n..][5..];
    TwoInjective(m1, m2);
    assert PrintTwo(y1 / 100) == PrintYear(y1)[..2] && PrintTwo(y2 / 100) == PrintYear(y2)[..2];
    assert PrintTwo(y1 % 100) == PrintYear(y1)[2..] && PrintTwo(y2 % 100) == PrintYear(y2)[2..];
    TwoInjective(y1 / 100, y2 / 100);
    TwoInjective(y1 % 100, y2 % 100);
  }

  lemma DigitInjective(a: int, b: int)
    requires 0 <= a < 10 && 0 <= b < 10 && DigitChar(a) == DigitChar(b)
    ensures a == b
  {
  }

  lemma TwoInjective(m: int, n: int)
    requires 0 <= m <= 99 && 0 <= n <= 99 && PrintTwo(m) == PrintTwo(n)
    ensures m == n
  {
    assert PrintTwo(m)[0] == PrintTwo(n)[0] && PrintTwo(m)[1] == PrintTwo(n)[1];
    DigitInjective(m / 10, n / 10);
    DigitInjective(m % 10, n % 10);
  }

  /** What int() makes of unusual strings: blanks around, a sign in front and single underscores inside are accepted. */
  lemma IntIsLenient(a: char, b: char)
    requires IsDigit(a) && IsDigit(b)
    ensures ParseInt([' ', a, '\n']) == Some(DigitValue(a)) && ParseInt(['\t', a, '\r']) == Some(DigitValue(a))
    ensures ParseInt(['+', a]) == Some(DigitValue(a)) && ParseInt(['-', a]) == Some(-DigitValue(a))
    ensures ParseInt([a, '_', b]) == Some(10 * DigitValue(a) + DigitValue(b))
    ensures ParseInt([a, '_']) == None && ParseInt(['_', a]) == None && ParseInt([a, '_', '_', b]) == None && ParseInt([' ']) == None
  {
    IntTrims(a);
    IntTakesSigns(a);
    IntTakesUnderscores(a, b);
    assert StripLeft([' ']) == StripLeft([]);
  }

  lemma IntTrims(a: char)
    requires IsDigit(a)
    ensures ParseInt([' ', a, '\n']) == Some(DigitValue(a)) && ParseInt(['\t', a, '\r']) == Some(DigitValue(a))
  {
    ParseOne(a);
    Trims(' ', a, '\n');
    Trims('\t', a, '\r');
  }

  lemma Trims(before: char, a: char, behind: char)
    requires IsSpace(before) && !IsSpace(a) && IsSpace(behind)
    ensures StripRight(StripLeft([before, a, behind])) == [a]
  {
    var s := [before, a, behind];
    assert s[1..] == [a, behind];
    assert StripLeft(s) == StripLeft([a, behind]) == [a, behind];
    assert [a, behind][..1] == [a];
    assert StripRight([a, behind]) == StripRight([a]) == [a];
  }

  /** A string without blanks at its ends is read as it is. */
  lemma NoBlanks(s: string)
    requires s != [] && !IsSpace(s[0]) && !IsSpace(s[|s| - 1])
    ensures StripRight(StripLeft(s)) == s
  {
  }

  lemma IntTakesSigns(a: char)
    requires IsDigit(a)
    ensures ParseInt(['+', a]) == Some(DigitValue(a)) && ParseInt(['-', a]) == Some(-DigitValue(a))
  {
    NoBlanks(['+', a]);
    NoBlanks(['-', a]);
    assert ['+', a][1..] == [a] && ['-', a][1..] == [a];
  }

  lemma IntTakesUnderscores(a: char, b: char)
    requires IsDigit(a) && IsDigit(b)
    ensures ParseInt([a, '_', b]) == Some(10 * DigitValue(a) + DigitValue(b))
    ensures ParseInt([a, '_']) == None && ParseInt(['_', a]) == None && ParseInt([a, '_', '_', b]) == None
  {
    NoBlanks([a, '_', b]);
    NoBlanks([a, '_']);
    NoBlanks(['_', a]);
    NoBlanks([a, '_', '_', b]);
    assert [a, '_', b][..1] == [a];
    assert ParseDigits([a]) == Some(DigitValue(a));
    assert ParseDigits([a, '_', b]) == Appended(ParseDigits([a]), DigitValue(b));
    assert ['_', a][..0] == [];
    assert ParseDigits(['_', a]) == Appended(ParseDigits([]), DigitValue(a));
    assert [a, '_', '_', b][..2] == [a, '_'];
    assert ParseDigits([a, '_', '_', b]) == Appended(ParseDigits([a, '_']), DigitValue(b));
  }

  /** The layout of a name: the table's name, four digits, an underscore, two digits. */
  lemma PrintedLayout(year: int, month: int)
    requires 0 <= year <= 9999 && 0 <= month <= 99
    ensures var name := PrintName(year, month);
            && |name| == 23 && name[..16] == "optical_reading_" && name[20] == '_'
            && (forall i | 0 <= i < 23 && i !in {20} && i >= 16 :: '0' <= name[i] <= '9')
  {
    var name := PrintName(year, month);
    assert |PREFIX| == 16 && |PrintYear(year)| == 4 && |PrintTwo(month)| == 2;
    assert name == PREFIX + (PrintYear(year) + "_" + PrintTwo(month)) by { Assemble(PREFIX, PrintYear(year), "_", PrintTwo(month)); }
    assert name[..16] == PREFIX;
    assert name[16..20] == PrintYear(year) && name[21..] == PrintTwo(month);
    assert forall i | 16 <= i < 20 :: name[i] == PrintYear(year)[i - 16];
  }

  /** Round trip: the drop job reads back the month the create function printed. */
  lemma NameRoundTrip(year: int, month: int)
    requires 0 <= year <= 9999 && 0 <= month <= 99
    ensures ParseName(PrintName(year, month)) == Some((year, month))
  {
    PrintedIsSafe(year, month);
    var y, m := ParseSafeName(PrintName(year, month));
    PrintInjective(y, m, year, month);
  }

  // ---------- What the drop job decides about one name ----------

  datatype Verdict =
    | Preserved           // the default partition, or a name that is not recognised
    | NoSuchMonth         // date() raises ValueError outside the try block of the drop job
    | MonthOf(first: Date)

  function Judge(name: string): Verdict {
    if name == DEFAULT_NAME then Preserved
    else
      match ParseName(name)
      case None => Preserved
      case Some((y, m)) => if IsMonth(y, m) then MonthOf(Date(y, m, 1)) else NoSuchMonth
  }

  predicate IsOld(name: string, cutoffFirst: Date) {
    Judge(name).MonthOf? && Before(Judge(name).first, cutoffFirst)
  }

  function OldOnes(rows: seq<string>, cutoffFirst: Date): seq<string> {
    if rows == [] then []
    else
      var n := |rows| - 1;
      OldOnes(rows[..n], cutoffFirst) + (if IsOld(rows[n], cutoffFirst) then [rows[n]] else [])
  }

  function Cutoff(today: Date, retention: nat): Option<Date>
    requires IsDate(today)
  {
    match MinusDays(today, retention)
    case None => None
    case Some(d) => Some(FirstOfMonth(d))
  }

  datatype Outcome =
    | Dropped(names: seq<string>)
    | Raised

  /** The drop job runs to its end: the cutoff exists, every recognised month exists, and every old name is safe. */
  predicate Completes(rows: seq<string>, today: Date, retention: nat)
    requires IsDate(today)
  {
    && Cutoff(today, retention).Some?
    && forall name | name in rows :: Allows(name, Cutoff(today, retention).value)
  }

  /** The month of the name exists, and if it is old the database function accepts the name. */
  predicate Allows(name: string, cutoffFirst: Date) {
    !Judge(name).NoSuchMonth? && (IsOld(name, cutoffFirst) ==> IsSafeName(name))
  }

  lemma {:induction false} OldOnesMembers(rows: seq<string>, cutoffFirst: Date)
    ensures forall name :: name in OldOnes(rows, cutoffFirst) <==> name in rows && IsOld(name, cutoffFirst)
  {
    if rows != [] {
      OldOnesMembers(rows[..|rows| - 1], cutoffFirst);
    }
  }

  lemma OldOnesSnoc(rows: seq<string>, name: string, cutoffFirst: Date)
    ensures OldOnes(rows + [name], cutoffFirst) ==
            OldOnes(rows, cutoffFirst) + (if IsOld(name, cutoffFirst) then [name] else [])
  {
    assert (rows + [name])[..|rows|] == rows;
  }

  /** A safe name whose month does not exist makes the drop job raise, whatever else is listed: nothing is dropped. */
  lemma BadMonthAborts(rows: seq<string>, today: Date, retention: nat, year: int, month: int)
    requires IsDate(today) && 0 <= year <= 9999 && 0 <= month <= 99
    requires PrintName(year, month) in rows
    ensures Completes(rows, today, retention) ==> IsMonth(year, month)
  {
    PrintedIsSafe(year, month);
    NameRoundTrip(year, month);
  }

  /** A name without the leading zero of the month, as the create function never prints it. */
  function ShortName(year: int, month: int): string
    requires 0 <= year <= 9999 && 1 <= month <= 9
  {
    PREFIX + PrintYear(year) + "_" + [DigitChar(month)]
  }

  lemma ShortParts(year: int, month: int)
    requires 0 <= year <= 9999 && 1 <= month <= 9
    ensures PREFIX <= ShortName(year, month) && ShortName(year, month)[|PREFIX|..] == PrintYear(year) + "_" + [DigitChar(month)]
    ensures PREFIX <= PrintName(year, month) && PrintName(year, month)[|PREFIX|..] == PrintYear(year) + "_" + PrintTwo(month)
  {
    Assemble(PREFIX, PrintYear(year), "_", [DigitChar(month)]);
    Assemble(PREFIX, PrintYear(year), "_", PrintTwo(month));
  }

  lemma ParseOne(c: char)
    requires IsDigit(c)
    ensures ParseInt([c]) == Some(DigitValue(c))
  {
    assert StripRight(StripLeft([c])) == [c];
  }

  lemma YearOf4(year: int, tail: string)
    requires 0 <= year <= 9999
    ensures var s := PrintYear(year) + "_" + tail; FirstUnderscore(s) == 4 && s[..4] == PrintYear(year) && s[5..] == tail
  {
    var s := PrintYear(year) + "_" + tail;
    assert s[0] == PrintYear(year)[0] && s[1] == PrintYear(year)[1] && s[2] == PrintYear(year)[2] && s[3] == PrintYear(year)[3];
    assert forall j | 0 <= j < 4 :: IsDigit(s[j]);
    assert s[4] == '_';
  }

  /** The drop job reads such a name as the month it stands for, and the database function refuses it. */
  lemma ShortNameIsRead(year: int, month: int)
    requires 0 <= year <= 9999 && 1 <= month <= 9
    ensures ParseName(ShortName(year, month)) == Some((year, month)) && !IsSafeName(ShortName(year, month))
    ensures ShortName(year, month) != DEFAULT_NAME
  {
    ShortParts(year, month);
    NameRoundTrip(year, month);
    YearOf4(year, [DigitChar(month)]);
    YearOf4(year, PrintTwo(month));
    ParseOne(DigitChar(month));
    DigitInjective(DigitValue(DigitChar(month)), month);
    assert DEFAULT_NAME[|PREFIX|..][0] == 'd';
  }

  lemma SameSuffixReadsAlike(a: string, b: string)
    requires RemovePrefix(a) == RemovePrefix(b)
    ensures ParseName(a) == ParseName(b)
  {
  }

  /** A name without the table's prefix is read just as well, and refused by the database function. */
  lemma BareNameIsRead(year: int, month: int, bare: string)
    requires 0 <= year <= 9999 && 0 <= month <= 99 && bare == PrintYear(year) + "_" + PrintTwo(month)
    ensures ParseName(bare) == Some((year, month)) && !IsSafeName(bare)
  {
    BareHasNoPrefix(bare, year, month);
    NameRoundTrip(year, month);
    PrintedSuffix(year, month, bare);
    SameSuffixReadsAlike(bare, PrintName(year, month));
  }

  lemma BareHasNoPrefix(bare: string, year: int, month: int)
    requires 0 <= year <= 9999 && 0 <= month <= 99 && bare == PrintYear(year) + "_" + PrintTwo(month)
    ensures RemovePrefix(bare) == bare && !IsSafeName(bare)
  {
    assert IsDigit(bare[0]) && PREFIX[0] == 'o';
  }

  lemma PrintedSuffix(year: int, month: int, bare: string)
    requires 0 <= year <= 9999 && 0 <= month <= 99 && bare == PrintYear(year) + "_" + PrintTwo(month)
    ensures RemovePrefix(PrintName(year, month)) == bare
  {
    Assemble(PREFIX, PrintYear(year), "_", PrintTwo(month));
  }

  /** One more child table with such a name makes the drop job raise exactly when its month is old: then nothing is dropped. */
  lemma ShortNameAborts(rows: seq<string>, today: Date, retention: nat, year: int, month: int)
    requires IsDate(today) && Cutoff(today, retention).Some? && 1 <= year <= 9999 && 1 <= month <= 9
    ensures Completes(rows + [ShortName(year, month)], today, retention) <==>
            Completes(rows, today, retention) && !Before(Date(year, month, 1), Cutoff(today, retention).value)
  {
    ShortNameIsJudged(year, month);
    AllowsOdd(ShortName(year, month), Date(year, month, 1), Cutoff(today, retention).value);
    CompletesSnoc(rows, ShortName(year, month), today, retention);
  }

  lemma ShortNameIsJudged(year: int, month: int)
    requires 1 <= year <= 9999 && 1 <= month <= 9
    ensures Judge(ShortName(year, month)) == MonthOf(Date(year, month, 1)) && !IsSafeName(ShortName(year, month))
  {
    ShortNameIsRead(year, month);
  }

  /** A name that is read as a month and refused by the database function. */
  lemma AllowsOdd(name: string, first: Date, cutoffFirst: Date)
    requires Judge(name) == MonthOf(first) && !IsSafeName(name)
    ensures Allows(name, cutoffFirst) <==> !Before(first, cutoffFirst)
  {
  }

  lemma CompletesSnoc(rows: seq<string>, name: string, today: Date, retention: nat)
    requires IsDate(today) && Cutoff(today, retention).Some?
    ensures Completes(rows + [name], today, retention) <==>
            Completes(rows, today, retention) && Allows(name, Cutoff(today, retention).value)
  {
    assert (rows + [name])[|rows|] == name;
    assert forall other :: other in rows + [name] <==> other in rows || other == name;
  }

  predicate InMonth(d: Date, first: Date) {
    IsDate(d) && FirstOfMonth(d) == first
  }

  /** A recognised month is dropped exactly when every one of its days precedes the first day of the cutoff month. */
  lemma DropsExactlyWholeOldMonths(rows: seq<string>, today: Date, retention: nat, name: string)
    requires IsDate(today) && Cutoff(today, retention).Some?
    requires name in rows && Judge(name).MonthOf?
    ensures name in OldOnes(rows, Cutoff(today, retention).value) <==>
            forall d | InMonth(d, Judge(name).first) :: Before(d, Cutoff(today, retention).value)
  {
    var cutoffFirst := Cutoff(today, retention).value;
    OldOnesMembers(rows, cutoffFirst);
    var first := Judge(name).first;
    assert InMonth(first, first);
  }

  /** A printed month is dropped exactly when it lies before the month of the day that is the retention before today. */
  lemma DropsByRetention(rows: seq<string>, today: Date, retention: nat, day: Date, year: int, month: int)
    requires IsDate(today) && IsDate(day) && Ordinal(day) == Ordinal(today) - retention && IsMonth(year, month)
    ensures Cutoff(today, retention).Some?
    ensures PrintName(year, month) in OldOnes(rows, Cutoff(today, retention).value) <==>
            PrintName(year, month) in rows && 12 * year + month < 12 * day.year + day.month
    ensures "optical_reading_default" !in OldOnes(rows, Cutoff(today, retention).value)
  {
    assert Ordinal(day) >= 1;
    MinusDaysOrdinal(today, retention);
    var c := MinusDays(today, retention).value;
    BeforeIsOrdinalOrder(c, day);
    BeforeIsOrdinalOrder(day, c);
    assert c == day;
    OldOnesMembers(rows, Cutoff(today, retention).value);
    PrintedIsSafe(year, month);
    NameRoundTrip(year, month);
    assert Judge(PrintName(year, month)) == MonthOf(Date(year, month, 1));
    assert Judge("optical_reading_default") == Preserved;
  }

  /** No day within the retention period is lost. */
  lemma RetentionSafety(rows: seq<string>, today: Date, retention: nat, name: string, d: Date)
    requires IsDate(today) && Cutoff(today, retention).Some?
    requires name in OldOnes(rows, Cutoff(today, retention).value)
    requires Judge(name).MonthOf? && InMonth(d, Judge(name).first)
    ensures Ordinal(today) - Ordinal(d) > retention
  {
    var cutoffFirst := Cutoff(today, retention).value;
    OldOnesMembers(rows, cutoffFirst);
    var cutoff := MinusDays(today, retention).value;
    MinusDaysOrdinal(today, retention);
    assert Before(d, cutoff);
    BeforeIsOrdinalOrder(d, cutoff);
  }

  // ---------- What the ensure job creates ----------

  /** Name of the partition for the month that starts the given number of months after the current one. */
  function EnsuredName(today: Date, offset: nat): Option<string>
    requires IsDate(today)
  {
    match AddMonths(FirstOfMonth(today), offset)
    case None => None
    case Some(first) => Some(PrintName(first.year, first.month))
  }

  /** Names of the first n months, starting with the current one. */
  function EnsuredNames(today: Date, n: nat): set<string>
    requires IsDate(today)
  {
    Values((k: nat) => EnsuredName(today, k), n)
  }

  function Values<T>(f: nat -> Option<T>, n: nat): set<T> {
    set k | 0 <= k < n && f(k).Some? :: f(k).value
  }

  lemma {:induction false} ValuesStep<T>(f: nat -> Option<T>, n: nat)
    requires f(n).Some?
    ensures Values(f, n + 1) == Values(f, n) + {f(n).value}
  {
  }

  lemma {:induction false} EnsuredStep(today: Date, n: nat)
    requires IsDate(today) && EnsuredName(today, n).Some?
    ensures EnsuredNames(today, n + 1) == EnsuredNames(today, n) + {EnsuredName(today, n).value}
  {
    ValuesStep((k: nat) => EnsuredName(today, k), n);
  }

  /** The month is the current one or one of the three that follow. */
  ghost predicate Upcoming(today: Date, year: int, month: int) {
    IsMonth(year, month) && 0 <= (12 * year + month) - (12 * today.year + today.month) <= 3
  }

  lemma {:induction false} EnsuredNameMeaning(today: Date, offset: nat)
    requires IsDate(today)
    ensures match EnsuredName(today, offset)
            case Some(name) =>
              exists y, m :: IsMonth(y, m) && 12 * y + m == 12 * today.year + today.month + offset && name == PrintName(y, m)
            case None => 12 * today.year + today.month + offset > 12 * MAX_YEAR + 12
  {
    AddMonthsIndex(FirstOfMonth(today), offset);
    if EnsuredName(today, offset).Some? {
      var first := AddMonths(FirstOfMonth(today), offset).value;
      assert EnsuredName(today, offset).value == PrintName(first.year, first.month);
    }
  }

  lemma {:induction false} EnsuredIsUpcoming(today: Date, name: string) returns (y: int, m: int)
    requires IsDate(today) && name in EnsuredNames(today, LOOK_AHEAD_MONTHS + 1)
    ensures Upcoming(today, y, m) && name == PrintName(y, m)
  {
    var k := ValueOf((k: nat) => EnsuredName(today, k), LOOK_AHEAD_MONTHS + 1, name);
    EnsuredNameMeaning(today, k);
    y, m :| IsMonth(y, m) && 12 * y + m == 12 * today.year + today.month + k && name == PrintName(y, m);
  }

  lemma {:induction false} ValueOf<T>(f: nat -> Option<T>, n: nat, v: T) returns (k: nat)
    requires v in Values(f, n)
    ensures k < n && f(k) == Some(v)
  {
    k :| 0 <= k < n && f(k) == Some(v);
  }

  lemma {:induction false} IsValue<T>(f: nat -> Option<T>, n: nat, k: nat)
    requires k < n && f(k).Some?
    ensures f(k).value in Values(f, n)
  {
  }

  lemma {:induction false} UpcomingIsAmong(today: Date, y: int, m: int, k: nat, name: string)
    requires IsDate(today) && Upcoming(today, y, m) && k == (12 * y + m) - (12 * today.year + today.month) && name == PrintName(y, m)
    ensures name in EnsuredNames(today, LOOK_AHEAD_MONTHS + 1)
  {
    UpcomingIsEnsured(today, y, m, k, name);
    NameIsAmong(today, k, name);
  }

  lemma {:induction false} NameIsAmong(today: Date, k: nat, name: string)
    requires IsDate(today) && k <= LOOK_AHEAD_MONTHS && EnsuredName(today, k) == Some(name)
    ensures name in EnsuredNames(today, LOOK_AHEAD_MONTHS + 1)
  {
    IsValue((offset: nat) => EnsuredName(today, offset), LOOK_AHEAD_MONTHS + 1, k);
  }

  /** The partitions ensured on a day are those of its month and of the three months after it. */
  lemma {:induction false} EnsuredMonths(today: Date, name: string)
    requires IsDate(today)
    ensures name in EnsuredNames(today, LOOK_AHEAD_MONTHS + 1) <==> exists y, m :: Upcoming(today, y, m) && name == PrintName(y, m)
  {
    if name in EnsuredNames(today, LOOK_AHEAD_MONTHS + 1) {
      var y, m := EnsuredIsUpcoming(today, name);
    }
    if y, m :| Upcoming(today, y, m) && name == PrintName(y, m) {
      UpcomingIsAmong(today, y, m, (12 * y + m) - (12 * today.year + today.month), name);
    }
  }

  lemma {:induction false} EnsuredNameFrom(today: Date, offset: nat, first: Date)
    requires IsDate(today) && AddMonths(FirstOfMonth(today), offset) == Some(first) && IsMonth(first.year, first.month)
    ensures EnsuredName(today, offset) == Some(PrintName(first.year, first.month))
  {
  }

  lemma {:induction false} UpcomingIsEnsured(today: Date, year: int, month: int, k: nat, name: string)
    requires IsDate(today) && Upcoming(today, year, month)
    requires k == (12 * year + month) - (12 * today.year + today.month) && name == PrintName(year, month)
    ensures EnsuredName(today, k) == Some(name)
  {
    AddMonthsReaches(FirstOfMonth(today), year, month);
    EnsuredNameFrom(today, k, Date(year, month, 1));
  }

  /** The two jobs never disagree on one day: no month that is ensured today is dropped today. */
  lemma NeverDropsEnsured(rows: seq<string>, today: Date, retention: nat, offset: nat)
    requires IsDate(today) && Cutoff(today, retention).Some? && EnsuredName(today, offset).Some?
    ensures EnsuredName(today, offset).value !in OldOnes(rows, Cutoff(today, retention).value)
  {
    var cutoffFirst := Cutoff(today, retention).value;
    var first := AddMonths(FirstOfMonth(today), offset).value;
    var name := EnsuredName(today, offset).value;
    OldOnesMembers(rows, cutoffFirst);
    AddMonthsIndex(FirstOfMonth(today), offset);
    NameRoundTrip(first.year, first.month);
    PrintedIsSafe(first.year, first.month);
    assert Judge(name) == MonthOf(first);
    var cutoff := MinusDays(today, retention).value;
    MinusDaysOrdinal(today, retention);
    BeforeIsOrdinalOrder(today, cutoff);
    assert MonthIndex(cutoff) <= MonthIndex(today) <= MonthIndex(first);
  }

  /** Every day of the ensured period lies in the range of exactly one of the ensured months. */
  lemma RangesTile(today: Date, d: Date)
    requires IsDate(today) && IsDate(d)
    requires AddMonths(FirstOfMonth(today), LOOK_AHEAD_MONTHS + 1).Some?
    requires !Before(d, FirstOfMonth(today)) && Before(d, AddMonths(FirstOfMonth(today), LOOK_AHEAD_MONTHS + 1).value)
    ensures exists k :: 0 <= k <= LOOK_AHEAD_MONTHS && InEnsuredRange(today, d, k)
    ensures forall j, k | 0 <= j <= LOOK_AHEAD_MONTHS && 0 <= k <= LOOK_AHEAD_MONTHS
                          && InEnsuredRange(today, d, j) && InEnsuredRange(today, d, k) :: j == k
  {
    var base := FirstOfMonth(today);
    AddMonthsIndex(base, LOOK_AHEAD_MONTHS + 1);
    forall k | 0 <= k <= LOOK_AHEAD_MONTHS
      ensures InEnsuredRange(today, d, k) <==> MonthIndex(d) == MonthIndex(base) + k
    {
      AddMonthsIndex(base, k);
      AddMonthsComposes(base, k, 1);
      AddMonthsIndex(base, k + 1);
      DayInItsMonthOnly(d, AddMonths(base, k).value);
      if MonthIndex(d) == MonthIndex(base) + k {
        IndexDeterminesMonth(FirstOfMonth(d), AddMonths(base, k).value);
      }
    }
    assert InEnsuredRange(today, d, MonthIndex(d) - MonthIndex(base));
  }

  /** The range FROM (first of month) TO (first of next month) the create function declares. */
  ghost predicate InEnsuredRange(today: Date, d: Date, k: int) {
    && AddMonths(FirstOfMonth(today), k).Some?
    && var first := AddMonths(FirstOfMonth(today), k).value;
       AddMonths(first, 1).Some? && !Before(d, first) && Before(d, AddMonths(first, 1).value)
  }

  /** A month ahead that exists lies behind all nearer ones. */
  lemma {:induction false} MonthsReach(today: Date, offset: nat)
    requires IsDate(today) && offset <= LOOK_AHEAD_MONTHS
    ensures AddMonths(FirstOfMonth(today), LOOK_AHEAD_MONTHS).Some? ==> EnsuredName(today, offset).Some?
    ensures offset == LOOK_AHEAD_MONTHS && EnsuredName(today, offset).Some? ==> AddMonths(FirstOfMonth(today), LOOK_AHEAD_MONTHS).Some?
  {
    AddMonthsIndex(FirstOfMonth(today), offset);
    AddMonthsIndex(FirstOfMonth(today), LOOK_AHEAD_MONTHS);
  }

  // ---------- The two jobs ----------

  class PartitionCatalog {
    var tables: set<string>

    constructor ()
      ensures tables == {DEFAULT_NAME}
    {
      tables := {DEFAULT_NAME};
    }

    /** The name that the create function gives the month; None when the month is outside the calendar. */
    static method NameAhead(base: Date, offset: nat) returns (name: Option<string>)
      requires IsDate(base) && base.day == 1
      ensures name == EnsuredName(base, offset)
    {
      var target := AddMonths(base, offset);
      AddMonthsIndex(base, offset);
      name := if target.None? then None else Some(PrintName(target.value.year, target.value.month));
    }

    /** Creates the current month and the months ahead; an error rolls the transaction back. */
    method EnsurePartitions(today: Date) returns (processed: Option<nat>)
      requires IsDate(today)
      modifies this
      ensures processed.Some? <==> AddMonths(FirstOfMonth(today), LOOK_AHEAD_MONTHS).Some?
      ensures processed.Some? ==> processed.value == 4
      ensures tables == if processed.None? then old(tables) else old(tables) + EnsuredNames(today, LOOK_AHEAD_MONTHS + 1)
    {
      var base := FirstOfMonth(today);
      var created := 0;
      var before := tables;
      for offset := 0 to LOOK_AHEAD_MONTHS + 1
        invariant created == offset
        invariant offset > 0 ==> EnsuredName(today, offset - 1).Some?
        invariant tables == before + EnsuredNames(today, offset)
      {
        var name := NameAhead(base, offset);
        MonthsReach(today, offset);
        if name.None? {
          tables := before;
          return None;
        }
        EnsuredStep(today, offset);
        tables := tables + {name.value};
        created := created + 1;
      }
      MonthsReach(today, LOOK_AHEAD_MONTHS);
      processed := Some(created);
    }

    /** The second loop of the drop job; the database function refuses a name that is not safe. */
    method DropAll(names: seq<string>) returns (refused: bool)
      modifies this
      ensures refused <==> exists name :: name in names && !IsSafeName(name)
      ensures tables == if refused then old(tables) else old(tables) - set name | name in names
    {
      var before := tables;
      for i := 0 to |names|
        invariant tables == before - set name | name in names[..i]
        invariant forall name | name in names[..i] :: IsSafeName(name)
      {
        if !IsSafeName(names[i]) {
          tables := before;
          return true;
        }
        tables := tables - {names[i]};
        assert names[..i + 1] == names[..i] + [names[i]];
      }
      assert names[..|names|] == names;
      refused := false;
    }

    /** The first loop of the drop job; None when date() raises. */
    static method Scan(rows: seq<string>, cutoffFirst: Date) returns (candidates: Option<seq<string>>)
      ensures candidates.None? <==> exists name :: name in rows && Judge(name).NoSuchMonth?
      ensures candidates.Some? ==> candidates.value == OldOnes(rows, cutoffFirst)
    {
      var found: seq<string> := [];
      for i := 0 to |rows|
        invariant found == OldOnes(rows[..i], cutoffFirst)
        invariant forall name | name in rows[..i] :: !Judge(name).NoSuchMonth?
      {
        assert rows[..i + 1] == rows[..i] + [rows[i]];
        OldOnesSnoc(rows[..i], rows[i], cutoffFirst);
        match Judge(rows[i]) {
          case Preserved =>
          case NoSuchMonth => return None;
          case MonthOf(first) =>
            if Before(first, cutoffFirst) {
              found := found + [rows[i]];
            }
        }
      }
      assert rows[..|rows|] == rows;
      candidates := Some(found);
    }

    /** Drops old months; rows is the listing of the child tables, and an error rolls the transaction back. */
    method DropOldPartitions(today: Date, retention: nat, rows: seq<string>) returns (outcome: Outcome)
      requires IsDate(today)
      requires forall name :: name in rows <==> name in tables
      modifies this
      ensures outcome.Dropped? <==> Completes(rows, today, retention)
      ensures outcome.Dropped? ==> outcome.names == OldOnes(rows, Cutoff(today, retention).value)
      ensures tables == if outcome.Raised? then old(tables) else old(tables) - set name | name in outcome.names
    {
      var cutoff := MinusDays(today, retention);
      if cutoff.None? {
        return Raised;
      }
      var cutoffFirst := FirstOfMonth(cutoff.value);
      var candidates := Scan(rows, cutoffFirst);
      if candidates.None? {
        return Raised;
      }
      OldOnesMembers(rows, cutoffFirst);
      var refused := DropAll(candidates.value);
      outcome := if refused then Raised else Dropped(candidates.value);
    }
  }
}
