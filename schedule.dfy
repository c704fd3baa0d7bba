/** The regular-season schedule: how many game numbers to try for a season,
    and how a game number becomes a game ID such as "2019020300"
    (season-start year, the regular-season type "02", then the game number
    zero-padded to four digits). */
module Schedule {
  import opened Json

  /** Number of regular-season games for the season starting in `year`:
      720 for the shortened 2012 season (tested first), 1271 from 2017 on,
      1230 otherwise. */
  function GameCount(year: int): nat {
    if year == 2012 then 720
    else if year >= 2017 then 1271
    else 1230
  }

  /** `list(range(1, GameCount(year) + 1))`: the game numbers tried, in
      ascending order, with no gaps. */
  function GameNumbers(year: int): (ns: seq<nat>)
    ensures |ns| == GameCount(year)
    ensures forall i :: 0 <= i < |ns| ==> ns[i] == i + 1
  {
    seq(GameCount(year), i requires 0 <= i => i + 1)
  }

  /** The three tiers of the season range, as membership: exactly the numbers
      1..720 in 2012, 1..1271 from 2017 on, and 1..1230 for every other year. */
  lemma SeasonRange(year: int, n: int)
    ensures year == 2012 ==> (n in GameNumbers(year) <==> 1 <= n <= 720)
    ensures year >= 2017 ==> (n in GameNumbers(year) <==> 1 <= n <= 1271)
    ensures year != 2012 && year < 2017 ==> (n in GameNumbers(year) <==> 1 <= n <= 1230)
  {
    var ns := GameNumbers(year);
    if 1 <= n <= |ns| {
      assert ns[n - 1] == n;
    }
  }

  predicate IsDigit(c: char) { '0' <= c <= '9' }

  predicate AllDigits(s: string) { forall i :: 0 <= i < |s| ==> IsDigit(s[i]) }

  function DigitChar(d: nat): (c: char)
    requires d < 10
    ensures IsDigit(c) && c as int - '0' as int == d
  {
    ('0' as int + d) as char
  }

  /** The integer a string of decimal digits denotes. */
  function DigitsValue(s: string): nat
    requires AllDigits(s)
    decreases |s|
  {
    if s == [] then 0
    else DigitsValue(s[..|s| - 1]) * 10 + (s[|s| - 1] as int - '0' as int)
  }

  /** `str(n)` for a natural number: its decimal digits, without leading
      zeros. */
  function Decimal(n: nat): (s: string)
    ensures 1 <= |s| && AllDigits(s)
    ensures |s| > 1 ==> s[0] != '0'
    ensures n < 10 ==> |s| == 1
    ensures n < 100 ==> |s| <= 2
    ensures n < 1000 ==> |s| <= 3
    ensures n < 10000 ==> |s| <= 4
  {
    if n < 10 then [DigitChar(n)] else Decimal(n / 10) + [DigitChar(n % 10)]
  }

  /** `str` and reading the digits back are inverse. */
  lemma {:induction false} DecimalValue(n: nat)
    ensures DigitsValue(Decimal(n)) == n
  {
    if n >= 10 {
      DecimalValue(n / 10);
      var s := Decimal(n);
      assert s[..|s| - 1] == Decimal(n / 10);
    }
  }

  /** `int(s)` for the strings the season argument takes: an optional sign
      followed by ASCII digits.  Anything else raises ValueError. */
  function ParseInt(s: string): (r: Option<int>)
    ensures r.Some? ==> |s| >= 1
  {
    if |s| >= 2 && (s[0] == '+' || s[0] == '-') && AllDigits(s[1..]) then
      var v: int := DigitsValue(s[1..]);
      Some(if s[0] == '-' then -v else v)
    else if |s| >= 1 && AllDigits(s) then Some(DigitsValue(s))
    else None
  }

  /** `int(str(year))` gives the year back, for every year, negative ones
      included. */
  lemma ParseDecimal(year: int)
    ensures year >= 0 ==> ParseInt(Decimal(year)) == Some(year)
    ensures year < 0 ==> ParseInt("-" + Decimal(-year)) == Some(year)
  {
    if year >= 0 {
      DecimalValue(year);
    } else {
      var s := "-" + Decimal(-year);
      assert s[1..] == Decimal(-year);
      DecimalValue(-year);
    }
  }

  function Zeros(n: nat): (z: string)
    ensures |z| == n && forall i :: 0 <= i < n ==> z[i] == '0'
  {
    if n == 0 then "" else Zeros(n - 1) + "0"
  }

  /** Python's `s.zfill(width)`: left-pad with '0' up to `width`, keeping a
      leading sign in front; a string already that long is left as it is. */
  function ZFill(s: string, width: int): (r: string)
    ensures |r| == if |s| >= width then |s| else width
    ensures |s| >= width ==> r == s
    ensures |s| < width && (s == [] || (s[0] != '+' && s[0] != '-')) ==>
              r[|r| - |s|..] == s && r[..|r| - |s|] == Zeros(width - |s|)
    ensures |s| < width && s != [] && (s[0] == '+' || s[0] == '-') ==>
              r[0] == s[0] && r[1..width - |s| + 1] == Zeros(width - |s|) &&
              r[width - |s| + 1..] == s[1..]
  {
    if |s| >= width then s
    else if |s| > 0 && (s[0] == '+' || s[0] == '-') then
      var r := [s[0]] + Zeros(width - |s|) + s[1..];
      assert r[1..width - |s| + 1] == Zeros(width - |s|);
      r
    else
      var r := Zeros(width - |s|) + s;
      assert r[|r| - |s|..] == s;
      r
  }

  /** Leading zeros do not change the value of a digit string. */
  lemma {:induction false} ZerosValue(z: string, s: string)
    requires AllDigits(s) && forall i :: 0 <= i < |z| ==> z[i] == '0'
    ensures AllDigits(z + s) && DigitsValue(z + s) == DigitsValue(s)
    decreases |s|
  {
    var t := z + s;
    if s == [] {
      assert t == z;
      ZerosOnly(z);
    } else {
      assert t[..|t| - 1] == z + s[..|s| - 1];
      ZerosValue(z, s[..|s| - 1]);
    }
  }

  lemma {:induction false} ZerosOnly(z: string)
    requires forall i :: 0 <= i < |z| ==> z[i] == '0'
    ensures AllDigits(z) && DigitsValue(z) == 0
    decreases |z|
  {
    if z != [] {
      ZerosOnly(z[..|z| - 1]);
    }
  }

  /** `season + "02" + str(n).zfill(4)` */
  function GameId(season: string, n: nat): string {
    season + "02" + ZFill(Decimal(n), 4)
  }

  /** Shape of a game ID for every game number below 10000 (every number in
      every season range): the season, then "02", then exactly four digits
      whose value is the game number. */
  lemma GameIdShape(season: string, n: nat)
    requires n < 10000
    ensures var id := GameId(season, n);
      |id| == |season| + 6 &&
      id[..|season|] == season &&
      id[|season|..|season| + 2] == "02" &&
      AllDigits(id[|season| + 2..]) &&
      DigitsValue(id[|season| + 2..]) == n
  {
    var d := Decimal(n);
    var padded := ZFill(d, 4);
    var id := GameId(season, n);
    assert id[|season| + 2..] == padded;
    assert id[..|season|] == season;
    assert id[|season|..|season| + 2] == "02";
    var z := padded[..|padded| - |d|];
    assert padded == z + d;
    ZerosValue(z, d);
    DecimalValue(n);
  }

  /** Within a season, distinct game numbers give distinct game IDs. */
  lemma GameIdInjective(season: string, m: nat, n: nat)
    requires m < 10000 && n < 10000
    requires GameId(season, m) == GameId(season, n)
    ensures m == n
  {
    GameIdShape(season, m);
    GameIdShape(season, n);
  }
}
