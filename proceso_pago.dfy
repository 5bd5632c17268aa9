/**
 * The payment screen: the input formatters for card number, expiry date and
 * CVV, the ordered validation of the form, the card-expiry comparison and
 * the screen's steps (1 form, 2 processing, 3 done).
 */
module ProcesoPago {
  import opened Text
  import opened Wrappers

  // ---------------------------------------------------------------------
  // Card number
  // ---------------------------------------------------------------------

  /**
   * `s.replace(/(\d{4})/g, "$1 ")`: the pattern is tried at each position
   * from the left; a match of four digits is copied followed by a space and
   * the scan resumes after it, any other character is copied as is.
   */
  function GroupFours(s: string): string
    decreases |s|
  {
    if |s| >= 4 && AllDigits(s[..4]) then s[..4] + " " + GroupFours(s[4..])
    else if s == [] then []
    else [s[0]] + GroupFours(s[1..])
  }

  /**
   * Digits in groups of four joined by single spaces: every fifth character
   * is a separator and the others are the digits in order.
   */
  function Chunked(d: string): (r: string)
    ensures |r| == if d == [] then 0 else |d| + (|d| - 1) / 4
    decreases |d|
  {
    if |d| <= 4 then d else d[..4] + " " + Chunked(d[4..])
  }

  /** Moving five places on moves one group on. */
  lemma ShiftByGroup(k: int)
    requires k >= 5
    ensures (k - 5) % 5 == k % 5 && (k - 5) / 5 == k / 5 - 1
  {
  }

  /** Every fifth character of a grouping is a separator. */
  lemma {:induction false} ChunkedSeparatorsAt(d: string)
    ensures forall k :: 0 <= k < |Chunked(d)| && k % 5 == 4 ==> Chunked(d)[k] == ' '
    decreases |d|
  {
    var r := Chunked(d);
    if |d| > 4 {
      var rest := Chunked(d[4..]);
      ChunkedSeparatorsAt(d[4..]);
      assert r == d[..4] + " " + rest;
      forall k | 0 <= k < |r| && k % 5 == 4
        ensures r[k] == ' '
      {
        if k >= 5 {
          ShiftByGroup(k);
          assert r[k] == rest[k - 5];
        }
      }
    }
  }

  /** The other characters of a grouping are the digits in order. */
  lemma {:induction false} ChunkedDigitsAt(d: string)
    ensures forall k :: 0 <= k < |Chunked(d)| && k % 5 != 4 ==> k - k / 5 < |d| && Chunked(d)[k] == d[k - k / 5]
    decreases |d|
  {
    var r := Chunked(d);
    if |d| > 4 {
      var rest := Chunked(d[4..]);
      ChunkedDigitsAt(d[4..]);
      assert r == d[..4] + " " + rest;
      forall k | 0 <= k < |r| && k % 5 != 4
        ensures k - k / 5 < |d| && r[k] == d[k - k / 5]
      {
        if k >= 5 {
          var j := k - 5;
          ShiftByGroup(k);
          assert r[k] == rest[j];
          assert rest[j] == d[4..][j - j / 5];
          assert j - j / 5 + 4 == k - k / 5;
        }
      }
    }
  }

  /** A grouping of digits holds only digits and separators. */
  lemma {:induction false} ChunkedDigitsAndSpaces(d: string)
    requires AllDigits(d)
    ensures DigitsAndSpaces(Chunked(d))
    decreases |d|
  {
    if |d| > 4 {
      ChunkedDigitsAndSpaces(d[4..]);
      var r := Chunked(d);
      var rest := Chunked(d[4..]);
      assert r == d[..4] + " " + rest;
      forall k | 0 <= k < |r|
        ensures IsDigit(r[k]) || IsSpace(r[k])
      {
        if k >= 5 {
          assert r[k] == rest[k - 5];
        }
      }
    }
  }

  /**
   * What the card-number field stores for the typed text `v`:
   * `v.replace(/\s/g, "").replace(/(\d{4})/g, "$1 ").trim().substring(0, 19)`.
   */
  function FormatCard(v: string): string {
    Take(Trim(GroupFours(StripSpaces(v))), 19)
  }

  lemma {:induction false} GroupFoursOfShort(s: string)
    requires |s| < 4
    ensures GroupFours(s) == s
    decreases |s|
  {
    if s != [] {
      GroupFoursOfShort(s[1..]);
    }
  }

  /** On digits the global replacement is the grouping plus one space after a full last group. */
  lemma {:induction false} GroupFoursOfDigits(d: string)
    requires AllDigits(d)
    ensures GroupFours(d) == Chunked(d) + (if |d| > 0 && |d| % 4 == 0 then " " else "")
    decreases |d|
  {
    if |d| < 4 {
      GroupFoursOfShort(d);
    } else if |d| == 4 {
      assert d[4..] == [];
      assert d[..4] == d;
    } else {
      var tail := if |d| % 4 == 0 then " " else "";
      assert AllDigits(d[..4]);
      assert |d[4..]| % 4 == |d| % 4;
      GroupFoursOfDigits(d[4..]);
      calc {
        GroupFours(d);
        d[..4] + " " + GroupFours(d[4..]);
        d[..4] + " " + (Chunked(d[4..]) + tail);
        (d[..4] + " " + Chunked(d[4..])) + tail;
        Chunked(d) + tail;
      }
    }
  }

  /** The grouping of digits starts and ends with a digit. */
  lemma {:induction false} ChunkedEnds(d: string)
    requires AllDigits(d)
    ensures var r := Chunked(d); r != [] ==> IsDigit(r[0]) && IsDigit(r[|r| - 1])
    decreases |d|
  {
    if |d| > 4 {
      ChunkedEnds(d[4..]);
      var r := Chunked(d);
      var rest := Chunked(d[4..]);
      assert r == d[..4] + " " + rest;
      assert r[0] == d[0];
      assert r[|r| - 1] == rest[|rest| - 1];
    }
  }

  /** Splitting the digits after a whole number of groups splits the grouping. */
  lemma {:induction false} ChunkedSplit(a: string, b: string)
    requires |a| > 0 && |a| % 4 == 0 && |b| > 0
    ensures Chunked(a + b) == Chunked(a) + " " + Chunked(b)
    decreases |a|
  {
    var ab := a + b;
    assert ab[..4] == a[..4];
    assert |ab| > 4;
    assert Chunked(ab) == ab[..4] + " " + Chunked(ab[4..]);
    if |a| == 4 {
      assert ab[4..] == b;
      assert a[..4] == a;
    } else {
      assert ab[4..] == a[4..] + b;
      assert |a[4..]| % 4 == 0;
      assert Chunked(a) == a[..4] + " " + Chunked(a[4..]);
      ChunkedSplit(a[4..], b);
    }
  }

  /** Keeping 19 characters of a grouping keeps the grouping of the first 16 digits. */
  lemma TakeChunked(d: string)
    ensures Take(Chunked(d), 19) == Chunked(Take(d, 16))
  {
    if |d| > 16 {
      assert d == d[..16] + d[16..];
      assert Take(d, 16) == d[..16];
      ChunkedSplit(d[..16], d[16..]);
      var c := Chunked(d[..16]);
      assert |c| == 19;
      assert Chunked(d) == c + " " + Chunked(d[16..]);
      assert (c + " " + Chunked(d[16..]))[..19] == c;
    } else {
      assert Take(d, 16) == d;
      assert |Chunked(d)| <= 19;
    }
  }

  /** Removing the separators of a grouping gives back the digits. */
  lemma {:induction false} StripChunked(d: string)
    requires AllDigits(d)
    ensures StripSpaces(Chunked(d)) == d
    decreases |d|
  {
    if |d| <= 4 {
      StripSpacesOfNoSpaces(d);
    } else {
      StripChunked(d[4..]);
      StripSpacesConcat(d[..4] + " ", Chunked(d[4..]));
      StripSpacesConcat(d[..4], " ");
      StripSpacesOfNoSpaces(d[..4]);
      assert d[..4] + d[4..] == d;
    }
  }

  /**
   * For typed text made of digits and whitespace, the stored card number is
   * the first min(n, 16) digits in groups of four joined by single spaces.
   */
  lemma FormatCardIsGrouping(v: string)
    requires DigitsAndSpaces(v)
    ensures FormatCard(v) == Chunked(Take(StripSpaces(v), 16))
  {
    var d := StripSpaces(v);
    StripSpacesLeavesDigits(v);
    TrimGroupFours(d);
    assert FormatCard(v) == Take(Chunked(d), 19);
    TakeChunked(d);
  }

  /** A digit is no whitespace. */
  lemma DigitIsNoSpace(c: char)
    requires IsDigit(c)
    ensures !IsSpace(c)
  {
  }

  /** Trimming the replacement on digits removes the space after a full last group. */
  lemma TrimGroupFours(d: string)
    requires AllDigits(d)
    ensures Trim(GroupFours(d)) == Chunked(d)
  {
    var c := Chunked(d);
    GroupFoursOfDigits(d);
    ChunkedEnds(d);
    if c != [] {
      DigitIsNoSpace(c[0]);
      DigitIsNoSpace(c[|c| - 1]);
    }
    if |d| > 0 && |d| % 4 == 0 {
      assert GroupFours(d) == c + " ";
      TrimDropsTrailingSpace(c);
    } else {
      assert GroupFours(d) == c + "" == c;
      TrimUnchanged(c);
    }
  }

  /**
   * The stored card number: at most 19 characters, no trailing space, a space
   * exactly at every fifth position, and its digits are the first 16 typed.
   */
  lemma FormatCardShape(v: string)
    requires DigitsAndSpaces(v)
    ensures var r := FormatCard(v);
      && |r| <= 19
      && (r != [] ==> r[|r| - 1] != ' ')
      && (forall k :: 0 <= k < |r| ==> (r[k] == ' ' <==> k % 5 == 4))
      && StripSpaces(r) == Take(StripSpaces(v), 16)
  {
    var p := Take(StripSpaces(v), 16);
    FormatCardIsGrouping(v);
    StripSpacesLeavesDigits(v);
    assert AllDigits(p);
    StripChunked(p);
    ChunkedEnds(p);
    ChunkedSeparators(p);
  }

  /** In a grouping of digits the spaces are exactly at every fifth position. */
  lemma ChunkedSeparators(p: string)
    requires AllDigits(p)
    ensures forall k :: 0 <= k < |Chunked(p)| ==> (Chunked(p)[k] == ' ' <==> k % 5 == 4)
  {
    ChunkedSeparatorsAt(p);
    ChunkedDigitsAt(p);
    forall k | 0 <= k < |Chunked(p)| && k % 5 != 4
      ensures Chunked(p)[k] != ' '
    {
      assert IsDigit(p[k - k / 5]);
    }
  }

  /** A grouping of digits has no twelve consecutive digits. */
  lemma ChunkedHasNoDigitRun(p: string)
    requires AllDigits(p)
    ensures forall i :: !DigitRunAt(Chunked(p), i)
  {
    var r := Chunked(p);
    ChunkedSeparators(p);
    forall i
      ensures !DigitRunAt(r, i)
    {
      if 0 <= i <= |r| - 12 {
        var k := i + (4 - i % 5);
        assert k % 5 == 4 && i <= k < i + 12;
        assert r[i..i + 12][k - i] == r[k] == ' ';
      }
    }
  }

  /** Reformatting a stored card number leaves it unchanged. */
  lemma FormatCardIdempotent(v: string)
    requires DigitsAndSpaces(v)
    ensures FormatCard(FormatCard(v)) == FormatCard(v)
  {
    var p := Take(StripSpaces(v), 16);
    var r := FormatCard(v);
    FormatCardIsGrouping(v);
    StripSpacesLeavesDigits(v);
    assert AllDigits(p);
    StripChunked(p);
    ChunkedDigitsAndSpaces(p);
    assert DigitsAndSpaces(r);
    FormatCardIsGrouping(r);
  }

  // ---------------------------------------------------------------------
  // Receipt masking
  // ---------------------------------------------------------------------

  /** `s.replace(/\d{12}/, "************")`: only the first run of twelve digits is hidden. */
  function MaskTwelve(s: string): string
    decreases |s|
  {
    if |s| >= 12 && AllDigits(s[..12]) then "************" + s[12..]
    else if s == [] then []
    else [s[0]] + MaskTwelve(s[1..])
  }

  /** Twelve consecutive digits start at offset `i` of `s`. */
  predicate DigitRunAt(s: string, i: int) {
    0 <= i <= |s| - 12 && AllDigits(s[i..i + 12])
  }

  /** Without twelve consecutive digits there is nothing to mask. */
  lemma {:induction false} MaskWithoutRun(s: string)
    requires forall i :: !DigitRunAt(s, i)
    ensures MaskTwelve(s) == s
    decreases |s|
  {
    if s != [] {
      forall i
        ensures !DigitRunAt(s[1..], i)
      {
        if 0 <= i <= |s| - 13 {
          assert s[1..][i..i + 12] == s[i + 1..i + 13];
          assert !DigitRunAt(s, i + 1);
        }
      }
      MaskWithoutRun(s[1..]);
      if |s| >= 12 {
        assert !DigitRunAt(s, 0);
        assert s[0..12] == s[..12];
      }
      assert !(|s| >= 12 && AllDigits(s[..12]));
      assert MaskTwelve(s) == [s[0]] + MaskTwelve(s[1..]);
      assert s == [s[0]] + s[1..];
    }
  }

  /**
   * The masked reference on the success screen shows a stored card number
   * unchanged: its separators break every run of digits after four.
   */
  lemma MaskLeavesCardUnchanged(v: string)
    requires DigitsAndSpaces(v)
    ensures MaskTwelve(FormatCard(v)) == FormatCard(v)
  {
    var p := Take(StripSpaces(v), 16);
    FormatCardIsGrouping(v);
    StripSpacesLeavesDigits(v);
    assert AllDigits(p);
    ChunkedHasNoDigitRun(p);
    MaskWithoutRun(FormatCard(v));
  }

  /** `s.slice(-4)` */
  function LastFour(s: string): (r: string)
    ensures |r| == if |s| < 4 then |s| else 4
    ensures s == s[..|s| - |r|] + r
  {
    if |s| < 4 then s else s[|s| - 4..]
  }

  /** The digits shown on the receipt of a full card number are its last four digits. */
  lemma LastFourOfStoredCard(v: string)
    requires DigitsAndSpaces(v) && |StripSpaces(v)| >= 16
    ensures LastFour(FormatCard(v)) == StripSpaces(v)[12..16]
  {
    FormatCardIsGrouping(v);
    StripSpacesLeavesDigits(v);
    LastFourOfPrefix(StripSpaces(v));
  }

  lemma LastFourOfPrefix(d: string)
    requires |d| >= 16
    ensures LastFour(Chunked(Take(d, 16))) == d[12..16]
  {
    assert Take(d, 16) == d[..16];
    LastFourOfGrouping(d[..16]);
    assert d[..16][12..16] == d[12..16];
  }

  lemma LastFourOfGrouping(p: string)
    requires |p| == 16
    ensures LastFour(Chunked(p)) == p[12..16]
  {
    assert p == p[..12] + p[12..];
    ChunkedSplit(p[..12], p[12..]);
    var r := Chunked(p[..12]) + " " + p[12..];
    assert Chunked(p) == r;
    assert |r| == 19 && r[15..] == p[12..16];
  }


  // ---------------------------------------------------------------------
  // Expiry date and CVV
  // ---------------------------------------------------------------------

  /**
   * `d.replace(/(\d{2})(\d)/, "$1/$2")` on a string of digits: the first
   * three digits match, so a '/' goes after the second digit when a third
   * one exists.
   */
  function InsertSlash(d: string): (r: string)
    requires AllDigits(d)
  {
    if |d| >= 3 then d[..2] + "/" + d[2..] else d
  }

  /** `value.replace(/\D/g, "").replace(/(\d{2})(\d)/, "$1/$2").substring(0, 5)` */
  function FormatExpiry(v: string): string {
    Take(InsertSlash(KeepDigits(v)), 5)
  }

  /** `/^\d{2}\/\d{2}$/`: the MM/AA shape the validator asks for. */
  predicate ExpiryShape(s: string) {
    |s| == 5 && IsDigit(s[0]) && IsDigit(s[1]) && s[2] == '/' && IsDigit(s[3]) && IsDigit(s[4])
  }

  /**
   * The stored expiry keeps the first four typed digits and nothing else, has
   * at most five characters, holds a '/' exactly when three digits were typed,
   * and has the MM/AA shape once four were.
   */
  lemma FormatExpiryFacts(v: string)
    ensures var r, d := FormatExpiry(v), KeepDigits(v);
      && |r| <= 5
      && KeepDigits(r) == Take(d, 4)
      && ('/' in r <==> |d| >= 3)
      && (|d| >= 4 ==> ExpiryShape(r) && r == d[..2] + "/" + d[2..4])
  {
    var d := KeepDigits(v);
    if |d| >= 3 {
      var m := if |d| < 4 then |d| else 4;
      ExpiryOfLong(v);
      KeepDigitsOfSlashed(d[..2], d[2..m]);
      assert d[..2] + d[2..m] == d[..m];
    } else {
      ExpiryOfShort(v);
      KeepDigitsOfDigits(d);
      NoSlashInDigits(d);
    }
  }

  /** With three digits or more, the stored expiry is the first two, a '/', and up to two more. */
  lemma ExpiryOfLong(v: string)
    requires |KeepDigits(v)| >= 3
    ensures var d := KeepDigits(v); var m := if |d| < 4 then |d| else 4;
      FormatExpiry(v) == d[..2] + "/" + d[2..m]
  {
    var d := KeepDigits(v);
    var m := if |d| < 4 then |d| else 4;
    var s := InsertSlash(d);
    assert s == d[..2] + "/" + d[2..];
    assert Take(s, 5) == s[..m + 1];
    assert s[..m + 1] == d[..2] + "/" + d[2..m];
  }

  /** With fewer than three digits, the stored expiry is the digits. */
  lemma ExpiryOfShort(v: string)
    requires |KeepDigits(v)| < 3
    ensures FormatExpiry(v) == KeepDigits(v)
  {
  }

  /** Two runs of digits around a '/' keep, without the '/', their digits. */
  lemma KeepDigitsOfSlashed(a: string, b: string)
    requires AllDigits(a) && AllDigits(b) && |a| == 2
    ensures KeepDigits(a + "/" + b) == a + b
    ensures var r := a + "/" + b; r[2] == '/' && '/' in r
  {
    KeepDigitsConcat(a + "/", b);
    KeepDigitsConcat(a, "/");
    KeepDigitsOfDigits(a);
    KeepDigitsOfDigits(b);
    assert KeepDigits("/") == [];
  }

  /** A run of digits holds no '/'. */
  lemma NoSlashInDigits(d: string)
    requires AllDigits(d)
    ensures '/' !in d
  {
    forall k | 0 <= k < |d|
      ensures d[k] != '/'
    {
      assert IsDigit(d[k]);
    }
  }

  /** Reformatting a stored expiry leaves it unchanged. */
  lemma FormatExpiryIdempotent(v: string)
    ensures FormatExpiry(FormatExpiry(v)) == FormatExpiry(v)
  {
    var d := KeepDigits(v);
    var r := FormatExpiry(v);
    FormatExpiryFacts(v);
    var e := Take(d, 4);
    assert KeepDigits(r) == e;
    if |d| >= 3 {
      var m := if |d| < 4 then |d| else 4;
      assert e[..2] == d[..2] && e[2..] == d[2..m];
    }
  }

  /** `value.replace(/\D/g, "").substring(0, 3)` */
  function FormatCvv(v: string): (r: string)
    ensures AllDigits(r)
    ensures |r| == if |KeepDigits(v)| < 3 then |KeepDigits(v)| else 3
    ensures r == KeepDigits(v)[..|r|]
  {
    Take(KeepDigits(v), 3)
  }

  /** Reformatting a stored CVV leaves it unchanged. */
  lemma FormatCvvIdempotent(v: string)
    ensures FormatCvv(FormatCvv(v)) == FormatCvv(v)
  {
    KeepDigitsOfDigits(FormatCvv(v));
  }

  // ---------------------------------------------------------------------
  // Expiry against the clock
  // ---------------------------------------------------------------------

  /**
   * The current instant as the browser's local calendar sees it: the month
   * index year * 12 + month (month counted from 0) and the milliseconds
   * elapsed since that month began.
   */
  datatype Clock = Clock(monthIndex: int, msIntoMonth: nat)

  /**
   * `new Date(year, month)` normalises an out-of-range month by carrying
   * whole years: the calendar month is the same month index.
   */
  function DateYearMonth(year: int, month: int): (ym: (int, int))
    ensures 0 <= ym.1 < 12
    ensures ym.0 * 12 + ym.1 == year * 12 + month
  {
    (year + month / 12, month % 12)
  }

  /**
   * The card is expired when the first instant of its month,
   * `new Date(2000 + AA, MM - 1)`, lies before now.
   */
  predicate Expired(fecha: string, now: Clock)
    requires ExpiryShape(fecha)
  {
    var mes := TwoDigitValue(fecha[0], fecha[1]);
    var ano := TwoDigitValue(fecha[3], fecha[4]);
    var ym := DateYearMonth(2000 + ano, mes - 1);
    var cardIndex := ym.0 * 12 + ym.1;
    cardIndex < now.monthIndex || (cardIndex == now.monthIndex && now.msIntoMonth > 0)
  }

  /**
   * Expiry is a comparison of month indices (2000 + AA) * 12 + (MM - 1): once
   * the current month has begun, a card of this month or earlier is expired,
   * and a card of a later month never is.
   */
  lemma ExpiredByMonthIndex(fecha: string, now: Clock)
    requires ExpiryShape(fecha) && now.msIntoMonth > 0
    ensures var idx := (2000 + TwoDigitValue(fecha[3], fecha[4])) * 12 + TwoDigitValue(fecha[0], fecha[1]) - 1;
      Expired(fecha, now) <==> idx <= now.monthIndex
  {
  }

  /** Month "00" is December of the year before, month "13" January of the year after. */
  lemma MonthRollover(ano: int)
    ensures DateYearMonth(2000 + ano, 0 - 1) == (2000 + ano - 1, 11)
    ensures DateYearMonth(2000 + ano, 13 - 1) == (2000 + ano + 1, 0)
  {
  }

  // ---------------------------------------------------------------------
  // Validation
  // ---------------------------------------------------------------------

  const MsgCardLength := "El número de tarjeta debe tener 16 dígitos"
  const MsgHolder := "Ingresa el nombre del titular"
  const MsgExpiryFormat := "Formato de fecha inválido (MM/AA)"
  const MsgExpired := "La tarjeta está vencida"
  const MsgCvv := "El CVV debe tener 3 dígitos"

  /**
   * `validarDatos`: the checks in their order; the first failure's message,
   * or None when the form may be submitted.
   */
  function ValidationError(numero: string, titular: string, fecha: string, cvv: string, now: Clock): (r: Option<string>)
    ensures r == None <==>
      |StripSpaces(numero)| == 16 && !IsBlank(titular) && ExpiryShape(fecha) && !Expired(fecha, now) && |cvv| == 3
    ensures |StripSpaces(numero)| != 16 <==> r == Some(MsgCardLength)
    ensures r == Some(MsgHolder) <==> |StripSpaces(numero)| == 16 && IsBlank(titular)
    ensures r == Some(MsgExpiryFormat) <==> |StripSpaces(numero)| == 16 && !IsBlank(titular) && !ExpiryShape(fecha)
    ensures r == Some(MsgExpired) <==>
      |StripSpaces(numero)| == 16 && !IsBlank(titular) && ExpiryShape(fecha) && Expired(fecha, now)
    ensures r == Some(MsgCvv) <==>
      |StripSpaces(numero)| == 16 && !IsBlank(titular) && ExpiryShape(fecha) && !Expired(fecha, now) && |cvv| != 3
  {
    if |StripSpaces(numero)| != 16 then Some(MsgCardLength)
    else if IsBlank(titular) then Some(MsgHolder)
    else if !ExpiryShape(fecha) then Some(MsgExpiryFormat)
    else if Expired(fecha, now) then Some(MsgExpired)
    else if |cvv| != 3 then Some(MsgCvv)
    else None
  }

  /**
   * The formatters and the validator agree: sixteen typed digits, a holder,
   * four typed expiry digits of a later month and three typed CVV digits
   * give a form that passes.
   */
  lemma FormattedInputPasses(card: string, titular: string, expiry: string, cvv: string, now: Clock)
    requires DigitsAndSpaces(card) && |StripSpaces(card)| >= 16
    requires !IsBlank(titular)
    requires |KeepDigits(expiry)| >= 4
    requires var d := KeepDigits(expiry);
      (2000 + TwoDigitValue(d[2], d[3])) * 12 + TwoDigitValue(d[0], d[1]) - 1 > now.monthIndex
    requires |KeepDigits(cvv)| >= 3
    ensures ValidationError(FormatCard(card), titular, FormatExpiry(expiry), FormatCvv(cvv), now) == None
  {
    StoredCardHasSixteenDigits(card);
    StoredExpiryPasses(expiry, now);
    assert |FormatCvv(cvv)| == 3;
  }

  /** Sixteen typed digits or more leave exactly sixteen in the stored card number. */
  lemma StoredCardHasSixteenDigits(v: string)
    requires DigitsAndSpaces(v) && |StripSpaces(v)| >= 16
    ensures |StripSpaces(FormatCard(v))| == 16
  {
    var p := Take(StripSpaces(v), 16);
    FormatCardIsGrouping(v);
    StripSpacesLeavesDigits(v);
    assert AllDigits(p);
    StripChunked(p);
  }

  /** Four typed digits of a later month give a stored expiry of the right shape, not expired. */
  lemma StoredExpiryPasses(v: string, now: Clock)
    requires |KeepDigits(v)| >= 4
    requires var d := KeepDigits(v);
      (2000 + TwoDigitValue(d[2], d[3])) * 12 + TwoDigitValue(d[0], d[1]) - 1 > now.monthIndex
    ensures ExpiryShape(FormatExpiry(v)) && !Expired(FormatExpiry(v), now)
  {
    var d := KeepDigits(v);
    var f := FormatExpiry(v);
    FormatExpiryFacts(v);
    assert f == d[..2] + "/" + d[2..4];
    assert f[0] == d[0] && f[1] == d[1] && f[3] == d[2] && f[4] == d[3];
  }

  // ---------------------------------------------------------------------
  // The screen
  // ---------------------------------------------------------------------

  /** What an input's `onChange` stores for the field `name`. */
  function FormatField(name: string, value: string): (r: string)
    ensures name == "fechaVencimiento" ==> |r| <= 5
    ensures name == "cvv" ==> |r| <= 3
    ensures name !in {"numeroTarjeta", "fechaVencimiento", "cvv"} ==> r == value
  {
    if name == "numeroTarjeta" then
      FormatCard(value)
    else if name == "fechaVencimiento" then
      FormatExpiryFacts(value); FormatExpiry(value)
    else if name == "cvv" then FormatCvv(value)
    else value
  }

  /** The record handed to `onPagoExitoso`. */
  datatype Pago = Pago(pagoId: string, monto: real, fecha: string, referencia: string, ultimosDigitos: string)

  const EmptyForm: map<string, string> :=
    map["numeroTarjeta" := "", "nombreTitular" := "", "fechaVencimiento" := "", "cvv" := ""]

  const MsgPaymentFailed := "Error al procesar el pago. Intenta nuevamente."

  class PaymentScreen {
    var datosPago: map<string, string>
    /** 1: form, 2: processing, 3: done */
    var paso: int
    var error: string
    const monto: real

    predicate Valid()
      reads this
    {
      "numeroTarjeta" in datosPago && "nombreTitular" in datosPago
      && "fechaVencimiento" in datosPago && "cvv" in datosPago
      && 1 <= paso <= 3
    }

    constructor (monto: real)
      ensures Valid()
      ensures datosPago == EmptyForm && paso == 1 && error == "" && this.monto == monto
    {
      datosPago := EmptyForm;
      paso := 1;
      error := "";
      this.monto := monto;
    }

    /** `handleInputChange`: only the named field changes, to its formatted value. */
    method HandleInputChange(name: string, value: string)
      requires Valid()
      modifies this`datosPago
      ensures Valid()
      ensures datosPago == old(datosPago)[name := FormatField(name, value)]
    {
      datosPago := datosPago[name := FormatField(name, value)];
    }

    function CurrentError(now: Clock): Option<string>
      requires Valid()
      reads this
    {
      ValidationError(datosPago["numeroTarjeta"], datosPago["nombreTitular"],
                      datosPago["fechaVencimiento"], datosPago["cvv"], now)
    }

    /** `validarDatos`: sets the first failing message, or clears it and answers true. */
    method ValidarDatos(now: Clock) returns (ok: bool)
      requires Valid()
      modifies this`error
      ensures Valid()
      ensures ok <==> CurrentError(now) == None
      ensures error == CurrentError(now).GetOr("")
    {
      var e := CurrentError(now);
      if e.Some? {
        error := e.value;
        ok := false;
      } else {
        error := "";
        ok := true;
      }
    }

    /**
     * `procesarPago` up to the simulated wait: an invalid form stays on step
     * 1 with its message; a valid one moves to step 2 with no error.
     */
    method ProcesarPago(now: Clock) returns (started: bool)
      requires Valid() && paso == 1
      modifies this`error, this`paso
      ensures Valid()
      ensures started <==> old(CurrentError(now)) == None
      ensures !started ==> paso == 1 && error == old(CurrentError(now)).GetOr("")
      ensures started ==> paso == 2 && error == ""
    {
      var ok := ValidarDatos(now);
      if !ok {
        return false;
      }
      paso := 2;
      error := "";
      started := true;
    }

    /**
     * The end of processing. On success the screen shows step 3 and reports a
     * payment whose reference is its id and whose digits are the card's last
     * four characters; a failure returns to the form with a message. The id
     * and date, made from the clock and a random number, are parameters.
     * Nothing the handler's `try` runs can throw (a timer, `Math.random` and
     * a state update; the parent's callback runs later, outside it), so
     * `failed` is always false in the page as written: that branch models
     * its `catch`, which is never reached.
     */
    method TerminarPago(failed: bool, pagoId: string, fecha: string) returns (pago: Option<Pago>)
      requires Valid() && paso == 2
      modifies this`error, this`paso
      ensures Valid() && datosPago == old(datosPago)
      ensures failed ==> pago == None && paso == 1 && error == MsgPaymentFailed
      ensures !failed ==> paso == 3 && error == old(error)
      ensures !failed ==> pago == Some(Pago(pagoId, monto, fecha, pagoId, LastFour(datosPago["numeroTarjeta"])))
    {
      if failed {
        error := MsgPaymentFailed;
        paso := 1;
        pago := None;
      } else {
        paso := 3;
        pago := Some(Pago(pagoId, monto, fecha, pagoId, LastFour(datosPago["numeroTarjeta"])));
      }
    }
  }
}
