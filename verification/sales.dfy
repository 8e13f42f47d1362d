/**
 * The record builder: the column layout and business constants, the
 * `SalesRecord` class with its validating setter and derived getters, and
 * the rules by which one parsed row becomes a record or is skipped.
 */
module Sales {
  import opened Wrappers

  // Positions of the columns the analysis reads.
  const SaleIdColumn := 0
  const SaleDateColumn := 1
  const CountryColumn := 2
  const RegionColumn := 3
  const ManufacturerColumn := 8
  const ModelColumn := 9
  const VehicleYearColumn := 10
  const SalePriceColumn := 20
  /** A row needs a field at every position up to the sale price. */
  const MinimumFieldCount := 21

  // Business constants.
  const TargetYear := 2025
  const DateYearLength := 4
  const TargetCountry := "China"
  const TargetRegion := "Europe"
  const Audi := "Audi"
  const Bmw := "BMW"

  /** The range of the 32-bit `int` that `std::stoi` returns. */
  const IntMin := -0x8000_0000
  const IntMax := 0x7fff_ffff

  // ---------------------------------------------------------------------
  // Decimal integers

  predicate IsDigit(c: char) {
    '0' <= c <= '9'
  }

  predicate AllDigits(s: string) {
    forall i :: 0 <= i < |s| ==> IsDigit(s[i])
  }

  function DigitValue(c: char): (d: nat)
    requires IsDigit(c)
    ensures d < 10
  {
    (c as int) - ('0' as int)
  }

  function DigitChar(d: nat): (c: char)
    requires d < 10
    ensures IsDigit(c) && DigitValue(c) == d
  {
    (('0' as int) + d) as char
  }

  /** The value of a string of decimal digits, most significant first. */
  function DigitsValue(s: string): nat
    requires AllDigits(s)
  {
    if s == [] then 0 else 10 * DigitsValue(s[..|s| - 1]) + DigitValue(s[|s| - 1])
  }

  /** The decimal digits of n, without leading zeros. */
  function Digits(n: nat): string
    decreases n
  {
    if n < 10 then [DigitChar(n)] else Digits(n / 10) + [DigitChar(n % 10)]
  }

  /** The decimal text of n, with a '-' when it is negative. */
  function Format(n: int): string {
    if n < 0 then ['-'] + Digits(-n) else Digits(n)
  }

  /** `std::stoi` applied to a whole field: an optional sign and at least one
      digit, within the range of `int`; None where the conversion throws. */
  function ParseInt(s: string): (r: Option<int>)
    ensures s == [] ==> r == None
    ensures r.Some? ==> IntMin <= r.value <= IntMax
    ensures forall i :: 0 < i < |s| && !IsDigit(s[i]) ==> r == None
    ensures |s| > 0 && !IsDigit(s[0]) && s[0] != '-' && s[0] != '+' ==> r == None
    ensures s == "-" || s == "+" ==> r == None
  {
    if s == [] then None
    else
      var digits := if s[0] == '-' || s[0] == '+' then s[1..] else s;
      if digits == [] || !AllDigits(digits) then
        assert forall i :: 0 < i < |s| && !IsDigit(s[i]) ==> !AllDigits(digits) by {
          forall i | 0 < i < |s| && !IsDigit(s[i]) ensures !AllDigits(digits) {
            if s[0] == '-' || s[0] == '+' { assert digits[i - 1] == s[i]; }
            else { assert digits[i] == s[i]; }
          }
        }
        None
      else
        var magnitude: int := DigitsValue(digits);
        var v := if s[0] == '-' then -magnitude else magnitude;
        if IntMin <= v <= IntMax then Some(v) else None
  }

  /** What `ParseInt` accepts: an optional sign and at least one digit,
      leading zeros allowed, read as the signed decimal value when that lies
      in the range of `int`. With the refusals `ParseInt` ensures, this
      covers every string. */
  lemma ParseIntAccepts(sign: string, digits: string)
    requires sign == [] || sign == "+" || sign == "-"
    requires digits != [] && AllDigits(digits)
    ensures var v: int := if sign == "-" then -(DigitsValue(digits) as int) else DigitsValue(digits);
            ParseInt(sign + digits) == if IntMin <= v <= IntMax then Some(v) else None
  {
    var s := sign + digits;
    if sign == [] {
      assert s == digits && IsDigit(s[0]);
    } else {
      assert s[0] == sign[0] && s[1..] == digits;
    }
  }

  /** A plus sign and leading zeros are accepted. */
  lemma ParseIntExamples()
    ensures ParseInt("+5") == Some(5)
    ensures ParseInt("007") == Some(7)
    ensures ParseInt("-0") == Some(0)
  {
    ParseIntAccepts("+", "5");
    ParseIntAccepts("", "007");
    assert "007"[..2][..1] == "0";
    ParseIntAccepts("-", "0");
  }

  lemma {:induction false} DigitsRoundTrip(n: nat)
    ensures Digits(n) != [] && AllDigits(Digits(n))
    ensures DigitsValue(Digits(n)) == n
    decreases n
  {
    if n >= 10 {
      DigitsRoundTrip(n / 10);
      var s := Digits(n);
      assert s[..|s| - 1] == Digits(n / 10);
    }
  }

  /** `ParseInt` reads back every `int` written in decimal. */
  lemma ParseIntFormat(n: int)
    requires IntMin <= n <= IntMax
    ensures ParseInt(Format(n)) == Some(n)
  {
    var s := Format(n);
    if n < 0 {
      DigitsRoundTrip(-n);
      assert s[0] == '-' && s[1..] == Digits(-n);
    } else {
      DigitsRoundTrip(n);
      assert IsDigit(s[0]);
    }
  }

  /** A decimal text beyond the range of `int` is refused, as `std::stoi`
      throws `out_of_range` for it. */
  lemma ParseIntOutOfRange(n: int)
    requires n < IntMin || IntMax < n
    ensures ParseInt(Format(n)) == None
  {
    var s := Format(n);
    if n < 0 {
      DigitsRoundTrip(-n);
      assert s[0] == '-' && s[1..] == Digits(-n);
    } else {
      DigitsRoundTrip(n);
      assert IsDigit(s[0]);
    }
  }

  // ---------------------------------------------------------------------
  // Sale year

  /** The number of bytes of c in UTF-8, the encoding in which the program
      holds its text. */
  function Utf8Width(c: char): (w: nat)
    ensures 1 <= w <= 4
    ensures (c as int) < 0x80 <==> w == 1
  {
    if (c as int) < 0x80 then 1
    else if (c as int) < 0x800 then 2
    else if (c as int) < 0x1_0000 then 3
    else 4
  }

  /** The length in bytes of s in UTF-8: what `std::string::length` gives. */
  function ByteLength(s: string): nat {
    if s == [] then 0 else ByteLength(s[..|s| - 1]) + Utf8Width(s[|s| - 1])
  }

  /** A string has at least as many bytes as characters, and exactly as
      many when every character is ASCII. */
  lemma {:induction false} ByteLengthBounds(s: string)
    ensures ByteLength(s) >= |s|
    ensures (forall i :: 0 <= i < |s| ==> (s[i] as int) < 0x80) <==> ByteLength(s) == |s|
  {
    if s != [] {
      var p := s[..|s| - 1];
      ByteLengthBounds(p);
      assert forall i :: 0 <= i < |p| ==> p[i] == s[i];
    }
  }

  /** `getSaleYear` returns 0 for a date shorter than four bytes and reads
      the first four bytes with `std::stoi` otherwise. The model admits the
      dates whose first four characters are digits; on any other date of
      four bytes or more `std::stoi` throws, or reads a shorter prefix. */
  predicate DateReadable(date: string) {
    ByteLength(date) < DateYearLength || (|date| >= DateYearLength && AllDigits(date[..DateYearLength]))
  }

  /** `getSaleYear`: the year written in the first four bytes of the date,
      or 0 for a shorter date. */
  function SaleYear(date: string): (y: int)
    requires DateReadable(date)
    ensures ByteLength(date) < DateYearLength ==> y == 0
    ensures ByteLength(date) >= DateYearLength ==>
              y == 1000 * DigitValue(date[0]) + 100 * DigitValue(date[1])
                   + 10 * DigitValue(date[2]) + DigitValue(date[3])
    ensures 0 <= y <= 9999
  {
    if ByteLength(date) >= DateYearLength then
      var p := date[..DateYearLength];
      assert p[..1][..0] == [] && p[..2][..1] == p[..1] && p[..3][..2] == p[..2] && p[..3] == p[..3];
      assert DigitsValue(p[..1]) == DigitValue(date[0]);
      assert DigitsValue(p[..2]) == 10 * DigitValue(date[0]) + DigitValue(date[1]);
      assert DigitsValue(p[..3]) == 100 * DigitValue(date[0]) + 10 * DigitValue(date[1]) + DigitValue(date[2]);
      DigitsValue(p)
    else 0
  }

  /** A date starting with four digits is readable, and its sale year is
      the number they write; a date of four or more characters, one of them
      not ASCII, is at least four bytes long too. */
  lemma SaleYearOfDigits(date: string)
    requires |date| >= DateYearLength && AllDigits(date[..DateYearLength])
    ensures DateReadable(date)
    ensures SaleYear(date) == DigitsValue(date[..DateYearLength])
  {
    ByteLengthBounds(date);
  }

  /** Three short dates, one of them ASCII, two not: the second is four
      bytes long, so `getSaleYear` does not return 0 for it and the model
      does not admit it. */
  lemma ShortDateExamples()
    ensures DateReadable("25") && SaleYear("25") == 0
    ensures ByteLength("\U{e9}\U{e9}") == 4 && !DateReadable("\U{e9}\U{e9}")
    ensures ByteLength("\U{e9}") == 2 && DateReadable("\U{e9}") && SaleYear("\U{e9}") == 0
  {
    assert "\U{e9}\U{e9}"[..1] == "\U{e9}";
  }

  /** A sale dated in 2025 has sale year 2025. */
  lemma TargetYearDate(date: string)
    requires |date| >= 4 && date[..4] == "2025"
    ensures DateReadable(date) && SaleYear(date) == TargetYear
  {
    ByteLengthBounds(date);
    assert date[0] == '2' && date[1] == '0' && date[2] == '2' && date[3] == '5';
  }

  // ---------------------------------------------------------------------
  // Records

  /** `setSalePrice`: a negative price is stored as 0. */
  function ClampPrice(price: real): (p: real)
    ensures p >= 0.0
    ensures price >= 0.0 ==> p == price
    ensures price < 0.0 ==> p == 0.0
  {
    if price >= 0.0 then price else 0.0
  }

  /** The value of a `SalesRecord`. */
  datatype Record = Record(saleId: string, saleDate: string, country: string, region: string,
                           manufacturer: string, model: string, vehicleYear: int, salePrice: real)
  {
    /** `isEuropean`. */
    predicate IsEuropean() {
      region == TargetRegion
    }
  }

  /** The C++ `SalesRecord`: built empty, then filled field by field. The
      plain setters are field assignments; `setSalePrice` validates. */
  class SalesRecord {
    var saleId: string
    var saleDate: string
    var country: string
    var region: string
    var manufacturer: string
    var model: string
    var vehicleYear: int
    var salePriceUsd: real

    function View(): Record
      reads this
    {
      Record(saleId, saleDate, country, region, manufacturer, model, vehicleYear, salePriceUsd)
    }

    constructor ()
      ensures View() == Record("", "", "", "", "", "", 0, 0.0)
    {
      saleId, saleDate, country, region := "", "", "", "";
      manufacturer, model := "", "";
      vehicleYear, salePriceUsd := 0, 0.0;
    }

    method SetSalePrice(price: real)
      modifies this
      ensures salePriceUsd >= 0.0
      ensures price >= 0.0 ==> salePriceUsd == price
      ensures price < 0.0 ==> salePriceUsd == 0.0
      ensures View() == old(View()).(salePrice := salePriceUsd)
    {
      salePriceUsd := ClampPrice(price);
    }

    function GetSaleYear(): (y: int)
      reads this
      requires DateReadable(saleDate)
      ensures ByteLength(saleDate) < DateYearLength ==> y == 0
      ensures ByteLength(saleDate) >= DateYearLength ==> y == DigitsValue(saleDate[..DateYearLength])
      ensures 0 <= y <= 9999
    {
      SaleYear(saleDate)
    }

    predicate IsEuropean()
      reads this
      ensures IsEuropean() <==> region == TargetRegion
    {
      View().IsEuropean()
    }
  }

  // ---------------------------------------------------------------------
  // Building a record from a row

  /** The vehicle year of a row: 0 for an empty field, else `std::stoi`. */
  function VehicleYearOf(text: string): (r: Option<int>)
    ensures text == [] ==> r == Some(0)
    ensures r.Some? ==> IntMin <= r.value <= IntMax
    ensures text != [] ==> r == ParseInt(text)
  {
    if text == [] then Some(0) else ParseInt(text)
  }

  /** The sale price of a row, before clamping: 0.0 for an empty field, else
      `std::stod`, which is the parameter `parseDouble`. */
  function SalePriceOf(text: string, parseDouble: string -> Option<real>): Option<real> {
    if text == [] then Some(0.0) else parseDouble(text)
  }

  /** The record a parsed row yields, or None when the row is skipped. */
  function BuildRecord(fields: seq<string>, parseDouble: string -> Option<real>): (r: Option<Record>)
    ensures r.Some? <==> |fields| >= MinimumFieldCount
                         && VehicleYearOf(fields[VehicleYearColumn]).Some?
                         && SalePriceOf(fields[SalePriceColumn], parseDouble).Some?
    ensures r.Some? ==>
              && r.value.saleId == fields[SaleIdColumn]
              && r.value.saleDate == fields[SaleDateColumn]
              && r.value.country == fields[CountryColumn]
              && r.value.region == fields[RegionColumn]
              && r.value.manufacturer == fields[ManufacturerColumn]
              && r.value.model == fields[ModelColumn]
    ensures r.Some? ==> r.value.salePrice >= 0.0
    ensures r.Some? && fields[VehicleYearColumn] == [] ==> r.value.vehicleYear == 0
    ensures r.Some? && fields[VehicleYearColumn] != [] ==>
              r.value.vehicleYear == ParseInt(fields[VehicleYearColumn]).value
    ensures r.Some? && fields[SalePriceColumn] == [] ==> r.value.salePrice == 0.0
    ensures r.Some? && fields[SalePriceColumn] != [] ==>
              var p := parseDouble(fields[SalePriceColumn]).value;
              r.value.salePrice == if p < 0.0 then 0.0 else p
  {
    if |fields| < MinimumFieldCount then None
    else
      var year := VehicleYearOf(fields[VehicleYearColumn]);
      var price := SalePriceOf(fields[SalePriceColumn], parseDouble);
      if year.None? || price.None? then None
      else Some(Record(fields[SaleIdColumn], fields[SaleDateColumn], fields[CountryColumn],
                       fields[RegionColumn], fields[ManufacturerColumn], fields[ModelColumn],
                       year.value, ClampPrice(price.value)))
  }

  /** Lines 176-189 of the loop: fill a fresh `SalesRecord` from a row of
      enough fields, or give null where a conversion throws and the row is
      skipped. */
  method NewRecord(fields: seq<string>, parseDouble: string -> Option<real>) returns (record: SalesRecord?)
    requires |fields| >= MinimumFieldCount
    ensures record == null <==> BuildRecord(fields, parseDouble).None?
    ensures record != null ==> fresh(record) && record.View() == BuildRecord(fields, parseDouble).value
  {
    record := new SalesRecord();
    record.saleId := fields[SaleIdColumn];
    record.saleDate := fields[SaleDateColumn];
    record.country := fields[CountryColumn];
    record.region := fields[RegionColumn];
    record.manufacturer := fields[ManufacturerColumn];
    record.model := fields[ModelColumn];

    var yearText := fields[VehicleYearColumn];
    var year := 0;
    if yearText != [] {
      var parsed := ParseInt(yearText);
      if parsed.None? {
        return null;
      }
      year := parsed.value;
    }
    record.vehicleYear := year;
    var priceText := fields[SalePriceColumn];
    var price := 0.0;
    if priceText != [] {
      var parsed := parseDouble(priceText);
      if parsed.None? {
        return null;
      }
      price := parsed.value;
    }
    record.SetSalePrice(price);
  }
}
