/**
 * The aggregation engine: the body of the read loop in `main`, which skips
 * empty, short and malformed lines and feeds every accepted record to three
 * independent tasks: (1) count Audi sales in China in the target year,
 * (2) sum BMW revenue in the target year, (3) count Audi and BMW sales per
 * country in the European region.
 */
module Aggregation {
  import opened Wrappers
  import opened Csv
  import opened Sales

  /** The accumulators of the scan. */
  datatype Totals = Totals(audiChinaCount: int, bmwRevenue: real,
                           audiDistribution: map<string, int>,
                           bmwDistribution: map<string, int>)

  const Initial := Totals(0, 0.0, map[], map[])

  /** The record a data line yields, or None when the loop skips the line. */
  function ReadLine(line: string, parseDouble: string -> Option<real>): (r: Option<Record>)
    ensures r.None? <==> || line == []
                         || |Fields(line)| < MinimumFieldCount
                         || VehicleYearOf(Fields(line)[VehicleYearColumn]).None?
                         || SalePriceOf(Fields(line)[SalePriceColumn], parseDouble).None?
  {
    if line == [] then None else BuildRecord(Fields(line), parseDouble)
  }

  /** The loop reads the sale year of every accepted record; `std::stoi`
      throws, uncaught, unless the date can be read. */
  predicate Readable(line: string, parseDouble: string -> Option<real>) {
    ReadLine(line, parseDouble).Some? ==> DateReadable(ReadLine(line, parseDouble).value.saleDate)
  }

  // ---------------------------------------------------------------------
  // The three tasks

  /** Task 1: an Audi sold in China in the target year. */
  predicate IsAudiChinaSale(r: Record) {
    && r.manufacturer == Audi && r.country == TargetCountry
    && DateReadable(r.saleDate) && SaleYear(r.saleDate) == TargetYear
  }

  /** Task 2: a BMW sold in the target year. */
  predicate IsBmwTargetSale(r: Record) {
    r.manufacturer == Bmw && DateReadable(r.saleDate) && SaleYear(r.saleDate) == TargetYear
  }

  /** Task 3: a European sale of the manufacturer `maker`. */
  predicate InDistribution(r: Record, maker: string) {
    r.IsEuropean() && r.manufacturer == maker
  }

  /** `m[k]++` on a `std::map`: a missing key starts at 0. */
  function Bump(m: map<string, int>, k: string): (r: map<string, int>)
    ensures r.Keys == m.Keys + {k}
    ensures k in m ==> r[k] == m[k] + 1
    ensures k !in m ==> r[k] == 1
    ensures forall j :: j in m && j != k ==> r[j] == m[j]
  {
    m[k := (if k in m then m[k] else 0) + 1]
  }

  /** The accumulators after one accepted record. */
  function Apply(t: Totals, r: Record): Totals {
    var audiChina := if IsAudiChinaSale(r) then t.audiChinaCount + 1 else t.audiChinaCount;
    var revenue := if IsBmwTargetSale(r) then t.bmwRevenue + r.salePrice else t.bmwRevenue;
    if r.IsEuropean() && r.manufacturer == Audi then
      Totals(audiChina, revenue, Bump(t.audiDistribution, r.country), t.bmwDistribution)
    else if r.IsEuropean() && r.manufacturer == Bmw then
      Totals(audiChina, revenue, t.audiDistribution, Bump(t.bmwDistribution, r.country))
    else
      Totals(audiChina, revenue, t.audiDistribution, t.bmwDistribution)
  }

  /** The accumulators after one data line. */
  function Step(t: Totals, line: string, parseDouble: string -> Option<real>): Totals {
    match ReadLine(line, parseDouble)
    case None => t
    case Some(r) => Apply(t, r)
  }

  /** The accumulators after a sequence of data lines. */
  function Run(lines: seq<string>, parseDouble: string -> Option<real>): Totals {
    if lines == [] then Initial
    else Step(Run(lines[..|lines| - 1], parseDouble), lines[|lines| - 1], parseDouble)
  }

  /** The distribution map of `maker`. */
  function Distribution(t: Totals, maker: string): map<string, int> {
    if maker == Audi then t.audiDistribution else t.bmwDistribution
  }

  // ---------------------------------------------------------------------
  // What one line does

  /** An empty line, a line of fewer than 21 fields, and a line whose
      non-empty vehicle year or price does not convert leave every
      accumulator as it was. */
  lemma RejectedLineChangesNothing(t: Totals, line: string, parseDouble: string -> Option<real>)
    requires || line == []
             || |Fields(line)| < MinimumFieldCount
             || (Fields(line)[VehicleYearColumn] != [] && ParseInt(Fields(line)[VehicleYearColumn]).None?)
             || (Fields(line)[SalePriceColumn] != [] && parseDouble(Fields(line)[SalePriceColumn]).None?)
    ensures Step(t, line, parseDouble) == t
  {
  }

  /** An accepted record moves each accumulator independently: the Audi
      count by exactly one, the BMW revenue by exactly its price, and the
      distribution of its manufacturer at its country only. */
  lemma AcceptedRecordEffects(t: Totals, r: Record, maker: string)
    requires maker == Audi || maker == Bmw
    ensures Apply(t, r).audiChinaCount == t.audiChinaCount + (if IsAudiChinaSale(r) then 1 else 0)
    ensures Apply(t, r).bmwRevenue == t.bmwRevenue + (if IsBmwTargetSale(r) then r.salePrice else 0.0)
    ensures InDistribution(r, maker) ==> Distribution(Apply(t, r), maker) == Bump(Distribution(t, maker), r.country)
    ensures !InDistribution(r, maker) ==> Distribution(Apply(t, r), maker) == Distribution(t, maker)
  {
  }

  // ---------------------------------------------------------------------
  // What a whole scan computes

  /** The records of the accepted lines, in order. */
  function Accepted(lines: seq<string>, parseDouble: string -> Option<real>): seq<Record> {
    if lines == [] then []
    else
      var earlier := Accepted(lines[..|lines| - 1], parseDouble);
      match ReadLine(lines[|lines| - 1], parseDouble)
      case None => earlier
      case Some(r) => earlier + [r]
  }

  /** Task 1 counted over a list of records. */
  function AudiChinaSales(rs: seq<Record>): nat {
    if rs == [] then 0
    else AudiChinaSales(rs[..|rs| - 1]) + (if IsAudiChinaSale(rs[|rs| - 1]) then 1 else 0)
  }

  /** Task 2 summed over a list of records. */
  function BmwTargetRevenue(rs: seq<Record>): real {
    if rs == [] then 0.0
    else BmwTargetRevenue(rs[..|rs| - 1]) + (if IsBmwTargetSale(rs[|rs| - 1]) then rs[|rs| - 1].salePrice else 0.0)
  }

  /** Task 3: the European sales of `maker` in `country` among the records. */
  function CountryCount(rs: seq<Record>, maker: string, country: string): nat {
    if rs == [] then 0
    else
      var r := rs[|rs| - 1];
      CountryCount(rs[..|rs| - 1], maker, country) + (if InDistribution(r, maker) && r.country == country then 1 else 0)
  }

  /** Task 3: the European sales of `maker` among the records. */
  function MakerCount(rs: seq<Record>, maker: string): nat {
    if rs == [] then 0
    else MakerCount(rs[..|rs| - 1], maker) + (if InDistribution(rs[|rs| - 1], maker) then 1 else 0)
  }

  lemma SnocPrefix<T>(rs: seq<T>, r: T)
    ensures (rs + [r])[..|rs|] == rs
  {
  }

  /** How one more line extends a scan: a skipped line changes neither the
      accumulators nor the accepted records; an accepted one applies its
      record and appends it. */
  lemma LastLine(lines: seq<string>, parseDouble: string -> Option<real>)
    requires lines != []
    ensures var p := lines[..|lines| - 1];
            var r := ReadLine(lines[|lines| - 1], parseDouble);
            && (r.None? ==> Run(lines, parseDouble) == Run(p, parseDouble)
                            && Accepted(lines, parseDouble) == Accepted(p, parseDouble))
            && (r.Some? ==> Run(lines, parseDouble) == Apply(Run(p, parseDouble), r.value)
                            && Accepted(lines, parseDouble) == Accepted(p, parseDouble) + [r.value]
                            && (Accepted(p, parseDouble) + [r.value])[..|Accepted(p, parseDouble)|] == Accepted(p, parseDouble)
                            && r.value.salePrice >= 0.0)
  {
    var p := lines[..|lines| - 1];
    var r := ReadLine(lines[|lines| - 1], parseDouble);
    if r.Some? {
      SnocPrefix(Accepted(p, parseDouble), r.value);
    }
  }

  /** Every accepted record has a price of at least 0. */
  lemma {:induction false} AcceptedPricesNonNegative(lines: seq<string>, parseDouble: string -> Option<real>)
    ensures forall i :: 0 <= i < |Accepted(lines, parseDouble)| ==> Accepted(lines, parseDouble)[i].salePrice >= 0.0
  {
    if lines != [] {
      AcceptedPricesNonNegative(lines[..|lines| - 1], parseDouble);
      LastLine(lines, parseDouble);
    }
  }

  /** The accumulators after the records rs, from their initial values. */
  function ApplyAll(rs: seq<Record>): Totals {
    if rs == [] then Initial else Apply(ApplyAll(rs[..|rs| - 1]), rs[|rs| - 1])
  }

  /** A scan applies the records of the accepted lines, in order, and
      nothing else: skipped lines do not contribute. */
  lemma {:induction false} RunIsFold(lines: seq<string>, parseDouble: string -> Option<real>)
    ensures Run(lines, parseDouble) == ApplyAll(Accepted(lines, parseDouble))
  {
    if lines != [] {
      RunIsFold(lines[..|lines| - 1], parseDouble);
      LastLine(lines, parseDouble);
    }
  }

  /** Task 1 over records: the count is the number of Audi/China/2025 sales. */
  lemma {:induction false} FoldCountsAudiChina(rs: seq<Record>)
    ensures ApplyAll(rs).audiChinaCount == AudiChinaSales(rs)
  {
    if rs != [] {
      FoldCountsAudiChina(rs[..|rs| - 1]);
    }
  }

  /** Task 1 result: the number of accepted Audi sales in China in 2025. */
  lemma RunCountsAudiChina(lines: seq<string>, parseDouble: string -> Option<real>)
    ensures Run(lines, parseDouble).audiChinaCount == AudiChinaSales(Accepted(lines, parseDouble))
  {
    RunIsFold(lines, parseDouble);
    FoldCountsAudiChina(Accepted(lines, parseDouble));
  }

  /** Task 2 over records: the revenue is the sum of the BMW/2025 prices,
      and is never negative when no price is. */
  lemma {:induction false} FoldSumsBmwRevenue(rs: seq<Record>)
    requires forall i :: 0 <= i < |rs| ==> rs[i].salePrice >= 0.0
    ensures ApplyAll(rs).bmwRevenue == BmwTargetRevenue(rs)
    ensures ApplyAll(rs).bmwRevenue >= 0.0
  {
    if rs != [] {
      FoldSumsBmwRevenue(rs[..|rs| - 1]);
      assert rs[|rs| - 1].salePrice >= 0.0;
    }
  }

  /** Task 2 result: the sum of the prices of accepted BMW sales in 2025,
      never negative. */
  lemma RunSumsBmwRevenue(lines: seq<string>, parseDouble: string -> Option<real>)
    ensures Run(lines, parseDouble).bmwRevenue == BmwTargetRevenue(Accepted(lines, parseDouble))
    ensures Run(lines, parseDouble).bmwRevenue >= 0.0
  {
    RunIsFold(lines, parseDouble);
    AcceptedPricesNonNegative(lines, parseDouble);
    FoldSumsBmwRevenue(Accepted(lines, parseDouble));
  }

  /** Task 3 over records: a country is a key of the distribution of
      `maker` exactly when it has sales among rs, and its value counts them. */
  lemma {:induction false} FoldCountsCountries(rs: seq<Record>, maker: string)
    requires maker == Audi || maker == Bmw
    ensures forall k :: k in Distribution(ApplyAll(rs), maker) <==> CountryCount(rs, maker, k) > 0
    ensures forall k :: k in Distribution(ApplyAll(rs), maker) ==>
                        Distribution(ApplyAll(rs), maker)[k] == CountryCount(rs, maker, k)
  {
    if rs != [] {
      var p := rs[..|rs| - 1];
      var r := rs[|rs| - 1];
      FoldCountsCountries(p, maker);
      AcceptedRecordEffects(ApplyAll(p), r, maker);
    }
  }

  /** Task 3 result: a country is in the distribution of `maker` exactly
      when some accepted European sale of `maker` is from it, and its entry
      is the number of those sales, so at least 1. */
  lemma RunCountsCountries(lines: seq<string>, parseDouble: string -> Option<real>, maker: string)
    requires maker == Audi || maker == Bmw
    ensures forall k :: k in Distribution(Run(lines, parseDouble), maker)
                        <==> CountryCount(Accepted(lines, parseDouble), maker, k) > 0
    ensures forall k :: k in Distribution(Run(lines, parseDouble), maker) ==>
                        Distribution(Run(lines, parseDouble), maker)[k] == CountryCount(Accepted(lines, parseDouble), maker, k)
                        && Distribution(Run(lines, parseDouble), maker)[k] >= 1
  {
    RunIsFold(lines, parseDouble);
    FoldCountsCountries(Accepted(lines, parseDouble), maker);
  }

  /** The sum of the values of a map. */
  ghost function SumValues(m: map<string, int>): int
    decreases |m|
  {
    if m == map[] then 0
    else
      var k :| k in m;
      m[k] + SumValues(m - {k})
  }

  lemma {:induction false} SumValuesRemove(m: map<string, int>, k: string)
    requires k in m
    ensures SumValues(m) == m[k] + SumValues(m - {k})
    decreases |m|
  {
    var j :| j in m && SumValues(m) == m[j] + SumValues(m - {j});
    if j != k {
      SumValuesRemove(m - {j}, k);
      SumValuesRemove(m - {k}, j);
      assert m - {j} - {k} == m - {k} - {j};
    }
  }

  /** One more sale adds one to the sum of a distribution. */
  lemma SumValuesBump(m: map<string, int>, k: string)
    ensures SumValues(Bump(m, k)) == SumValues(m) + 1
  {
    var b := Bump(m, k);
    SumValuesRemove(b, k);
    if k in m {
      SumValuesRemove(m, k);
      assert b - {k} == m - {k};
    } else {
      assert b - {k} == m;
    }
  }

  /** One record adds one to the sum of its manufacturer's distribution
      when it is a European sale, and nothing otherwise. */
  lemma ApplyDistributionSum(t: Totals, r: Record, maker: string)
    requires maker == Audi || maker == Bmw
    ensures SumValues(Distribution(Apply(t, r), maker))
            == SumValues(Distribution(t, maker)) + (if InDistribution(r, maker) then 1 else 0)
  {
    AcceptedRecordEffects(t, r, maker);
    if InDistribution(r, maker) {
      SumValuesBump(Distribution(t, maker), r.country);
    }
  }

  /** Task 3 over records: the counts of a distribution add up to the
      European sales of its manufacturer. */
  lemma {:induction false} FoldDistributionSum(rs: seq<Record>, maker: string)
    requires maker == Audi || maker == Bmw
    ensures SumValues(Distribution(ApplyAll(rs), maker)) == MakerCount(rs, maker)
  {
    if rs != [] {
      FoldDistributionSum(rs[..|rs| - 1], maker);
      ApplyDistributionSum(ApplyAll(rs[..|rs| - 1]), rs[|rs| - 1], maker);
    }
  }

  /** The counts of a distribution add up to the number of accepted
      European sales of its manufacturer. */
  lemma RunDistributionSum(lines: seq<string>, parseDouble: string -> Option<real>, maker: string)
    requires maker == Audi || maker == Bmw
    ensures SumValues(Distribution(Run(lines, parseDouble), maker)) == MakerCount(Accepted(lines, parseDouble), maker)
  {
    RunIsFold(lines, parseDouble);
    FoldDistributionSum(Accepted(lines, parseDouble), maker);
  }

  // ---------------------------------------------------------------------
  // Small scenarios

  /** One Audi sold in China in 2025 for 10000, one BMW sold in 2025 for
      20000 and one Audi sold in France, in Europe, in another year: one
      Audi for task 1, 20000 for task 2, France once in the Audi
      distribution and an empty BMW distribution. */
  lemma ThreeRecordScenario()
    ensures var audiChina := Record("1", "2025-03-01", "China", "Asia", Audi, "A4", 2024, 10000.0);
            var bmw := Record("2", "2025-06-15", "Germany", "Asia", Bmw, "X5", 2025, 20000.0);
            var audiFrance := Record("3", "2023-09-30", "France", TargetRegion, Audi, "A6", 2022, 5000.0);
            Apply(Apply(Apply(Initial, audiChina), bmw), audiFrance)
              == Totals(1, 20000.0, map["France" := 1], map[])
  {
    TargetYearDate("2025-03-01");
    TargetYearDate("2025-06-15");
  }

  /** Two European Audi sales in Germany count 2 for Germany. */
  lemma TwoGermanAudisScenario(first: Record, second: Record)
    requires first.manufacturer == Audi && first.region == TargetRegion && first.country == "Germany"
    requires second.manufacturer == Audi && second.region == TargetRegion && second.country == "Germany"
    ensures Apply(Apply(Initial, first), second).audiDistribution == map["Germany" := 2]
  {
  }

  // ---------------------------------------------------------------------
  // The accumulators, updated in place

  class Accumulator {
    var audiChinaCount: int
    var bmwRevenue: real
    var audiDistribution: map<string, int>
    var bmwDistribution: map<string, int>

    function State(): Totals
      reads this
    {
      Totals(audiChinaCount, bmwRevenue, audiDistribution, bmwDistribution)
    }

    constructor ()
      ensures State() == Initial
    {
      audiChinaCount, bmwRevenue := 0, 0.0;
      audiDistribution, bmwDistribution := map[], map[];
    }

    /** One turn of the read loop. */
    method ProcessLine(line: string, parseDouble: string -> Option<real>)
      requires Readable(line, parseDouble)
      modifies this
      ensures State() == Step(old(State()), line, parseDouble)
    {
      var record := ReadRecord(line, parseDouble);
      if record != null {
        AddRecord(record);
      }
    }

    /** The three tasks for one accepted record. */
    method AddRecord(record: SalesRecord)
      requires DateReadable(record.saleDate)
      modifies this
      ensures State() == Apply(old(State()), record.View())
    {
      var saleYear := record.GetSaleYear();
      if record.manufacturer == Audi && record.country == TargetCountry && saleYear == TargetYear {
        audiChinaCount := audiChinaCount + 1;
      }
      if record.manufacturer == Bmw && saleYear == TargetYear {
        bmwRevenue := bmwRevenue + record.salePriceUsd;
      }
      if record.IsEuropean() {
        if record.manufacturer == Audi {
          var n := if record.country in audiDistribution then audiDistribution[record.country] else 0;
          audiDistribution := audiDistribution[record.country := n + 1];
        } else if record.manufacturer == Bmw {
          var n := if record.country in bmwDistribution then bmwDistribution[record.country] else 0;
          bmwDistribution := bmwDistribution[record.country := n + 1];
        }
      }
    }
  }

  /** The validation part of the loop body: parse the line and build a
      `SalesRecord`, or give null where the loop moves on to the next line. */
  method ReadRecord(line: string, parseDouble: string -> Option<real>) returns (record: SalesRecord?)
    ensures record == null <==> ReadLine(line, parseDouble).None?
    ensures record != null ==> fresh(record) && record.View() == ReadLine(line, parseDouble).value
  {
    if line == [] {
      return null;
    }
    var fields := ParseCsvLine(line);
    assert ReadLine(line, parseDouble) == BuildRecord(fields, parseDouble);
    if |fields| < MinimumFieldCount {
      return null;
    }
    record := NewRecord(fields, parseDouble);
  }

  /** The whole scan over the data lines (the header already skipped). */
  method Analyze(lines: seq<string>, parseDouble: string -> Option<real>) returns (totals: Totals)
    requires forall i :: 0 <= i < |lines| ==> Readable(lines[i], parseDouble)
    ensures totals == Run(lines, parseDouble)
    ensures totals.audiChinaCount == AudiChinaSales(Accepted(lines, parseDouble))
    ensures totals.bmwRevenue == BmwTargetRevenue(Accepted(lines, parseDouble)) && totals.bmwRevenue >= 0.0
    ensures forall k :: k in totals.audiDistribution ==>
                        totals.audiDistribution[k] == CountryCount(Accepted(lines, parseDouble), Audi, k) >= 1
    ensures forall k :: k in totals.bmwDistribution ==>
                        totals.bmwDistribution[k] == CountryCount(Accepted(lines, parseDouble), Bmw, k) >= 1
  {
    var acc := new Accumulator();
    for i := 0 to |lines|
      invariant acc.State() == Run(lines[..i], parseDouble)
    {
      acc.ProcessLine(lines[i], parseDouble);
      assert lines[..i + 1][..i] == lines[..i];
    }
    assert lines[..|lines|] == lines;
    totals := acc.State();
    RunCountsAudiChina(lines, parseDouble);
    RunSumsBmwRevenue(lines, parseDouble);
    RunCountsCountries(lines, parseDouble, Audi);
    RunCountsCountries(lines, parseDouble, Bmw);
  }
}
