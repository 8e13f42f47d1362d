# Car sales analysis, modelled in Dafny

A model of the one-pass analysis in `car_sales_analysis.cpp`. The program reads a
sales CSV, skips the header, and parses each data line into fields. Rows that are
empty, shorter than 21 fields, or whose vehicle year or sale price does not convert
are dropped. Every accepted row becomes a `SalesRecord`, which feeds three independent
accumulators:

1. the number of Audis sold in China in 2025;
2. the BMW revenue of 2025;
3. per-country counts of Audi and BMW sales in the region "Europe". Each count map is
   printed sorted by count, highest first.

The model has one Dafny module per component:

- `Text` (`trim`, pure functions);
- `Csv` (`parseCSVLine`, a scanning method proved against a scanner function);
- `Sales` (column layout, business constants, the `SalesRecord` class with its
  clamping setter, `std::stoi` as `ParseInt`, record building);
- `Aggregation` (the loop body as methods on an `Accumulator` class, proved against a
  fold `Run` over the lines);
- `Report` (the in-place sort of a distribution).

`std::stod` is the function parameter `parseDouble: string -> Option<real>`, where
`None` stands for a conversion that throws. Every property holds for any such parser.

Two consequences of the code worth keeping in mind:

- A non-empty vehicle year that `std::stoi` rejects drops the whole row, because the
  conversion sits inside the `try` whose `catch` skips the line (lines 184-189). Such a
  row does not get a vehicle year of 0.
- `std::sort` is not stable, so the order among equal counts is unspecified. The model
  promises nothing about it.

Text is a sequence of characters in the model, while the program holds the bytes of the file. The model assumes the file is UTF-8: with another encoding, such as Latin-1, `ByteLength` would overcount the bytes of a non-ASCII date.
`trim` and `parseCSVLine` look only at ASCII characters (spaces, quotes and commas).
No byte of a multi-byte UTF-8 character equals one of those, so they give the same
fields either way. `getSaleYear` compares the date's length in bytes with 4, and the
model does the same with `ByteLength`.

## Model

| member | source | states |
|---|---|---|
| Text.FirstNonSpace | car_sales_analysis.cpp:118 | the first index at or after `from` that is not one of " \t\r\n" (or the length): everything before it, from `from`, is space |
| Text.EndNonSpace | car_sales_analysis.cpp:120 | the end of s[..to] without trailing spaces: what follows is all space, the character before it is not |
| Text.Trim | car_sales_analysis.cpp:117-122 | the result is a contiguous slice of the input, with only spaces before and after it, neither starting nor ending with a space; it is "" exactly when the input is empty or all spaces |
| Text.TrimKeepsCharacters | car_sales_analysis.cpp:121 | every character of the trimmed string occurs in the input |
| Text.TrimmedIsFixed | car_sales_analysis.cpp:117-122 | a string without spaces at its ends is returned unchanged |
| Text.TrimIdempotent | car_sales_analysis.cpp:117-122 | trimming twice equals trimming once |
| Csv.Feed | car_sales_analysis.cpp:133-140 | one turn of the loop: the quote flag flips exactly on '"', a completed field is added exactly on a comma outside quotes, and completed fields are never changed |
| Csv.Scan | car_sales_analysis.cpp:130-141 | the loop's state after a prefix of the line, built one `Feed` at a time; `ScanCounts`, `ScanDropsQuotes` and `RawFieldsRejoin` state what it holds |
| Csv.ParseCsvLine | car_sales_analysis.cpp:125-144 | the scanning loop (quote toggle, unquoted comma ends a field, trim, last field always pushed) returns exactly the scanner's fields, and at least one |
| Csv.ScanCounts | car_sales_analysis.cpp:128-141 | after any prefix the quote flag is set exactly when an odd number of quotes was read, and the completed fields number the commas read outside quotes |
| Csv.FieldCount | car_sales_analysis.cpp:130-143 | a line yields 1 + (number of commas preceded by an even number of quotes) fields |
| Csv.UnterminatedQuoteAbsorbs | car_sales_analysis.cpp:133-135 | after a quote left open, no later comma separates fields: appending quote-free text adds no separator |
| Csv.ScanDropsQuotes | car_sales_analysis.cpp:133-134 | no completed field and no field in progress ever holds a quote character |
| Csv.FieldsAreClean | car_sales_analysis.cpp:133-142 | no returned field contains '"', and every returned field equals its own trim |
| Csv.RawFieldsRejoin | car_sales_analysis.cpp:130-142 | the untrimmed fields joined with commas give back the line with its quotes removed: only quotes and separators are consumed |
| Csv.ScanAfterBoundary | car_sales_analysis.cpp:135-137 | once a comma outside quotes has ended a field, the rest of the line is scanned as a line of its own, its fields appended to those before |
| Csv.SplitAtSeparator | car_sales_analysis.cpp:130-142 | a comma preceded by an even number of quotes splits the line: its fields are those of the part before followed by those of the part after |
| Csv.OneFieldWithoutSeparator | car_sales_analysis.cpp:130-142 | a line with no comma outside quotes is a single field, the line with its quotes removed |
| Csv.QuotedBoundaryExample | car_sales_analysis.cpp:130-142 | `a,"b,c"` splits only at its first comma, into "a" and "b,c" |
| Csv.QuotedCommaExample | car_sales_analysis.cpp:125-144 | `a,"b,c",d` parses to ["a", "b,c", "d"] |
| Csv.SpacesExample | car_sales_analysis.cpp:125-144 | ` x , y ` parses to ["x", "y"] |
| Sales.ParseInt | car_sales_analysis.cpp:185 | `std::stoi` on a whole field: "" and any stray non-digit are refused, a result lies within the 32-bit `int` range |
| Sales.ParseIntAccepts | car_sales_analysis.cpp:185 | an optional sign and at least one digit (leading zeros allowed) read as the signed decimal value when it lies in the `int` range, and are refused outside it; with `ParseInt`'s refusals this covers every string |
| Sales.ParseIntExamples | car_sales_analysis.cpp:185 | "+5" gives 5, "007" gives 7 and "-0" gives 0 |
| Sales.ParseIntFormat | car_sales_analysis.cpp:185 | every `int` written in decimal (with '-' when negative) is read back as itself |
| Sales.ParseIntOutOfRange | car_sales_analysis.cpp:185 | a decimal number outside the `int` range is refused, as `stoi` throws `out_of_range` |
| Sales.Utf8Width | car_sales_analysis.cpp:105 | the number of UTF-8 bytes of a character, between 1 and 4, and 1 exactly for ASCII |
| Sales.ByteLengthBounds | car_sales_analysis.cpp:105 | a string's length in bytes is at least its number of characters, and equal to it exactly when every character is ASCII |
| Sales.SaleYear | car_sales_analysis.cpp:104-109 | 0 for a date shorter than 4 bytes; otherwise the decimal value of its four leading digits, between 0 and 9999 |
| Sales.SaleYearOfDigits | car_sales_analysis.cpp:104-109 | a date whose first four characters are digits is readable, and its sale year is the number they write |
| Sales.ShortDateExamples | car_sales_analysis.cpp:105-108 | "25" has sale year 0; "éé" is four bytes, so the code calls `stoi` on it and the model does not admit it; "é" is two bytes and gives 0 |
| Sales.TargetYearDate | car_sales_analysis.cpp:104-109 | a date starting "2025" is readable and has sale year 2025 |
| Sales.ClampPrice | car_sales_analysis.cpp:91 | the stored price is never negative: a non-negative price is kept, a negative one becomes exactly 0 |
| Sales.Record.IsEuropean | car_sales_analysis.cpp:111-113 | a record is European exactly when its region is "Europe" |
| Sales.SalesRecord.IsEuropean | car_sales_analysis.cpp:111-113 | the object is European exactly when its region field is "Europe" |
| Sales.SalesRecord.GetSaleYear | car_sales_analysis.cpp:104-109 | 0 for a date shorter than four bytes; otherwise the value of its four leading digits, between 0 and 9999 |
| Sales.SalesRecord.constructor | car_sales_analysis.cpp:81 | a new record has empty text fields, vehicle year 0 and price 0.0 |
| Sales.SalesRecord.SetSalePrice | car_sales_analysis.cpp:91 | the stored price is at least 0, equals a non-negative argument, is 0 for a negative one, and no other field changes |
| Sales.VehicleYearOf | car_sales_analysis.cpp:185 | an empty vehicle year counts as 0; otherwise it is `stoi` of the field, so any year obtained lies in the `int` range |
| Sales.SalePriceOf | car_sales_analysis.cpp:186 | an empty price counts as 0.0; otherwise it is whatever `stod` gives for the field, before clamping |
| Sales.BuildRecord | car_sales_analysis.cpp:174-189 | a row gives a record exactly when it has 21 fields and its year and price convert (empty counts as converting); text fields come from columns 0, 1, 2, 3, 8, 9; an empty year gives 0, an empty price 0.0, a negative price 0.0 |
| Sales.NewRecord | car_sales_analysis.cpp:176-189 | filling a fresh `SalesRecord` field by field gives null exactly when the row is skipped, and otherwise the record of `BuildRecord` |
| Aggregation.ReadLine | car_sales_analysis.cpp:169-189 | a line is skipped exactly when it is empty, has fewer than 21 fields, or has a non-empty year or price that does not convert |
| Aggregation.IsAudiChinaSale | car_sales_analysis.cpp:194-196 | task 1's test: manufacturer "Audi", country "China" and sale year 2025 |
| Aggregation.IsBmwTargetSale | car_sales_analysis.cpp:201-202 | task 2's test: manufacturer "BMW" and sale year 2025 |
| Aggregation.InDistribution | car_sales_analysis.cpp:207-211 | task 3's test: a European sale of the given manufacturer |
| Aggregation.Apply | car_sales_analysis.cpp:194-213 | the three tasks applied to one record; `AcceptedRecordEffects` states what each does |
| Aggregation.Step | car_sales_analysis.cpp:169-213 | one data line: a skipped line leaves the accumulators as they were, an accepted one applies its record |
| Aggregation.Run | car_sales_analysis.cpp:168-213 | the accumulators after the data lines in order; `RunIsFold` and the `Run…` lemmas state what they hold |
| Aggregation.Bump | car_sales_analysis.cpp:209 | `m[k]++` adds k if absent, sets it to its old count + 1 (or 1) and leaves every other key as it was |
| Aggregation.RejectedLineChangesNothing | car_sales_analysis.cpp:169-189 | an empty, short or unconvertible line leaves all four accumulators unchanged |
| Aggregation.AcceptedRecordEffects | car_sales_analysis.cpp:194-213 | one record raises the Audi/China count by exactly 1 or 0, the BMW revenue by exactly its price or 0, and changes its manufacturer's distribution only by one more sale at its country |
| Aggregation.ThreeRecordScenario | car_sales_analysis.cpp:191-213 | Audi/China/2025, BMW/2025 at 20000 and Audi/France/Europe give count 1, revenue 20000 and Audi distribution {France: 1} |
| Aggregation.TwoGermanAudisScenario | car_sales_analysis.cpp:207-209 | two European Audi sales in Germany give Audi distribution {Germany: 2} |
| Aggregation.AcceptedPricesNonNegative | car_sales_analysis.cpp:186 | every accepted record of a scan has a price of at least 0 |
| Aggregation.RunIsFold | car_sales_analysis.cpp:168-213 | a scan of the lines leaves exactly the accumulators obtained by applying the accepted records, in order, from the initial values: skipped lines contribute nothing |
| Aggregation.FoldCountsAudiChina | car_sales_analysis.cpp:194-198 | applying records counts exactly those that are Audi, China and sale year 2025 |
| Aggregation.FoldSumsBmwRevenue | car_sales_analysis.cpp:201-204 | applying records with non-negative prices sums exactly the prices of the BMW sales of 2025, and the sum is never negative |
| Aggregation.FoldCountsCountries | car_sales_analysis.cpp:207-213 | applying records makes a country a key of a manufacturer's distribution exactly when some European sale of it comes from there, with the number of those sales as its value |
| Aggregation.ApplyDistributionSum | car_sales_analysis.cpp:207-213 | one record raises the sum of its manufacturer's distribution by 1 when it is a European sale, and leaves it unchanged otherwise |
| Aggregation.FoldDistributionSum | car_sales_analysis.cpp:207-213 | after applying records, a distribution's counts add up to its manufacturer's European sales among them |
| Aggregation.RunCountsAudiChina | car_sales_analysis.cpp:194-198 | after a scan, the Audi count is the number of accepted records that are Audi, China and sale year 2025 |
| Aggregation.RunSumsBmwRevenue | car_sales_analysis.cpp:201-204 | after a scan, the revenue is the sum of the prices of accepted BMW records of 2025, and is never negative |
| Aggregation.RunCountsCountries | car_sales_analysis.cpp:207-213 | after a scan, a country is a key of a manufacturer's distribution exactly when an accepted European sale of that manufacturer comes from it, and its value is the number of those sales, so at least 1 |
| Aggregation.SumValuesBump | car_sales_analysis.cpp:209 | one increment adds exactly 1 to the sum of a distribution's counts |
| Aggregation.RunDistributionSum | car_sales_analysis.cpp:207-213 | the counts of a manufacturer's distribution add up to the number of its accepted European sales |
| Aggregation.Accumulator.constructor | car_sales_analysis.cpp:158-165 | the accumulators start at 0, 0.0 and two empty maps |
| Aggregation.Accumulator.ProcessLine | car_sales_analysis.cpp:169-213 | one turn of the read loop leaves the accumulators equal to one `Step` of the fold from their old value |
| Aggregation.Accumulator.AddRecord | car_sales_analysis.cpp:191-213 | the three tasks for one accepted record change the accumulators exactly as `Apply` says |
| Aggregation.ReadRecord | car_sales_analysis.cpp:169-189 | parsing and validating a line gives null exactly when the line is skipped, and otherwise a fresh record whose value is that of `ReadLine` |
| Aggregation.Analyze | car_sales_analysis.cpp:168-214 | the loop over all data lines ends with the fold `Run` of the lines: the Audi count, the BMW revenue (non-negative) and both distributions as characterised by the lemmas above |
| Report.SortByCountDescending | car_sales_analysis.cpp:242-245 | the array ends sorted by count from highest to lowest and is a permutation of its old contents |
| Report.InsertAt | car_sales_analysis.cpp:242-245 | one insertion pass extends the sorted prefix by one entry and only permutes the array |
| Report.DistinctCountriesOccurOnce | car_sales_analysis.cpp:239-241 | the entries of a map, whose countries are distinct, each occur at most once |
| Report.CopyEntries | car_sales_analysis.cpp:239-241 | copying the map gives every (country, count) entry of it exactly once, and nothing else |
| Report.PermutedEntries | car_sales_analysis.cpp:242-245 | any reordering of a map's entries still holds each of them exactly once, and nothing else |
| Report.SortedDistribution | car_sales_analysis.cpp:239-245 | the result holds every (country, count) entry of the map once and nothing else, with counts non-increasing; the BMW copy at lines 255-261 is the same call |

## Left out

- File handling: opening `world_car_sales_1m.csv`, the error message and exit code 1 when that fails, skipping the header line, and the `getline` loop's stream handling (lines 147-155, 168, 216). The input is the sequence of data lines given to `Aggregation.Analyze`.
- Report printing with `std::cout`, `setw` and `setprecision(2)` (lines 219-268). Only the ordering of the distributions is modelled.
- `std::stod` and IEEE `double`: the price parser is the parameter `parseDouble`, and revenue is summed as `real`. No claim is made about rounding. A NaN price, which the code's clamp turns into 0.0, has no counterpart in `real`.
- Sales.ParseInt: accepts an optional sign followed by digits, and nothing else. `std::stoi` also skips leading whitespace (including '\v' and '\f', which `trim` leaves) and accepts a numeric prefix such as "12ab" as 12. Those rows are skipped in the model but accepted by the code.
- Aggregation.Accumulator.ProcessLine: requires that an accepted record's date is shorter than 4 bytes or starts with 4 digits (`Readable`). The model leaves out, on purpose, every other date of 4 bytes or more. On those, `std::stoi` in `getSaleYear` (line 106) either throws, and the exception sits outside the `try`, so the program ends; or it reads a shorter numeric prefix, such as 5 for "5/1/2025", 202 for "+202" or 12 for "12ab". On the second kind the program carries on, and such a row would still count in the European distributions, since task 3 ignores the year. `Aggregation.Analyze` carries the same requirement for every line.
- The specification predicates `IsAudiChinaSale` and `IsBmwTargetSale` have no precondition. They include `DateReadable` of the date as a conjunct, so they are false on a record whose date is unreadable. They agree with the code on every line the methods accept.
- Counters and map values are unbounded integers. The 32-bit `int` of `audiChinaCount` and of the map counts could overflow only on more than 2^31 - 1 data lines, since each line adds at most 1 to `audiChinaCount` and to one map count. The program reads `world_car_sales_1m.csv`, whose name suggests about a million rows.
- The setters and getters for `sale_id`, `model` and the other plain text fields, and `setVehicleYear`, are direct field assignments in `Sales.NewRecord`. The column constants the analysis never reads (lines 16-19, 23-31, 33-54) are left out.
- The vector built from `std::map` starts in key order before the sort. The model fills the array in an arbitrary key order, and since the sort's tie order is unspecified, no claim depends on it.
- The scenarios are stated on records, not on 21-column CSV lines.
