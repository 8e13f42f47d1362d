/**
 * The line parser: `parseCSVLine` in car_sales_analysis.cpp. Every '"'
 * flips an in-quotes flag and is dropped; a ',' outside quotes ends the
 * current field; every other character is copied; each field is trimmed
 * and the last one is always pushed. Doubled quotes are not escapes, and an
 * unterminated quote absorbs every later comma.
 */
module Csv {
  import opened Text

  /** What the scanner holds after a prefix of the line: the completed
      fields before trimming, the field in progress and the quote flag. */
  datatype Scanner = Scanner(pieces: seq<string>, field: string, inQuotes: bool)

  const Start := Scanner([], "", false)

  /** One turn of the scanning loop, for character c. */
  function Feed(st: Scanner, c: char): (r: Scanner)
    ensures r.inQuotes != st.inQuotes <==> c == '"'
    ensures |r.pieces| == |st.pieces| + (if c == ',' && !st.inQuotes then 1 else 0)
    ensures r.pieces[..|st.pieces|] == st.pieces
  {
    if c == '"' then st.(inQuotes := !st.inQuotes)
    else if c == ',' && !st.inQuotes then Scanner(st.pieces + [st.field], "", st.inQuotes)
    else st.(field := st.field + [c])
  }

  /** The scanner state after reading all of s. */
  function Scan(s: string): Scanner {
    if s == [] then Start else Feed(Scan(s[..|s| - 1]), s[|s| - 1])
  }

  /** Reading one more character is one more turn of the loop. */
  lemma ScanSnoc(s: string, c: char)
    ensures Scan(s + [c]) == Feed(Scan(s), c)
  {
    assert (s + [c])[..|s|] == s;
  }

  /** The untrimmed fields of a line: the completed ones and the last. */
  function RawFields(line: string): seq<string> {
    Scan(line).pieces + [Scan(line).field]
  }

  function TrimAll(pieces: seq<string>): seq<string> {
    seq(|pieces|, i requires 0 <= i < |pieces| => Trim(pieces[i]))
  }

  lemma TrimAllSnoc(pieces: seq<string>, field: string)
    ensures TrimAll(pieces + [field]) == TrimAll(pieces) + [Trim(field)]
  {
  }

  /** The fields `parseCSVLine` returns. */
  function Fields(line: string): seq<string> {
    TrimAll(RawFields(line))
  }

  /** `parseCSVLine`: the scanning loop, pushing each trimmed field. */
  method ParseCsvLine(line: string) returns (fields: seq<string>)
    ensures fields == Fields(line)
    ensures |fields| >= 1
  {
    fields := [];
    var field := "";
    var inQuotes := false;
    ghost var pieces: seq<string> := [];
    for i := 0 to |line|
      invariant Scan(line[..i]) == Scanner(pieces, field, inQuotes)
      invariant fields == TrimAll(pieces)
    {
      var c := line[i];
      assert line[..i + 1] == line[..i] + [c];
      ScanSnoc(line[..i], c);
      if c == '"' {
        inQuotes := !inQuotes;
      } else if c == ',' && !inQuotes {
        TrimAllSnoc(pieces, field);
        fields := fields + [Trim(field)];
        pieces := pieces + [field];
        field := "";
      } else {
        field := field + [c];
      }
    }
    assert line[..|line|] == line;
    TrimAllSnoc(pieces, field);
    fields := fields + [Trim(field)];
  }

  // ---------------------------------------------------------------------
  // Field count

  /** The number of '"' characters in s. */
  function QuoteCount(s: string): nat {
    if s == [] then 0
    else QuoteCount(s[..|s| - 1]) + (if s[|s| - 1] == '"' then 1 else 0)
  }

  /** The number of commas in s preceded by an even number of quotes,
      that is, the commas that stand outside a quoted span. */
  function SeparatorCount(s: string): nat {
    if s == [] then 0
    else
      var p := s[..|s| - 1];
      SeparatorCount(p) + (if s[|s| - 1] == ',' && QuoteCount(p) % 2 == 0 then 1 else 0)
  }

  lemma {:induction false} ScanCounts(s: string)
    ensures Scan(s).inQuotes <==> QuoteCount(s) % 2 == 1
    ensures |Scan(s).pieces| == SeparatorCount(s)
  {
    if s != [] {
      ScanCounts(s[..|s| - 1]);
    }
  }

  /** A line yields one field more than it has commas outside quotes; in
      particular it always yields at least one field. */
  lemma FieldCount(line: string)
    ensures |Fields(line)| == SeparatorCount(line) + 1
  {
    ScanCounts(line);
  }

  /** After a quote left open, no later comma separates fields. */
  lemma {:induction false} UnterminatedQuoteAbsorbs(p: string, q: string)
    requires QuoteCount(p) % 2 == 1
    requires '"' !in q
    ensures SeparatorCount(p + q) == SeparatorCount(p)
    ensures QuoteCount(p + q) == QuoteCount(p)
  {
    if q != [] {
      var q' := q[..|q| - 1];
      assert (p + q)[..|p + q| - 1] == p + q';
      UnterminatedQuoteAbsorbs(p, q');
    } else {
      assert p + q == p;
    }
  }

  // ---------------------------------------------------------------------
  // Field contents

  lemma {:induction false} ScanDropsQuotes(s: string)
    ensures '"' !in Scan(s).field
    ensures forall k :: 0 <= k < |Scan(s).pieces| ==> '"' !in Scan(s).pieces[k]
  {
    if s != [] {
      ScanDropsQuotes(s[..|s| - 1]);
    }
  }

  /** No field contains a quote character, and every field is its own trim. */
  lemma FieldsAreClean(line: string)
    ensures forall k :: 0 <= k < |Fields(line)| ==> '"' !in Fields(line)[k]
    ensures forall k :: 0 <= k < |Fields(line)| ==> Trim(Fields(line)[k]) == Fields(line)[k]
  {
    ScanDropsQuotes(line);
    var raw := RawFields(line);
    forall k | 0 <= k < |raw|
      ensures '"' !in Trim(raw[k]) && Trim(Trim(raw[k])) == Trim(raw[k])
    {
      if '"' in Trim(raw[k]) {
        TrimKeepsCharacters(raw[k], '"');
      }
      TrimIdempotent(raw[k]);
    }
  }

  /** The line with every quote character removed. */
  function Unquote(s: string): string {
    if s == [] then []
    else Unquote(s[..|s| - 1]) + (if s[|s| - 1] == '"' then [] else [s[|s| - 1]])
  }

  /** The fields joined with commas. */
  function Join(fs: seq<string>): string {
    if fs == [] then []
    else if |fs| == 1 then fs[0]
    else Join(fs[..|fs| - 1]) + [','] + fs[|fs| - 1]
  }

  lemma JoinAppendChar(fs: seq<string>, f: string, c: char)
    ensures Join(fs + [f + [c]]) == Join(fs + [f]) + [c]
  {
    if fs != [] {
      assert (fs + [f + [c]])[..|fs|] == fs;
      assert (fs + [f])[..|fs|] == fs;
    }
  }

  /** Nothing but quotes is lost before trimming: the untrimmed fields,
      joined again with commas, give back the line without its quotes. */
  lemma {:induction false} RawFieldsRejoin(line: string)
    ensures Join(RawFields(line)) == Unquote(line)
  {
    if line != [] {
      var p := line[..|line| - 1];
      var c := line[|line| - 1];
      RawFieldsRejoin(p);
      var st := Scan(p);
      if c == '"' {
      } else if c == ',' && !st.inQuotes {
        var fs := st.pieces + [st.field];
        assert RawFields(line) == fs + [""];
        assert (fs + [""])[..|fs|] == fs;
      } else {
        JoinAppendChar(st.pieces, st.field, c);
      }
    }
  }

  // ---------------------------------------------------------------------
  // Field boundaries

  /** After a separating comma the scanner starts afresh: what follows is
      scanned as if it were a line of its own. */
  lemma {:induction false} ScanAfterBoundary(p: string, q: string)
    requires Scan(p).field == [] && !Scan(p).inQuotes
    ensures Scan(p + q) == Scanner(Scan(p).pieces + Scan(q).pieces, Scan(q).field, Scan(q).inQuotes)
  {
    if q == [] {
      assert p + q == p;
    } else {
      var q' := q[..|q| - 1];
      var c := q[|q| - 1];
      ScanAfterBoundary(p, q');
      assert p + q == (p + q') + [c];
      ScanSnoc(p + q', c);
      assert q == q' + [c];
      ScanSnoc(q', c);
      assert Scan(p).pieces + (Scan(q').pieces + [Scan(q').field])
          == (Scan(p).pieces + Scan(q').pieces) + [Scan(q').field];
    }
  }

  /** A comma after an even number of quotes splits the line in two: the
      fields of the whole are the fields of the part before it followed by
      the fields of the part after it. */
  lemma SplitAtSeparator(p: string, q: string)
    requires QuoteCount(p) % 2 == 0
    ensures RawFields(p + [','] + q) == RawFields(p) + RawFields(q)
  {
    ScanCounts(p);
    ScanSnoc(p, ',');
    ScanAfterBoundary(p + [','], q);
  }

  /** A line with no comma outside quotes is one field: the line without
      its quotes. */
  lemma OneFieldWithoutSeparator(s: string)
    requires SeparatorCount(s) == 0
    ensures RawFields(s) == [Unquote(s)]
  {
    ScanCounts(s);
    RawFieldsRejoin(s);
  }

  lemma CountsSnoc(s: string, c: char)
    ensures QuoteCount(s + [c]) == QuoteCount(s) + (if c == '"' then 1 else 0)
    ensures SeparatorCount(s + [c]) == SeparatorCount(s) + (if c == ',' && QuoteCount(s) % 2 == 0 then 1 else 0)
    ensures Unquote(s + [c]) == Unquote(s) + (if c == '"' then [] else [c])
  {
    assert (s + [c])[..|s|] == s;
  }

  lemma QuotedTailCounts()
    ensures SeparatorCount("\"b,c\"") == 0 && Unquote("\"b,c\"") == "b,c"
  {
    CountsSnoc("", '"');
    assert "" + ['"'] == "\"";
    CountsSnoc("\"", 'b');
    assert "\"" + ['b'] == "\"b";
    CountsSnoc("\"b", ',');
    assert "\"b" + [','] == "\"b,";
    CountsSnoc("\"b,", 'c');
    assert "\"b," + ['c'] == "\"b,c";
    CountsSnoc("\"b,c", '"');
    assert "\"b,c" + ['"'] == "\"b,c\"";
  }

  /** The boundaries of `a,"b,c"`: the comma inside quotes does not split. */
  lemma QuotedBoundaryExample()
    ensures RawFields("a,\"b,c\"") == ["a", "b,c"]
  {
    var q := "\"b,c\"";
    CountsSnoc("", 'a');
    assert "" + ['a'] == "a";
    QuotedTailCounts();
    SplitAtSeparator("a", q);
    OneFieldWithoutSeparator(q);
    OneFieldWithoutSeparator("a");
    assert "a" + [','] + q == "a,\"b,c\"";
  }

  // ---------------------------------------------------------------------
  // Examples

  lemma ScanQuotedPrefix()
    ensures Scan("a,\"b") == Scanner(["a"], "b", true)
  {
    ScanSnoc("", 'a');
    assert "" + ['a'] == "a";
    assert Scan("a") == Scanner([], "a", false);
    ScanSnoc("a", ',');
    assert "a" + [','] == "a,";
    assert Scan("a,") == Scanner(["a"], "", false);
    ScanSnoc("a,", '"');
    assert "a," + ['"'] == "a,\"";
    assert Scan("a,\"") == Scanner(["a"], "", true);
    ScanSnoc("a,\"", 'b');
    assert "a,\"" + ['b'] == "a,\"b";
    assert Scan("a,\"b") == Scanner(["a"], "b", true);
  }

  lemma ScanQuotedExample()
    ensures Scan("a,\"b,c\",d") == Scanner(["a", "b,c"], "d", false)
  {
    var line := "a,\"b,c\",d";
    ScanQuotedPrefix();
    ScanSnoc("a,\"b", ',');
    assert "a,\"b" + [','] == "a,\"b,";
    assert Scan("a,\"b,") == Scanner(["a"], "b,", true);
    ScanSnoc("a,\"b,", 'c');
    assert "a,\"b," + ['c'] == "a,\"b,c";
    assert Scan("a,\"b,c") == Scanner(["a"], "b,c", true);
    ScanSnoc("a,\"b,c", '"');
    assert "a,\"b,c" + ['"'] == "a,\"b,c\"";
    assert Scan("a,\"b,c\"") == Scanner(["a"], "b,c", false);
    ScanSnoc("a,\"b,c\"", ',');
    assert "a,\"b,c\"" + [','] == "a,\"b,c\",";
    assert Scan("a,\"b,c\",") == Scanner(["a", "b,c"], "", false);
    ScanSnoc("a,\"b,c\",", 'd');
    assert "a,\"b,c\"," + ['d'] == line;
    assert Scan(line) == Scanner(["a", "b,c"], "d", false);
  }

  /** A comma inside quotes stays in its field. */
  lemma QuotedCommaExample()
    ensures Fields("a,\"b,c\",d") == ["a", "b,c", "d"]
  {
    ScanQuotedExample();
    assert RawFields("a,\"b,c\",d") == ["a", "b,c", "d"];
    TrimmedIsFixed("a");
    TrimmedIsFixed("b,c");
    TrimmedIsFixed("d");
  }

  lemma TrimOneLetter(c: char)
    requires !IsSpace(c)
    ensures Trim([' ', c, ' ']) == [c]
  {
    assert FirstNonSpace([' ', c, ' '], 0) == 1;
    assert EndNonSpace([' ', c, ' '], 3) == 2;
  }

  lemma ScanSpaceLetter()
    ensures Scan(" x") == Scanner([], " x", false)
  {
    ScanSnoc("", ' ');
    assert "" + [' '] == " ";
    assert Scan(" ") == Scanner([], " ", false);
    ScanSnoc(" ", 'x');
    assert " " + ['x'] == " x";
  }

  lemma ScanSpacesPrefix()
    ensures Scan(" x ,") == Scanner([" x "], "", false)
  {
    ScanSpaceLetter();
    ScanSnoc(" x", ' ');
    assert " x" + [' '] == " x ";
    assert Scan(" x ") == Scanner([], " x ", false);
    ScanSnoc(" x ", ',');
    assert " x " + [','] == " x ,";
    assert Scan(" x ,") == Scanner([" x "], "", false);
  }

  lemma ScanSpacesExample()
    ensures Scan(" x , y ") == Scanner([" x "], " y ", false)
  {
    var line := " x , y ";
    ScanSpacesPrefix();
    ScanSnoc(" x ,", ' ');
    assert " x ," + [' '] == " x , ";
    assert Scan(" x , ") == Scanner([" x "], " ", false);
    ScanSnoc(" x , ", 'y');
    assert " x , " + ['y'] == " x , y";
    assert Scan(" x , y") == Scanner([" x "], " y", false);
    ScanSnoc(" x , y", ' ');
    assert " x , y" + [' '] == line;
    assert Scan(line) == Scanner([" x "], " y ", false);
  }

  /** Spaces around fields are trimmed away. */
  lemma SpacesExample()
    ensures Fields(" x , y ") == ["x", "y"]
  {
    ScanSpacesExample();
    assert RawFields(" x , y ") == [" x ", " y "];
    TrimOneLetter('x');
    TrimOneLetter('y');
  }
}
