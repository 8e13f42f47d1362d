/**
 * The field trimmer: `trim` in car_sales_analysis.cpp, which strips the
 * characters " \t\r\n" from both ends of a string.
 */
module Text {

  /** The characters `trim` strips. */
  predicate IsSpace(c: char) {
    c == ' ' || c == '\t' || c == '\r' || c == '\n'
  }

  predicate AllSpace(s: string) {
    forall i :: 0 <= i < |s| ==> IsSpace(s[i])
  }

  /** Neither the first nor the last character is one `trim` strips. */
  predicate IsTrimmed(s: string) {
    s == [] || (!IsSpace(s[0]) && !IsSpace(s[|s| - 1]))
  }

  /** `find_first_not_of`, searching from `from`: the first index whose
      character is not a space, or |s| when there is none. */
  function FirstNonSpace(s: string, from: nat): (k: nat)
    requires from <= |s|
    ensures from <= k <= |s|
    ensures AllSpace(s[from..k])
    ensures k < |s| ==> !IsSpace(s[k])
    decreases |s| - from
  {
    if from == |s| || !IsSpace(s[from]) then from
    else
      var k := FirstNonSpace(s, from + 1);
      assert s[from..k] == [s[from]] + s[from + 1..k];
      k
  }

  /** `find_last_not_of` over s[..to], as an exclusive end: the smallest k
      such that s[k..to] is all spaces. */
  function EndNonSpace(s: string, to: nat): (k: nat)
    requires to <= |s|
    ensures k <= to
    ensures AllSpace(s[k..to])
    ensures 0 < k ==> !IsSpace(s[k - 1])
  {
    if to == 0 || !IsSpace(s[to - 1]) then to
    else
      var k := EndNonSpace(s, to - 1);
      assert s[k..to] == s[k..to - 1] + [s[to - 1]];
      k
  }

  /** `trim`: the input without its leading and trailing spaces; "" when
      the input is empty or all spaces. */
  function Trim(s: string): (r: string)
    ensures AllSpace(s) <==> r == []
    ensures IsTrimmed(r)
    ensures exists i :: 0 <= i <= |s| - |r| && r == s[i..i + |r|]
                        && AllSpace(s[..i]) && AllSpace(s[i + |r|..])
  {
    var first := FirstNonSpace(s, 0);
    if first == |s| then
      assert s[0..|s|] == s && s[..0] == [] && s[0..] == s;
      ""
    else
      var last := EndNonSpace(s, |s|);
      assert s[0..first] == s[..first] && s[last..|s|] == s[last..];
      TrimBounds(s, first, last);
      assert s[first..last] == s[first..first + (last - first)];
      s[first..last]
  }

  /** The slice `trim` takes when s is not all spaces. */
  lemma TrimBounds(s: string, first: nat, last: nat)
    requires first < |s| && !IsSpace(s[first]) && AllSpace(s[..first])
    requires last <= |s| && AllSpace(s[last..]) && (0 < last ==> !IsSpace(s[last - 1]))
    ensures first < last
    ensures !AllSpace(s)
    ensures IsTrimmed(s[first..last])
  {
  }

  /** Every character of the result is a character of the input. */
  lemma TrimKeepsCharacters(s: string, c: char)
    requires c in Trim(s)
    ensures c in s
  {
    var r := Trim(s);
    var i :| 0 <= i <= |s| - |r| && r == s[i..i + |r|]
             && AllSpace(s[..i]) && AllSpace(s[i + |r|..]);
    var j :| 0 <= j < |r| && r[j] == c;
    assert s[i + j] == c;
  }

  /** A string with no spaces at its ends is its own trim. */
  lemma TrimmedIsFixed(s: string)
    requires IsTrimmed(s)
    ensures Trim(s) == s
  {
    if s != [] {
      assert FirstNonSpace(s, 0) == 0;
      assert EndNonSpace(s, |s|) == |s|;
    }
  }

  /** Trimming twice is trimming once. */
  lemma TrimIdempotent(s: string)
    ensures Trim(Trim(s)) == Trim(s)
  {
    TrimmedIsFixed(Trim(s));
  }
}
