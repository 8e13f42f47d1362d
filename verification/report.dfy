/**
 * The ordering the report prints a distribution in: its (country, count)
 * entries copied into a vector and sorted in place by count, highest
 * first. The order among equal counts is left open, as `std::sort` is not
 * stable.
 */
module Report {

  type Entry = (string, int)

  /** Counts never increase along the sequence. */
  predicate ByCountDescending(s: seq<Entry>) {
    forall i, j :: 0 <= i < j < |s| ==> s[i].1 >= s[j].1
  }

  /** No country appears twice. */
  predicate DistinctCountries(s: seq<Entry>) {
    forall i, j :: 0 <= i < j < |s| ==> s[i].0 != s[j].0
  }

  /** With distinct countries, no entry occurs twice. */
  lemma {:induction false} DistinctCountriesOccurOnce(s: seq<Entry>, e: Entry)
    requires DistinctCountries(s)
    ensures multiset(s)[e] <= 1
  {
    if s != [] {
      var p := s[..|s| - 1];
      assert DistinctCountries(p) by {
        forall i, j | 0 <= i < j < |p| ensures p[i].0 != p[j].0 {
          assert p[i] == s[i] && p[j] == s[j];
        }
      }
      DistinctCountriesOccurOnce(p, e);
      assert s == p + [s[|s| - 1]];
      if s[|s| - 1] == e {
        assert e !in p by {
          forall i | 0 <= i < |p| ensures p[i] != e {
            assert p[i] == s[i];
          }
        }
      }
    }
  }

  /** An entry that occurs at most once is not repeated later on. */
  lemma OccursOnceApart(s: seq<Entry>, i: nat, j: nat)
    requires i < j < |s|
    requires multiset(s)[s[i]] <= 1
    ensures s[i] != s[j]
  {
    assert s == s[..j] + [s[j]] + s[j + 1..];
    assert s[..j][i] == s[i];
  }

  /** The state of one insertion pass: the entry at j is being moved left;
      a[..i + 1] without it is sorted, and it outranks everything it has
      passed. */
  predicate Sinking(s: seq<Entry>, i: nat, j: nat) {
    && j <= i < |s|
    && (forall x, y :: 0 <= x < y <= i && x != j && y != j ==> s[x].1 >= s[y].1)
    && (forall y :: j < y <= i ==> s[j].1 > s[y].1)
  }

  lemma SinkingStep(s: seq<Entry>, i: nat, j: nat)
    requires Sinking(s, i, j) && 0 < j && s[j - 1].1 < s[j].1
    ensures Sinking(s[j - 1 := s[j]][j := s[j - 1]], i, j - 1)
  {
  }

  lemma SinkingDone(s: seq<Entry>, i: nat, j: nat)
    requires Sinking(s, i, j) && (j == 0 || s[j - 1].1 >= s[j].1)
    ensures ByCountDescending(s[..i + 1])
  {
    forall x, y | 0 <= x < y <= i
      ensures s[x].1 >= s[y].1
    {
      if y == j && x < j - 1 {
        assert s[x].1 >= s[j - 1].1;
      }
    }
  }

  /** One pass of the insertion sort: moves a[i] left past every smaller
      count, so that a[..i + 1] is sorted when a[..i] was. */
  method InsertAt(a: array<Entry>, i: nat)
    requires i < a.Length
    requires ByCountDescending(a[..i])
    modifies a
    ensures ByCountDescending(a[..i + 1])
    ensures multiset(a[..]) == multiset(old(a[..]))
  {
    var j: nat := i;
    assert Sinking(a[..], i, j);
    while j > 0 && a[j - 1].1 < a[j].1
      invariant Sinking(a[..], i, j)
      invariant multiset(a[..]) == multiset(old(a[..]))
    {
      ghost var s := a[..];
      SinkingStep(s, i, j);
      a[j - 1], a[j] := a[j], a[j - 1];
      assert a[..] == s[j - 1 := s[j]][j := s[j - 1]];
      j := j - 1;
    }
    SinkingDone(a[..], i, j);
  }

  /** The `std::sort` call, whose comparator puts the higher count first,
      as an insertion sort. */
  method SortByCountDescending(a: array<Entry>)
    modifies a
    ensures ByCountDescending(a[..])
    ensures multiset(a[..]) == multiset(old(a[..]))
  {
    for i := 0 to a.Length
      invariant ByCountDescending(a[..i])
      invariant multiset(a[..]) == multiset(old(a[..]))
    {
      InsertAt(a, i);
    }
    assert a[..a.Length] == a[..];
  }

  /** The entries of a map, each once, in some order of its keys. */
  predicate EntriesOf(s: seq<Entry>, m: map<string, int>) {
    && (forall i :: 0 <= i < |s| ==> s[i].0 in m && m[s[i].0] == s[i].1)
    && (forall k :: k in m ==> (k, m[k]) in s)
    && DistinctCountries(s)
  }

  /** Copying the map into a fresh array of its size, one key at a time. */
  method CopyEntries(m: map<string, int>) returns (a: array<Entry>)
    ensures fresh(a)
    ensures a.Length == |m|
    ensures EntriesOf(a[..], m)
  {
    a := new Entry[|m|];
    var rest := m.Keys;
    var n := 0;
    while rest != {}
      invariant n + |rest| == |m|
      invariant rest <= m.Keys
      invariant forall i :: 0 <= i < n ==> a[i].0 in m && a[i].0 !in rest && m[a[i].0] == a[i].1
      invariant forall k :: k in m && k !in rest ==> (k, m[k]) in a[..n]
      invariant DistinctCountries(a[..n])
      decreases |rest|
    {
      var k :| k in rest;
      ghost var placed := a[..n];
      a[n] := (k, m[k]);
      assert a[..n + 1] == placed + [(k, m[k])];
      rest := rest - {k};
      n := n + 1;
    }
    assert a[..n] == a[..];
  }

  /** Any permutation of the entries of a map holds them too, each once. */
  lemma PermutedEntries(s: seq<Entry>, t: seq<Entry>, m: map<string, int>)
    requires EntriesOf(s, m)
    requires multiset(t) == multiset(s)
    ensures EntriesOf(t, m)
  {
    forall i | 0 <= i < |t|
      ensures t[i].0 in m && m[t[i].0] == t[i].1
    {
      assert t[i] in multiset(s);
    }
    forall k | k in m
      ensures (k, m[k]) in t
    {
      assert (k, m[k]) in multiset(t);
    }
    forall i, j | 0 <= i < j < |t|
      ensures t[i].0 != t[j].0
    {
      DistinctCountriesOccurOnce(s, t[i]);
      OccursOnceApart(t, i, j);
    }
  }

  /** Lines 239-245 (and 255-261): the entries of a distribution, sorted by
      count from highest to lowest. */
  method SortedDistribution(m: map<string, int>) returns (entries: seq<Entry>)
    ensures |entries| == |m|
    ensures forall i :: 0 <= i < |entries| ==> entries[i].0 in m && m[entries[i].0] == entries[i].1
    ensures forall k :: k in m ==> (k, m[k]) in entries
    ensures DistinctCountries(entries)
    ensures ByCountDescending(entries)
  {
    var a := CopyEntries(m);
    ghost var unsorted := a[..];
    SortByCountDescending(a);
    entries := a[..];
    PermutedEntries(unsorted, entries, m);
  }
}
