/**
 * The status tally `GKESummary = Dict[str, int]`. A Python dict remembers
 * insertion order, and the CSV export lists the tally in that order, so the
 * tally is a sequence of `(key, count)` pairs: updating a present key keeps
 * its place and a new key goes at the end.
 */
module Dicts {
  import Text

  type Entry = (string, int)
  type Dict = seq<Entry>

  /** `k in d`. */
  predicate Has(d: Dict, k: string) {
    exists i :: 0 <= i < |d| && d[i].0 == k
  }

  ghost predicate DistinctKeys(d: Dict) {
    forall i, j :: 0 <= i < j < |d| ==> d[i].0 != d[j].0
  }

  ghost predicate NonNegative(d: Dict) {
    forall i :: 0 <= i < |d| ==> d[i].1 >= 0
  }

  /** `d.get(k, 0)`. */
  function Get(d: Dict, k: string): (v: int)
    ensures !Has(d, k) ==> v == 0
  {
    if d == [] then 0
    else if d[0].0 == k then d[0].1
    else
      assert Has(d[1..], k) ==> Has(d, k) by {
        if Has(d[1..], k) {
          var i :| 0 <= i < |d[1..]| && d[1..][i].0 == k;
          assert d[i + 1].0 == k;
        }
      }
      Get(d[1..], k)
  }

  lemma {:induction false} GetNonNegative(d: Dict, k: string)
    requires NonNegative(d)
    ensures Get(d, k) >= 0
    decreases |d|
  {
    if d != [] && d[0].0 != k {
      GetNonNegative(d[1..], k);
    }
  }

  /** A present key's value is the one stored with its first occurrence. */
  lemma {:induction false} GetMember(d: Dict, k: string)
    requires Has(d, k)
    ensures (k, Get(d, k)) in d
    decreases |d|
  {
    if d[0].0 != k {
      var i :| 0 <= i < |d| && d[i].0 == k;
      assert d[1..][i - 1].0 == k;
      GetMember(d[1..], k);
    }
  }

  /** `d[k] = v`: a present key keeps its position, a new one is appended. */
  function Set(d: Dict, k: string, v: int): (r: Dict)
    ensures |r| == if Has(d, k) then |d| else |d| + 1
    ensures !Has(d, k) ==> r == d + [(k, v)]
    decreases |d|
  {
    if d == [] then [(k, v)]
    else if d[0].0 == k then [(k, v)] + d[1..]
    else
      assert Has(d[1..], k) <==> Has(d, k) by {
        if Has(d[1..], k) {
          var i :| 0 <= i < |d[1..]| && d[1..][i].0 == k;
          assert d[i + 1].0 == k;
        }
        if Has(d, k) {
          var i :| 0 <= i < |d| && d[i].0 == k;
          assert d[1..][i - 1].0 == k;
        }
      }
      assert d == [d[0]] + d[1..];
      [d[0]] + Set(d[1..], k, v)
  }

  /** After `d[k] = v`, `k` maps to `v` and every other key to what it did. */
  lemma {:induction false} SetGet(d: Dict, k: string, v: int)
    ensures Get(Set(d, k, v), k) == v
    ensures forall j :: j != k ==> Get(Set(d, k, v), j) == Get(d, j)
    decreases |d|
  {
    if d != [] && d[0].0 != k {
      SetGet(d[1..], k, v);
      var r := Set(d, k, v);
      assert r[0] == d[0] && r[1..] == Set(d[1..], k, v);
    } else if d != [] {
      var r := Set(d, k, v);
      assert r[0] == (k, v) && r[1..] == d[1..];
    }
  }

  /** The keys already present keep their positions. */
  lemma {:induction false} SetPositions(d: Dict, k: string, v: int)
    ensures forall i :: 0 <= i < |d| ==> Set(d, k, v)[i].0 == d[i].0
    decreases |d|
  {
    if d != [] && d[0].0 != k {
      SetPositions(d[1..], k, v);
      var rest := Set(d[1..], k, v);
      var r := Set(d, k, v);
      assert r == [d[0]] + rest;
      forall i | 0 < i < |d| ensures r[i].0 == d[i].0 {
        assert r[i] == rest[i - 1] && d[i] == d[1..][i - 1];
      }
    }
  }

  /** The keys after `d[k] = v` are the old ones plus `k`. */
  lemma SetKeys(d: Dict, k: string, v: int)
    ensures forall i :: 0 <= i < |d| ==> Set(d, k, v)[i].0 == d[i].0
    ensures forall j :: Has(Set(d, k, v), j) <==> Has(d, j) || j == k
  {
    SetPositions(d, k, v);
    var r := Set(d, k, v);
    if Has(d, k) {
      forall j ensures Has(r, j) <==> Has(d, j) || j == k {
        if Has(r, j) {
          var i :| 0 <= i < |r| && r[i].0 == j;
          assert d[i].0 == j;
        }
        if Has(d, j) {
          var i :| 0 <= i < |d| && d[i].0 == j;
          assert r[i].0 == j;
        }
      }
    } else {
      assert r[|d|].0 == k;
      forall j ensures Has(r, j) <==> Has(d, j) || j == k {
        if Has(r, j) {
          var i :| 0 <= i < |r| && r[i].0 == j;
          if i < |d| { assert d[i].0 == j; }
        }
        if Has(d, j) {
          var i :| 0 <= i < |d| && d[i].0 == j;
          assert r[i].0 == j;
        }
      }
    }
  }

  lemma SetDistinct(d: Dict, k: string, v: int)
    requires DistinctKeys(d)
    ensures DistinctKeys(Set(d, k, v))
  {
    var r := Set(d, k, v);
    SetKeys(d, k, v);
    if Has(d, k) {
      assert forall i :: 0 <= i < |r| ==> r[i].0 == d[i].0;
    } else {
      forall i, j | 0 <= i < j < |r| ensures r[i].0 != r[j].0 {
        if j == |d| {
          assert r[i].0 == d[i].0;
        }
      }
    }
  }

  lemma {:induction false} SetNonNegative(d: Dict, k: string, v: int)
    requires NonNegative(d) && v >= 0
    ensures NonNegative(Set(d, k, v))
    decreases |d|
  {
    if d != [] && d[0].0 != k {
      SetNonNegative(d[1..], k, v);
      var rest := Set(d[1..], k, v);
      assert Set(d, k, v) == [d[0]] + rest;
    }
  }

  /** `d[k] += 1` on a `defaultdict(int)`: a missing key starts from 0. */
  function Inc(d: Dict, k: string): (r: Dict)
    ensures Get(r, k) == Get(d, k) + 1
    ensures forall j :: j != k ==> Get(r, j) == Get(d, j)
    ensures Has(r, k)
  {
    SetGet(d, k, Get(d, k) + 1);
    SetKeys(d, k, Get(d, k) + 1);
    Set(d, k, Get(d, k) + 1)
  }

  lemma IncDistinct(d: Dict, k: string)
    requires DistinctKeys(d)
    ensures DistinctKeys(Inc(d, k))
  {
    SetDistinct(d, k, Get(d, k) + 1);
  }

  lemma IncNonNegative(d: Dict, k: string)
    requires NonNegative(d)
    ensures NonNegative(Inc(d, k))
  {
    GetNonNegative(d, k);
    SetNonNegative(d, k, Get(d, k) + 1);
  }

  /** The entries whose count is positive, in dict order. */
  function PositiveEntries(d: Dict): (p: Dict)
    ensures |p| <= |d|
    ensures forall e :: e in p <==> e in d && e.1 > 0
  {
    if d == [] then []
    else
      var last := d[|d| - 1];
      assert forall e :: e in d <==> e in d[..|d| - 1] || e == last;
      PositiveEntries(d[..|d| - 1]) + (if last.1 > 0 then [last] else [])
  }

  /** Each positive entry is kept as often as it occurs in `d`, and no other entry is. */
  lemma {:induction false} PositiveEntriesCount(d: Dict)
    ensures forall e :: multiset(PositiveEntries(d))[e] == if e.1 > 0 then multiset(d)[e] else 0
    decreases |d|
  {
    if d != [] {
      var init, last := d[..|d| - 1], d[|d| - 1];
      assert d == init + [last];
      PositiveEntriesCount(init);
      assert PositiveEntries(d) == PositiveEntries(init) + (if last.1 > 0 then [last] else []);
    }
  }

  /** Filtering one more entry of `s` appends it exactly when its count is positive. */
  lemma PositiveEntriesStep(s: Dict, i: int)
    requires 0 <= i < |s|
    ensures PositiveEntries(s[..i + 1]) == PositiveEntries(s[..i]) + (if s[i].1 > 0 then [s[i]] else [])
  {
    assert s[..i + 1][..i] == s[..i];
  }

  /** Two positive entries of `d` appear in the filtered sequence in the order they have in `d`. */
  lemma {:induction false} PositiveEntriesOrder(d: Dict, i: int, j: int)
    requires 0 <= i < j < |d| && d[i].1 > 0 && d[j].1 > 0
    ensures Precedes(PositiveEntries(d), d[i], d[j])
    decreases |d|
  {
    var init, last := d[..|d| - 1], d[|d| - 1];
    var p0 := PositiveEntries(init);
    var tail := if last.1 > 0 then [last] else [];
    assert PositiveEntries(d) == p0 + tail;
    assert init[i] == d[i];
    if j == |d| - 1 {
      PositiveMember(init, i);
      var a :| 0 <= a < |p0| && p0[a] == d[i];
      PrecedesLast(p0, a, last);
    } else {
      assert init[j] == d[j];
      PositiveEntriesOrder(init, i, j);
      PrecedesAppend(p0, tail, d[i], d[j]);
    }
  }

  /** `x` occurs in `s` before an occurrence of `y`. */
  ghost predicate Precedes(s: Dict, x: Entry, y: Entry) {
    exists a, b :: 0 <= a < b < |s| && s[a] == x && s[b] == y
  }

  lemma PrecedesAppend(s: Dict, t: Dict, x: Entry, y: Entry)
    requires Precedes(s, x, y)
    ensures Precedes(s + t, x, y)
  {
    var a, b :| 0 <= a < b < |s| && s[a] == x && s[b] == y;
    assert (s + t)[a] == x && (s + t)[b] == y;
  }

  lemma PrecedesLast(s: Dict, a: int, y: Entry)
    requires 0 <= a < |s|
    ensures Precedes(s + [y], s[a], y)
  {
    assert (s + [y])[a] == s[a] && (s + [y])[|s|] == y;
  }

  lemma PositiveMember(d: Dict, i: int)
    requires 0 <= i < |d| && d[i].1 > 0
    ensures exists a :: 0 <= a < |PositiveEntries(d)| && PositiveEntries(d)[a] == d[i]
  {
    assert d[i] in d;
    assert d[i] in PositiveEntries(d);
  }

  /** No entry occurs twice in a dict whose keys are distinct. */
  lemma {:induction false} DistinctKeysSingle(d: Dict, e: Entry)
    requires DistinctKeys(d)
    ensures multiset(d)[e] <= 1
    decreases |d|
  {
    if d != [] {
      var init, last := d[..|d| - 1], d[|d| - 1];
      assert d == init + [last];
      DistinctKeysSingle(init, e);
      if last == e {
        forall m | 0 <= m < |init| ensures init[m] != e {
          assert d[m].0 != d[|d| - 1].0;
        }
        assert multiset(init)[e] == 0;
      }
    }
  }

  /** An entry at two positions occurs at least twice. */
  lemma CountTwo(s: Dict, a: int, b: int)
    requires 0 <= a < b < |s|
    ensures s[a] == s[b] ==> multiset(s)[s[a]] >= 2
  {
    if s[a] == s[b] {
      assert s == s[..b] + s[b..];
      assert s[a] == s[..b][a] && s[b] == s[b..][0];
    }
  }

  /** Entries drawn from a dict with distinct keys, each at most as often, again have distinct keys. */
  lemma DistinctKeysSubMultiset(d: Dict, s: Dict)
    requires DistinctKeys(d) && multiset(s) <= multiset(d)
    ensures DistinctKeys(s)
  {
    forall a, b | 0 <= a < b < |s| ensures s[a].0 != s[b].0 {
      var x, y := s[a], s[b];
      assert x in multiset(d) && y in multiset(d);
      var m :| 0 <= m < |d| && d[m] == x;
      var n :| 0 <= n < |d| && d[n] == y;
      assert m != n ==> d[m].0 != d[n].0;
      CountTwo(s, a, b);
      DistinctKeysSingle(d, x);
    }
  }

  lemma PositiveEntriesDistinct(d: Dict)
    requires DistinctKeys(d)
    ensures DistinctKeys(PositiveEntries(d))
  {
    PositiveEntriesCount(d);
    DistinctKeysSubMultiset(d, PositiveEntries(d));
  }

  /** Python's ordering of `(str, int)` tuples: by key, then by count. */
  predicate EntryLess(a: Entry, b: Entry) {
    Text.StrLess(a.0, b.0) || (a.0 == b.0 && a.1 < b.1)
  }

  ghost predicate Sorted(s: Dict) {
    forall i, j :: 0 <= i < j < |s| ==> !EntryLess(s[j], s[i])
  }

  /** Insert into an ascending sequence. */
  function Insert(e: Entry, s: Dict): (r: Dict)
    ensures multiset(r) == multiset(s) + multiset{e}
    decreases |s|
  {
    if s == [] then [e]
    else if EntryLess(s[0], e) then
      assert s == [s[0]] + s[1..];
      [s[0]] + Insert(e, s[1..])
    else [e] + s
  }

  lemma EntryLessTotal(a: Entry, b: Entry)
    requires a != b
    ensures EntryLess(a, b) || EntryLess(b, a)
  {
    if a.0 != b.0 { Text.StrLessTotal(a.0, b.0); }
  }

  lemma EntryLessTransitive(a: Entry, b: Entry, c: Entry)
    requires EntryLess(a, b) && EntryLess(b, c)
    ensures EntryLess(a, c)
  {
    if Text.StrLess(a.0, b.0) && Text.StrLess(b.0, c.0) { Text.StrLessTransitive(a.0, b.0, c.0); }
  }

  lemma EntryLessAsymmetric(a: Entry, b: Entry)
    requires EntryLess(a, b)
    ensures !EntryLess(b, a)
  {
    if Text.StrLess(a.0, b.0) {
      Text.StrLessAsymmetric(a.0, b.0);
    } else {
      Text.StrLessIrreflexive(a.0);
    }
  }

  lemma {:induction false} InsertSorted(e: Entry, s: Dict)
    requires Sorted(s)
    ensures Sorted(Insert(e, s))
    decreases |s|
  {
    if s != [] {
      if EntryLess(s[0], e) {
        InsertSorted(e, s[1..]);
        var r := Insert(e, s);
        var tail := Insert(e, s[1..]);
        assert r == [s[0]] + tail;
        forall k | 0 <= k < |tail|
          ensures !EntryLess(tail[k], s[0])
        {
          assert tail[k] in multiset(tail);
          if tail[k] == e {
            EntryLessAsymmetric(s[0], e);
          } else {
            assert tail[k] in multiset(s[1..]);
            var m :| 0 <= m < |s[1..]| && s[1..][m] == tail[k];
            assert s[m + 1] == tail[k];
          }
        }
      } else {
        var r := [e] + s;
        forall k | 0 <= k < |s|
          ensures !EntryLess(s[k], e)
        {
          if EntryLess(s[k], e) {
            if s[k] == s[0] {
            } else {
              assert !EntryLess(s[k], s[0]);
              EntryLessTotal(s[0], s[k]);
              EntryLessTransitive(s[0], s[k], e);
            }
          }
        }
      }
    }
  }

  /** `sorted(d.items())`: the entries in ascending tuple order. */
  function SortEntries(d: Dict): (r: Dict)
    ensures multiset(r) == multiset(d)
    decreases |d|
  {
    if d == [] then []
    else
      assert d == [d[0]] + d[1..];
      Insert(d[0], SortEntries(d[1..]))
  }

  lemma {:induction false} SortEntriesSorted(d: Dict)
    ensures Sorted(SortEntries(d))
    decreases |d|
  {
    if d != [] {
      SortEntriesSorted(d[1..]);
      InsertSorted(d[0], SortEntries(d[1..]));
    }
  }

  /** Ascending tuple order puts the keys in ascending string order. */
  lemma SortedKeysAscend(s: Dict, i: int, j: int)
    requires Sorted(s) && 0 <= i < j < |s|
    ensures s[i].0 == s[j].0 || Text.StrLess(s[i].0, s[j].0)
  {
    assert !EntryLess(s[j], s[i]);
    if s[i].0 != s[j].0 { Text.StrLessTotal(s[i].0, s[j].0); }
  }
}
