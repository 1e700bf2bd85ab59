/** PHP arrays used as tallies: `array_count_values($xs)` and the loop
    `$counts[$x] = ($counts[$x] ?? 0) + 1`. A PHP array keeps its keys in insertion order, so a
    tally is modelled as a sequence of (key, count) entries in first-occurrence order. */
module Counting {
  import opened Seqs

  datatype Tally<K> = Tally(key: K, count: nat)

  function KeysOf<K>(c: seq<Tally<K>>): (ks: seq<K>)
    ensures |ks| == |c| && forall i :: 0 <= i < |c| ==> ks[i] == c[i].key
  {
    if c == [] then [] else [c[0].key] + KeysOf(c[1..])
  }

  /** `$counts[$k] ?? 0`. */
  function Lookup<K(==)>(c: seq<Tally<K>>, k: K): nat {
    if c == [] then 0 else if c[0].key == k then c[0].count else Lookup(c[1..], k)
  }

  /** The sum of all counts. */
  function Total<K>(c: seq<Tally<K>>): nat {
    if c == [] then 0 else c[0].count + Total(c[1..])
  }

  /** Every entry counts at least one occurrence. */
  predicate Positive<K>(c: seq<Tally<K>>) {
    forall i :: 0 <= i < |c| ==> c[i].count > 0
  }

  /** `$counts[$k] = ($counts[$k] ?? 0) + 1`: increments an existing entry in place, or appends
      a new entry with count 1. */
  function Bump<K(==)>(c: seq<Tally<K>>, k: K): (r: seq<Tally<K>>)
    ensures Lookup(r, k) == Lookup(c, k) + 1
    ensures Total(r) == Total(c) + 1
  {
    if c == [] then [Tally(k, 1)]
    else if c[0].key == k then [Tally(k, c[0].count + 1)] + c[1..]
    else [c[0]] + Bump(c[1..], k)
  }

  /** After bumping, `k` is a key. */
  lemma {:induction false} BumpHasKey<K>(c: seq<Tally<K>>, k: K)
    ensures k in KeysOf(Bump(c, k))
  {
    if c != [] && c[0].key != k {
      BumpHasKey(c[1..], k);
      assert KeysOf(Bump(c, k)) == [c[0].key] + KeysOf(Bump(c[1..], k));
    }
  }

  /** Bumping creates no zero entry. */
  lemma {:induction false} BumpPositive<K>(c: seq<Tally<K>>, k: K)
    requires Positive(c)
    ensures Positive(Bump(c, k))
  {
    if c != [] && c[0].key != k {
      BumpPositive(c[1..], k);
    }
  }

  /** Bumping creates no duplicate key. */
  lemma {:induction false} BumpDistinct<K>(c: seq<Tally<K>>, k: K)
    requires Distinct(KeysOf(c))
    ensures Distinct(KeysOf(Bump(c, k)))
  {
    if c != [] && c[0].key != k {
      var tail := KeysOf(c[1..]);
      assert KeysOf(c) == [c[0].key] + tail;
      assert Distinct(tail) by {
        forall i, j | 0 <= i < j < |tail| ensures tail[i] != tail[j] {
          assert KeysOf(c)[i + 1] == tail[i] && KeysOf(c)[j + 1] == tail[j];
        }
      }
      BumpDistinct(c[1..], k);
      var rest := KeysOf(Bump(c[1..], k));
      assert KeysOf(Bump(c, k)) == [c[0].key] + rest;
      BumpOther(c[1..], k, c[0].key);
    }
  }

  /** Bumping `k` leaves every other key's count and membership as it was. */
  lemma {:induction false} BumpOther<K>(c: seq<Tally<K>>, k: K, x: K)
    requires x != k
    ensures Lookup(Bump(c, k), x) == Lookup(c, x)
    ensures x in KeysOf(Bump(c, k)) <==> x in KeysOf(c)
  {
    if c != [] && c[0].key != k {
      BumpOther(c[1..], k, x);
      assert KeysOf(Bump(c, k)) == [c[0].key] + KeysOf(Bump(c[1..], k));
      assert KeysOf(c) == [c[0].key] + KeysOf(c[1..]);
    }
  }

  /** `array_count_values($s)`, equivalently the counting loop run over `$s` in order. */
  function CountValues<K(==)>(s: seq<K>): (r: seq<Tally<K>>)
    ensures Total(r) == |s|
  {
    if s == [] then [] else Bump(CountValues(s[..|s| - 1]), s[|s| - 1])
  }

  /** Counting one more value bumps its entry. */
  lemma CountValuesSnoc<K>(s: seq<K>, k: K)
    ensures CountValues(s + [k]) == Bump(CountValues(s), k)
  {
    assert (s + [k])[..|s|] == s;
  }

  /** Each key's count is its number of occurrences in `s`. */
  lemma {:induction false} CountValuesLookup<K>(s: seq<K>, x: K)
    ensures Lookup(CountValues(s), x) == Count(s, x)
  {
    if s != [] {
      var init, last := s[..|s| - 1], s[|s| - 1];
      assert s == init + [last];
      CountAppend(init, [last], x);
      CountValuesLookup(init, x);
      if x != last {
        BumpOther(CountValues(init), last, x);
      }
    }
  }

  /** The keys are exactly the distinct values of `s`. */
  lemma {:induction false} CountValuesKeys<K>(s: seq<K>, x: K)
    ensures x in KeysOf(CountValues(s)) <==> x in s
  {
    if s != [] {
      var init, last := s[..|s| - 1], s[|s| - 1];
      assert s == init + [last];
      CountValuesKeys(init, x);
      if x != last {
        BumpOther(CountValues(init), last, x);
      } else {
        BumpHasKey(CountValues(init), last);
      }
    }
  }

  /** The tally has no duplicate key, no zero entry, and its counts add up to `|s|`. */
  lemma {:induction false} CountValuesShape<K>(s: seq<K>)
    ensures Distinct(KeysOf(CountValues(s)))
    ensures Positive(CountValues(s))
    ensures Total(CountValues(s)) == |s|
  {
    if s != [] {
      CountValuesShape(s[..|s| - 1]);
      BumpPositive(CountValues(s[..|s| - 1]), s[|s| - 1]);
      BumpDistinct(CountValues(s[..|s| - 1]), s[|s| - 1]);
    }
  }
}
