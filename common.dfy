/** Small shared vocabulary: the optional value that TypeScript writes as
    `T | undefined` or `T | null`, a value-or-error result for calls that can
    throw, and the `filter` of JavaScript arrays. */
module Common {

  datatype Option<T> = None | Some(value: T) {
    function GetOr(default: T): T {
      match this
      case Some(v) => v
      case None => default
    }
  }

  /** A call that either returns a value or throws an error with a message. */
  datatype Result<T> = Ok(value: T) | Err(error: string)

  /** `Array.prototype.filter`: keeps the elements satisfying `p`, in order. */
  function Filter<T>(p: T -> bool, s: seq<T>): (r: seq<T>)
    ensures |r| <= |s|
    ensures forall i :: 0 <= i < |r| ==> r[i] in s && p(r[i])
    ensures forall i :: 0 <= i < |s| && p(s[i]) ==> s[i] in r
  {
    if s == [] then []
    else if p(s[0]) then [s[0]] + Filter(p, s[1..])
    else Filter(p, s[1..])
  }

  /** Filtering a concatenation filters each part: the filter keeps input order. */
  lemma {:induction false} FilterConcat<T>(p: T -> bool, a: seq<T>, b: seq<T>)
    ensures Filter(p, a + b) == Filter(p, a) + Filter(p, b)
  {
    if a == [] {
      assert a + b == b;
    } else {
      assert (a + b)[1..] == a[1..] + b;
      FilterConcat(p, a[1..], b);
    }
  }

  /** An element of the list is kept exactly when it passes. */
  lemma FilterHas<T>(p: T -> bool, s: seq<T>, i: nat)
    requires i < |s|
    ensures s[i] in Filter(p, s) <==> p(s[i])
  {
    var r := Filter(p, s);
    if s[i] in r {
      var j :| 0 <= j < |r| && r[j] == s[i];
    }
  }

  /** Filtering a non-empty list keeps the head exactly when it passes. */
  lemma FilterLengthHead<T>(p: T -> bool, s: seq<T>)
    requires s != []
    ensures |Filter(p, s)| == |Filter(p, s[1..])| + if p(s[0]) then 1 else 0
  {
  }

  /** A filter whose predicate holds everywhere returns its input. */
  lemma {:induction false} FilterKeepsAll<T>(p: T -> bool, s: seq<T>)
    requires forall i :: 0 <= i < |s| ==> p(s[i])
    ensures Filter(p, s) == s
  {
    if s != [] {
      FilterKeepsAll(p, s[1..]);
    }
  }

  /** A filter comes back empty exactly when no element passes. */
  lemma FilterEmptyIff<T>(p: T -> bool, s: seq<T>)
    ensures |Filter(p, s)| == 0 <==> forall i :: 0 <= i < |s| ==> !p(s[i])
  {
    if forall i :: 0 <= i < |s| ==> !p(s[i]) {
      FilterDropsAll(p, s);
    }
  }

  /** A filter whose predicate holds nowhere returns the empty sequence. */
  lemma {:induction false} FilterDropsAll<T>(p: T -> bool, s: seq<T>)
    requires forall i :: 0 <= i < |s| ==> !p(s[i])
    ensures Filter(p, s) == []
  {
    if s != [] {
      FilterDropsAll(p, s[1..]);
    }
  }

  /** Filtering by a predicate and by its negation splits the input: the two
      lengths add up to the whole. */
  lemma {:induction false} FilterComplementLength<T>(p: T -> bool, q: T -> bool, s: seq<T>)
    requires forall x :: q(x) == !p(x)
    ensures |Filter(p, s)| + |Filter(q, s)| == |s|
  {
    if s != [] {
      FilterComplementLength(p, q, s[1..]);
    }
  }

  /** Two predicates that agree on every element give the same filter. */
  lemma {:induction false} FilterSameOn<T>(p: T -> bool, q: T -> bool, s: seq<T>)
    requires forall i :: 0 <= i < |s| ==> p(s[i]) == q(s[i])
    ensures Filter(p, s) == Filter(q, s)
  {
    if s != [] {
      FilterSameOn(p, q, s[1..]);
    }
  }

  /** The elements of a sequence are pairwise distinct. */
  predicate Distinct<T(==)>(s: seq<T>) {
    forall i, j :: 0 <= i < j < |s| ==> s[i] != s[j]
  }

  /** A sequence of distinct elements has as many elements as its set. */
  lemma {:induction false} DistinctCardinality<T>(s: seq<T>)
    requires Distinct(s)
    ensures |set x | x in s| == |s|
  {
    if s != [] {
      DistinctCardinality(s[1..]);
      assert (set x | x in s) == (set x | x in s[1..]) + {s[0]};
      assert s[0] !in s[1..] by {
        forall k | 0 <= k < |s[1..]| ensures s[1..][k] != s[0] {
          assert s[1..][k] == s[k + 1];
        }
      }
    }
  }

  /** A sequence with a repeated element has fewer distinct elements than entries. */
  lemma {:induction false} RepeatedCardinality<T>(s: seq<T>, i: nat, j: nat)
    requires i < j < |s| && s[i] == s[j]
    ensures |set x | x in s| < |s|
  {
    if i == 0 {
      assert s[0] in s[1..] by { assert s[1..][j - 1] == s[j]; }
      SetOfSeqBound(s[1..]);
      assert (set x | x in s) == (set x | x in s[1..]);
    } else {
      RepeatedCardinality(s[1..], i - 1, j - 1);
      var tail := set x | x in s[1..];
      assert (set x | x in s) == tail + {s[0]};
      if s[0] in tail {
        assert tail + {s[0]} == tail;
      } else {
        assert |tail + {s[0]}| == |tail| + 1;
      }
    }
  }

  /** A sequence never has more distinct elements than entries. */
  lemma {:induction false} SetOfSeqBound<T>(s: seq<T>)
    ensures |set x | x in s| <= |s|
  {
    if s != [] {
      SetOfSeqBound(s[1..]);
      assert (set x | x in s) == (set x | x in s[1..]) + {s[0]};
    }
  }
}
