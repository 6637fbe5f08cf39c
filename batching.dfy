/**
 * The batches `load_csv_data` sends: rows are appended to a list that is
 * flushed whenever it holds `n` records, and a non-empty remainder is
 * flushed at the end.
 */
module Batching {

  /** The batches in order, concatenated. */
  function Flatten<T>(batches: seq<seq<T>>): seq<T>
  {
    if batches == [] then [] else batches[0] + Flatten(batches[1..])
  }

  /** The batches flushed for `s` with batch size `n`. */
  function Chunks<T>(s: seq<T>, n: nat): (batches: seq<seq<T>>)
    requires n > 0
    ensures batches == [] <==> s == []
    decreases |s|
  {
    if s == [] then []
    else if |s| <= n then [s]
    else [s[..n]] + Chunks(s[n..], n)
  }

  /** The flushed batches give back `s` in order. */
  lemma {:induction false} ChunksFlatten<T>(s: seq<T>, n: nat)
    requires n > 0
    ensures Flatten(Chunks(s, n)) == s
    decreases |s|
  {
    if s == [] {
    } else if |s| <= n {
      assert [s][1..] == [];
      assert Flatten([s]) == s + Flatten<T>([]);
      assert s + [] == s;
    } else {
      var batches := [s[..n]] + Chunks(s[n..], n);
      assert batches[0] == s[..n] && batches[1..] == Chunks(s[n..], n);
      calc {
        Flatten(Chunks(s, n));
        Flatten(batches);
        s[..n] + Flatten(Chunks(s[n..], n));
      == { ChunksFlatten(s[n..], n); }
        s[..n] + s[n..];
      == { assert s[..n] + s[n..] == s; }
        s;
      }
    }
  }

  /** No flushed batch is empty, none exceeds `n`, and all but the last hold exactly `n`. */
  lemma {:induction false} ChunksSizes<T>(s: seq<T>, n: nat)
    requires n > 0
    ensures forall i :: 0 <= i < |Chunks(s, n)| ==> 0 < |Chunks(s, n)[i]| <= n
    ensures forall i :: 0 <= i < |Chunks(s, n)| - 1 ==> |Chunks(s, n)[i]| == n
    decreases |s|
  {
    if |s| > n {
      var rest := Chunks(s[n..], n);
      ChunksSizes(s[n..], n);
      assert Chunks(s, n) == [s[..n]] + rest;
      assert forall i :: 1 <= i < |Chunks(s, n)| ==> Chunks(s, n)[i] == rest[i - 1];
    }
  }

  /**
   * The number of flushes is the number of rows divided by `n`, rounded up:
   * `k` batches hold more than `(k - 1) * n` rows and at most `k * n`.
   */
  lemma {:induction false} ChunksCount<T>(s: seq<T>, n: nat)
    requires n > 0
    ensures (|Chunks(s, n)| - 1) * n < |s| <= |Chunks(s, n)| * n
    decreases |s|
  {
    if |s| > n {
      ChunksCount(s[n..], n);
      var k := |Chunks(s[n..], n)|;
      assert |Chunks(s, n)| == k + 1;
      assert (k + 1) * n == k * n + n;
    }
  }

  /** With the loader's batch size of 500 that is `ceil(|s| / 500)` writes. */
  lemma ChunksCount500<T>(s: seq<T>)
    ensures |Chunks(s, 500)| == (|s| + 499) / 500
  {
    ChunksCount(s, 500);
  }

  /** Cutting after `k` whole batches cuts the batch list in two. */
  lemma {:induction false} ChunksAppend<T>(a: seq<T>, b: seq<T>, n: nat, k: nat)
    requires n > 0 && |a| == k * n
    ensures Chunks(a + b, n) == Chunks(a, n) + Chunks(b, n)
    decreases k
  {
    if k == 0 {
      assert a == [] && a + b == b;
    } else {
      OneBatchLess(k, n);
      var head, a' := a[..n], a[n..];
      ChunksAppend(a', b, n, k - 1);
      assert (a + b)[..n] == head && (a + b)[n..] == a' + b;
      if a' == [] && b == [] {
        assert a + b == a;
      } else {
        assert Chunks(a + b, n) == [head] + Chunks(a' + b, n);
        if a' == [] {
          assert a == head;
        } else {
          assert Chunks(a, n) == [head] + Chunks(a', n);
        }
        assert [head] + (Chunks(a', n) + Chunks(b, n)) == ([head] + Chunks(a', n)) + Chunks(b, n);
      }
    }
  }

  lemma OneBatchLess(k: nat, n: nat)
    requires k > 0
    ensures k * n == (k - 1) * n + n
  {
  }

  /** A remainder of 1 to `n` rows is flushed as one batch. */
  lemma ChunksOfShort<T>(s: seq<T>, n: nat)
    requires 0 < |s| <= n
    ensures Chunks(s, n) == [s]
  {
  }
}
