/**
 * `AirlineGraphBuilder.load_csv_data` of create_kg.py: check the header,
 * map each row, and write the records in batches of 500, one `session.run`
 * per batch.
 */
module Loader {

  import opened Options
  import opened Records
  import opened Batching
  import opened KnowledgeGraph

  /** The loader's `batch_size`. */
  const BatchSize: nat := 500

  /** How a load ends; the source prints these and returns nothing. */
  datatype LoadOutcome = CsvNotFound | MissingColumns(missing: seq<string>) | Imported(rowCount: nat)

  /** The records of a table that passed the column check, in row order. */
  function LoadedRecords(t: Table): (recs: seq<Record>)
    requires WellShaped(t) && Missing(t.columns) == []
    ensures |recs| == |t.rows|
    ensures forall i :: 0 <= i < |t.rows| ==> RowFits(t.rows[i]) && recs[i] == ToRecord(t.rows[i], FloatColumns(t.rows))
  {
    RowsFit(t);
    RecordsOf(t.rows)
  }

  /** A full batch closes off `k` whole batches. */
  lemma FlushFull(g: Graph, recs: seq<Record>, k: nat, batch: seq<Record>)
    requires (k + 1) * 500 <= |recs| && batch == recs[k * 500..(k + 1) * 500]
    ensures recs[..(k + 1) * 500] == recs[..k * 500] + batch
    ensures Chunks(recs[..(k + 1) * 500], BatchSize) == Chunks(recs[..k * 500], BatchSize) + [batch]
    ensures UpsertAll(g, recs[..(k + 1) * 500]) == UpsertAll(UpsertAll(g, recs[..k * 500]), batch)
  {
    assert recs[..(k + 1) * 500] == recs[..k * 500] + batch;
    ChunksAppend(recs[..k * 500], batch, BatchSize, k);
    ChunksOfShort(batch, BatchSize);
    UpsertAllAppend(g, recs[..k * 500], batch);
  }

  /** The remainder after `k` whole batches completes the row sequence. */
  lemma FlushRest(g: Graph, recs: seq<Record>, k: nat, batch: seq<Record>)
    requires k * 500 <= |recs| && batch == recs[k * 500..] && |batch| < BatchSize
    ensures Chunks(recs, BatchSize) == Chunks(recs[..k * 500], BatchSize) + (if batch == [] then [] else [batch])
    ensures UpsertAll(g, recs) == UpsertAll(UpsertAll(g, recs[..k * 500]), batch)
  {
    assert recs == recs[..k * 500] + batch;
    ChunksAppend(recs[..k * 500], batch, BatchSize, k);
    if batch != [] {
      ChunksOfShort(batch, BatchSize);
    }
    UpsertAllAppend(g, recs[..k * 500], batch);
  }

  lemma ConcatAssoc<T>(a: seq<T>, b: seq<T>, c: seq<T>)
    ensures (a + b) + c == a + (b + c)
  {
  }

  lemma SliceExtend<T>(s: seq<T>, lo: nat, hi: nat)
    requires lo <= hi < |s|
    ensures s[lo..hi + 1] == s[lo..hi] + [s[hi]]
  {
  }

  /** The graph builder; `store` stands for the database behind its driver. */
  class AirlineGraphBuilder {
    const store: GraphStore

    constructor (store: GraphStore)
      ensures this.store == store
    {
      this.store := store;
    }

    /**
     * Load a CSV file (`None` when it does not exist).  Without the file or
     * with a required column missing nothing is opened or written; otherwise
     * one session is opened, the batches written are `Chunks` of the records
     * and the store ends as the records applied in order.
     */
    method LoadCsvData(csv: Option<Table>) returns (outcome: LoadOutcome)
      requires csv.Some? ==> WellShaped(csv.value)
      modifies store
      ensures csv.None? ==> outcome == CsvNotFound && unchanged(store)
      ensures csv.Some? && Missing(csv.value.columns) != [] ==>
        outcome == MissingColumns(Missing(csv.value.columns)) && unchanged(store)
      ensures csv.Some? && Missing(csv.value.columns) == [] ==>
        && outcome == Imported(|csv.value.rows|)
        && store.sessions == old(store.sessions) + 1
        && store.writes == old(store.writes) + Chunks(LoadedRecords(csv.value), BatchSize)
        && store.State() == UpsertAll(old(store.State()), LoadedRecords(csv.value))
    {
      if csv.None? {
        return CsvNotFound;
      }
      var t := csv.value;
      var missing := Missing(t.columns);
      if missing != [] {
        return MissingColumns(missing);
      }
      RowsFit(t);
      store.OpenSession();
      var records := RecordsOf(t.rows);
      ImportRecords(records);
      return Imported(|t.rows|);
    }

    /** The store holds what writing `done` in batches from writes `w0` and graph `g0` gives. */
    ghost predicate Written(w0: seq<seq<Record>>, g0: Graph, done: seq<Record>)
      reads store
    {
      store.writes == w0 + Chunks(done, BatchSize) && store.State() == UpsertAll(g0, done)
    }

    /**
     * The loop of `load_csv_data` inside the open session: append each
     * record to `batch`, write and empty it once it holds `BatchSize`
     * records, and write what is left at the end.
     */
    method ImportRecords(recs: seq<Record>)
      modifies store
      ensures store.sessions == old(store.sessions)
      ensures store.writes == old(store.writes) + Chunks(recs, BatchSize)
      ensures store.State() == UpsertAll(old(store.State()), recs)
    {
      ghost var w0, g0 := store.writes, store.State();
      ghost var flushed: nat := 0;
      ghost var start: nat := 0;
      assert recs[..0] == [];
      var batch: seq<Record> := [];
      var i := 0;
      while i < |recs|
        invariant 0 <= i <= |recs| && |batch| < BatchSize
        invariant start == flushed * 500 && start + |batch| == i
        invariant batch == recs[start..i]
        invariant Written(w0, g0, recs[..start])
        invariant store.sessions == old(store.sessions)
      {
        var rowData := recs[i];
        SliceExtend(recs, start, i);
        batch := batch + [rowData];
        if |batch| >= BatchSize {
          WriteFullBatch(batch, recs, flushed, w0, g0);
          batch := [];
          flushed := flushed + 1;
          start := start + 500;
        }
        i := i + 1;
      }
      WriteLastBatch(batch, recs, flushed, w0, g0);
    }

    /** The `if batch:` after the loop: write the short remainder, if any, completing `Chunks(recs, BatchSize)`. */
    method WriteLastBatch(batch: seq<Record>, ghost recs: seq<Record>, ghost k: nat, ghost w0: seq<seq<Record>>, ghost g0: Graph)
      requires k * 500 <= |recs| && batch == recs[k * 500..] && |batch| < BatchSize
      requires Written(w0, g0, recs[..k * 500])
      modifies store
      ensures store.writes == w0 + Chunks(recs, BatchSize)
      ensures store.State() == UpsertAll(g0, recs)
      ensures store.sessions == old(store.sessions)
    {
      FlushRest(g0, recs, k, batch);
      if batch != [] {
        store.RunImport(batch);
        ConcatAssoc(w0, Chunks(recs[..k * 500], BatchSize), [batch]);
      } else {
        assert Chunks(recs[..k * 500], BatchSize) + [] == Chunks(recs[..k * 500], BatchSize);
      }
    }

    /** One `session.run` on the `k`-th full batch of `recs`, extending what was written by one batch. */
    method WriteFullBatch(batch: seq<Record>, ghost recs: seq<Record>, ghost k: nat, ghost w0: seq<seq<Record>>, ghost g0: Graph)
      requires (k + 1) * 500 <= |recs| && batch == recs[k * 500..(k + 1) * 500]
      requires Written(w0, g0, recs[..k * 500])
      modifies store
      ensures Written(w0, g0, recs[..(k + 1) * 500])
      ensures store.sessions == old(store.sessions)
    {
      FlushFull(g0, recs, k, batch);
      store.RunImport(batch);
      ConcatAssoc(w0, Chunks(recs[..k * 500], BatchSize), [batch]);
    }
  }
}
