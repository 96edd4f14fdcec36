/** Rows sent in batches: `StreamQuery` of `internal/db/mysql/stream.go`, into a sink, and
    `streamRowsOverWS` of `internal/api/ws.go`, over a socket, with a limit. */
module RowStream {
  import opened Text
  import opened Lists

  type Row = string

  /** One step of the cursor that comes after a true `Next`. */
  datatype Fetch = Fetched(row: Row) | ScanFails(error: string)

  /** What the database answers: the query, the columns, the rows, and `rows.Err`. */
  datatype Cursor = Cursor(queryError: Option<string>, columnsError: Option<string>, columns: seq<string>,
                           fetches: seq<Fetch>, endError: Option<string>)

  /** The `k`-th look at the context, and what the `k`-th batch comes to. */
  datatype Weather = Weather(ctx: nat -> Option<string>, batch: nat -> Option<string>)

  datatype Call =
    | Columns(columns: seq<string>)
    | Batch(rows: seq<Row>, offset: nat)
    | Done(total: nat)
    | Error(error: string)

  function RowsOf(c: Call): seq<Row> { if c.Batch? then c.rows else [] }

  /** All rows that the calls deliver, in order. */
  function Delivered(calls: seq<Call>): seq<Row> { FlatMap(RowsOf, calls) }

  function RowOf(f: Fetch): seq<Row> { if f.Fetched? then [f.row] else [] }
  function RowsIn(fetches: seq<Fetch>): seq<Row> { FlatMap(RowOf, fetches) }

  predicate AllFetched(fetches: seq<Fetch>) { forall i :: 0 <= i < |fetches| ==> fetches[i].Fetched? }

  /** Batches follow each other: none is empty or too large, each starts where the ones
      before it end, and only the last may be short. */
  predicate Chunked(calls: seq<Call>, size: nat) {
    && (forall i :: 0 <= i < |calls| && calls[i].Batch? ==>
          0 < |calls[i].rows| <= size && calls[i].offset == |Delivered(calls[..i])|)
    && (forall i, j :: 0 <= i < j < |calls| && calls[i].Batch? && calls[j].Batch? ==> |calls[i].rows| == size)
  }

  predicate Final(c: Call) { c.Done? || c.Error? }

  /** Exactly one call says how it ended, and it is the last. */
  predicate EndsOnce(calls: seq<Call>) {
    calls != [] && Final(calls[|calls| - 1]) && forall i :: 0 <= i < |calls| - 1 ==> !Final(calls[i])
  }

  predicate Under(calls: seq<Call>) { forall i :: 0 <= i < |calls| ==> !Final(calls[i]) }

  // ---------- one more call ----------

  lemma DeliveredMore(calls: seq<Call>, c: Call)
    ensures Delivered(calls + [c]) == Delivered(calls) + RowsOf(c)
  {
    FlatMapAppend(RowsOf, calls, [c]);
    FlatMapOne(RowsOf, c);
  }

  /** Every batch so far was full, so one more may follow. */
  predicate Full(calls: seq<Call>, size: nat) {
    forall i :: 0 <= i < |calls| && calls[i].Batch? ==> |calls[i].rows| == size
  }

  lemma ChunkedMore(calls: seq<Call>, size: nat, c: Call)
    requires Chunked(calls, size)
    requires c.Batch? ==> Full(calls, size) && 0 < |c.rows| <= size && c.offset == |Delivered(calls)|
    ensures Chunked(calls + [c], size)
    ensures Full(calls, size) && (c.Batch? ==> |c.rows| == size) ==> Full(calls + [c], size)
  {
    var all := calls + [c];
    forall i | 0 <= i < |all| && all[i].Batch?
      ensures 0 < |all[i].rows| <= size && all[i].offset == |Delivered(all[..i])|
    {
      if i < |calls| {
        assert all[..i] == calls[..i];
      } else {
        assert all[..i] == calls;
      }
    }
  }

  lemma RowsInMore(fetches: seq<Fetch>, i: nat)
    requires i < |fetches| && fetches[i].Fetched?
    ensures RowsIn(fetches[..i + 1]) == RowsIn(fetches[..i]) + [fetches[i].row]
  {
    FlatMapStep(RowOf, fetches, i);
  }

  // ---------- StreamQuery ----------

  /** Nothing goes wrong. */
  ghost predicate Fair(cur: Cursor, w: Weather) {
    && cur.queryError == None && cur.columnsError == None && cur.endError == None && AllFetched(cur.fetches)
    && (forall k :: w.ctx(k) == None) && forall k :: w.batch(k) == None
  }

  /** The rows before the first that cannot be read. */
  function Readable(fetches: seq<Fetch>): seq<Row> {
    if fetches == [] || fetches[0].ScanFails? then [] else [fetches[0].row] + Readable(fetches[1..])
  }

  lemma {:induction false} ReadableSoFar(fetches: seq<Fetch>, i: nat)
    requires i <= |fetches| && AllFetched(fetches[..i])
    ensures RowsIn(fetches[..i]) <= Readable(fetches)
    ensures i == |fetches| ==> RowsIn(fetches) == Readable(fetches)
  {
    if i == 0 {
      assert RowsIn(fetches[..0]) == [];
    } else {
      var tail := fetches[1..][..i - 1];
      assert fetches[..i][0].Fetched? && fetches[..i][1..] == tail;
      forall k | 0 <= k < |tail| ensures tail[k].Fetched? { assert fetches[..i][k + 1].Fetched?; }
      ReadableSoFar(fetches[1..], i - 1);
      FlatMapCons(RowOf, fetches[..i]);
      assert fetches[..|fetches|] == fetches && fetches[1..][..|fetches| - 1] == fetches[1..];
    }
  }

  /** What is delivered is a beginning of the source's rows, in well-formed batches; and the
      run ends without error only with all of them. */
  method StreamQuery(cur: Cursor, w: Weather, batchSize: int) returns (calls: seq<Call>, err: Option<string>)
    ensures var size := if batchSize <= 0 then 100 else batchSize;
            Chunked(calls, size) && EndsOnce(calls)
    ensures Delivered(calls) <= Readable(cur.fetches)
    ensures match err
            case None => AllFetched(cur.fetches) && Delivered(calls) == RowsIn(cur.fetches)
                         && calls[|calls| - 1] == Done(|cur.fetches|) && calls[0] == Columns(cur.columns)
            case Some(e) => calls[|calls| - 1] == Error(e)
    ensures err == None ==> cur.queryError == None && cur.columnsError == None && cur.endError == None
    ensures Fair(cur, w) ==> err == None
  {
    hide FlatMap, Chunked, RowsIn, Readable, Full, Delivered, Under, EndsOnce;
    var size := if batchSize <= 0 then 100 else batchSize;
    calls := [];
    Nothing(cur, size);
    if cur.queryError.Some? {
      calls := Report(calls, size, cur.queryError.value);
      return calls, cur.queryError;
    }
    if cur.columnsError.Some? {
      calls := Report(calls, size, cur.columnsError.value);
      return calls, cur.columnsError;
    }
    calls := Head(cur.columns, size);
    var batch, offset, looks, batches;
    calls, batch, offset, looks, batches, err := PumpRows(cur, w, size, calls);
    if err.None? {
      err := cur.endError;
    }
    if err.None? && |batch| > 0 {
      calls, err := EmitBatch(w, looks, batches, calls, batch, offset, size);
      looks := looks + 1;
    }
    if err.None? {
      err := w.ctx(looks);
    }
    if err.Some? {
      calls := Report(calls, size, err.value);
      return;
    }
    ChunkedMore(calls, size, Done(|cur.fetches|));
    DeliveredMore(calls, Done(|cur.fetches|));
    FinalLast(calls, Done(|cur.fetches|));
    calls := calls + [Done(|cur.fetches|)];
  }

  /** The loop over the rows; `batch` is what is left when it ends. */
  method PumpRows(cur: Cursor, w: Weather, size: nat, head: seq<Call>)
    returns (calls: seq<Call>, batch: seq<Row>, offset: nat, looks: nat, batches: nat, err: Option<string>)
    requires size > 0 && Under(head) && head != [] && Chunked(head, size) && Full(head, size) && Delivered(head) == []
    ensures Under(calls) && head <= calls && Chunked(calls, size) && Delivered(calls) <= Readable(cur.fetches)
    ensures err == None ==> AllFetched(cur.fetches) && Full(calls, size) && |batch| < size
                            && RowsIn(cur.fetches) == Delivered(calls) + batch <= Readable(cur.fetches)
                                && offset == |Delivered(calls)|
    ensures Fair(cur, w) ==> err == None
  {
    hide FlatMap, Chunked, RowsIn, Readable, Full, Delivered, Under;
    Nothing(cur, size);
    calls, batch, offset, looks, batches, err := head, [], 0, 0, 0, None;
    var total := 0;
    for i := 0 to |cur.fetches|
      invariant total == i && AllFetched(cur.fetches[..i]) && |batch| < size && err == None
      invariant Under(calls) && head <= calls && Chunked(calls, size) && Full(calls, size)
          && offset == |Delivered(calls)|
      invariant RowsIn(cur.fetches[..i]) == Delivered(calls) + batch <= Readable(cur.fetches)
    {
      err := w.ctx(looks);
      looks := looks + 1;
      if err.Some? {
        return;
      }
      if cur.fetches[i].ScanFails? {
        err := Some(cur.fetches[i].error);
        return;
      }
      RowsInMore(cur.fetches, i);
      ReadableSoFar(cur.fetches, i + 1);
      batch := batch + [cur.fetches[i].row];
      total := total + 1;
      if |batch| >= size {
        calls, err := EmitBatch(w, looks, batches, calls, batch, offset, size);
        looks, batches := looks + 1, batches + 1;
        if err.Some? {
          return;
        }
        offset := offset + |batch|;
        batch := [];
      }
    }
    assert cur.fetches[..|cur.fetches|] == cur.fetches;
  }

  lemma Nothing(cur: Cursor, size: nat)
    ensures Chunked([], size) && Delivered([]) == [] && RowsIn([]) == [] && cur.fetches[..0] == []
    ensures Full([], size) && Under([]) && [] <= Readable(cur.fetches)
  {
  }

  method Head(columns: seq<string>, ghost size: nat) returns (calls: seq<Call>)
    ensures calls == [Columns(columns)] && Under(calls) && Chunked(calls, size) && Full(calls, size)
        && Delivered(calls) == []
  {
    hide Chunked, Full, Delivered;
    calls := [Columns(columns)];
    Nothing(Cursor(None, None, [], [], None), size);
    ChunkedMore([], size, Columns(columns));
    DeliveredMore([], Columns(columns));
    assert [] + [Columns(columns)] == calls;
  }

  lemma FinalLast(calls: seq<Call>, c: Call)
    requires Under(calls) && Final(c)
    ensures EndsOnce(calls + [c])
  {
  }

  /** `emitBatch`: looks at the context first. */
  method EmitBatch(w: Weather, look: nat, number: nat, before: seq<Call>, batch: seq<Row>, offset: nat, ghost size: nat)
    returns (calls: seq<Call>, failure: Option<string>)
    requires Chunked(before, size) && Full(before, size) && Under(before) && offset == |Delivered(before)|
        && 0 < |batch| <= size
    ensures Chunked(calls, size) && Under(calls) && (|batch| == size ==> Full(calls, size))
    ensures calls == before || (calls == before + [Batch(batch, offset)]
        && Delivered(calls) == Delivered(before) + batch)
    ensures failure == None ==> calls != before
    ensures w.ctx(look) == None && w.batch(number) == None ==> failure == None
  {
    hide Chunked, Full, Delivered;
    failure := w.ctx(look);
    if failure.Some? {
      return before, failure;
    }
    ChunkedMore(before, size, Batch(batch, offset));
    DeliveredMore(before, Batch(batch, offset));
    calls := before + [Batch(batch, offset)];
    failure := w.batch(number);
  }

  /** `reportStreamError`: the sink hears of the error, last. */
  method Report(before: seq<Call>, ghost size: nat, error: string) returns (calls: seq<Call>)
    requires Chunked(before, size) && Under(before)
    ensures calls == before + [Error(error)] && Chunked(calls, size) && EndsOnce(calls)
    ensures Delivered(calls) == Delivered(before)
  {
    hide Chunked, Delivered;
    calls := before + [Error(error)];
    ChunkedMore(before, size, Error(error));
    DeliveredMore(before, Error(error));
  }

  // ---------- streamRowsOverWS ----------

  function Clamp(maxRows: int): (n: nat)
    ensures 1 <= n <= 10000 && (1 <= maxRows <= 10000 ==> n == maxRows)
        && (maxRows > 10000 || maxRows <= 0 ==> n == 10000)
  {
    if maxRows <= 0 || maxRows > 10000 then 10000 else maxRows
  }

  const BATCH_SIZE := 100

  ghost predicate FairSocket(cur: Cursor, w: Weather, maxRows: nat) {
    && cur.queryError == None && cur.columnsError == None && cur.endError == None
    && AllFetched(cur.fetches[..if |cur.fetches| <= maxRows then |cur.fetches| else maxRows])
    && (forall k :: w.ctx(k) == None) && forall k :: w.batch(k) == None
  }

  /** Without an error the socket gets the first `maxRows` rows, or all if there are not so
      many, and `truncated` says exactly whether there were more. */
  method StreamRowsOverWS(cur: Cursor, w: Weather, maxRows: nat)
    returns (calls: seq<Call>, total: nat, truncated: bool, err: Option<string>)
    ensures Chunked(calls, 100) && Under(calls)
    ensures total <= maxRows && total <= |cur.fetches| && AllFetched(cur.fetches[..total])
        && Delivered(calls) <= RowsIn(cur.fetches[..total])
    ensures err == None ==>
              && total == (if |cur.fetches| <= maxRows then |cur.fetches| else maxRows)
              && (truncated <==> |cur.fetches| > maxRows)
              && Delivered(calls) == RowsIn(cur.fetches[..total])
              && calls != [] && calls[0] == Columns(cur.columns)
    ensures truncated ==> |cur.fetches| > maxRows == total
    ensures FairSocket(cur, w, maxRows) ==> err == None
  {
    hide FlatMap, Chunked, RowsIn, Full, Delivered;
    calls, total, truncated := [], 0, false;
    Nothing(cur, BATCH_SIZE);
    if cur.queryError.Some? {
      return calls, 0, false, cur.queryError;
    }
    if cur.columnsError.Some? {
      return calls, 0, false, cur.columnsError;
    }
    calls := Head(cur.columns, BATCH_SIZE);
    var failure := w.batch(0);
    if failure.Some? {
      return calls, 0, false, failure;
    }
    var batch: seq<Row> := [];
    var offset, looks, writes := 0, 0, 1;
    var i := 0;
    while i < |cur.fetches|
      invariant i <= |cur.fetches| && total == i <= maxRows && AllFetched(cur.fetches[..i]) && |batch| < BATCH_SIZE
          && !truncated
      invariant Under(calls) && calls != [] && calls[0] == Columns(cur.columns)
      invariant Chunked(calls, BATCH_SIZE) && Full(calls, BATCH_SIZE)
      invariant RowsIn(cur.fetches[..i]) == Delivered(calls) + batch && offset == |Delivered(calls)|
    {
      var ctxErr := w.ctx(looks);
      looks := looks + 1;
      if ctxErr.Some? {
        return calls, total, truncated, ctxErr;
      }
      if total >= maxRows {
        truncated := true;
        break;
      }
      if cur.fetches[i].ScanFails? {
        assert FairSocket(cur, w, maxRows) ==>
            cur.fetches[..if |cur.fetches| <= maxRows then |cur.fetches| else maxRows][i].Fetched?;
        return calls, total, truncated, Some(cur.fetches[i].error);
      }
      RowsInMore(cur.fetches, i);
      batch := batch + [cur.fetches[i].row];
      total := total + 1;
      i := i + 1;
      if |batch| >= BATCH_SIZE {
        ChunkedMore(calls, BATCH_SIZE, Batch(batch, offset));
        DeliveredMore(calls, Batch(batch, offset));
        calls := calls + [Batch(batch, offset)];
        failure := w.batch(writes);
        writes := writes + 1;
        if failure.Some? {
          return calls, total, truncated, failure;
        }
        offset := offset + |batch|;
        batch := [];
      }
    }
    if cur.endError.Some? {
      return calls, total, truncated, cur.endError;
    }
    if |batch| > 0 {
      ChunkedMore(calls, BATCH_SIZE, Batch(batch, offset));
      DeliveredMore(calls, Batch(batch, offset));
      calls := calls + [Batch(batch, offset)];
      failure := w.batch(writes);
      if failure.Some? {
        return calls, total, truncated, failure;
      }
    }
    err := None;
  }
}
