/**
 * Submitting a report (node/pkg/reporter/reporter.go): four parallel columns cut into batches
 * of at most 50 rows, one goroutine each, and an error channel of capacity five that nobody
 * reads before all goroutines are done.
 */
module ReportBatches {
  const MAX_BATCH: nat := 50
  const ERROR_CAPACITY: nat := 5

  datatype Row = Row(feedHash: int, value: int, timestamp: int, proof: int)

  datatype Batch = Batch(feedHashes: seq<int>, values: seq<int>, timestamps: seq<int>, proofs: seq<int>)

  function Rows(b: Batch): seq<Row>
    requires Aligned(b)
  {
    seq(|b.feedHashes|, i requires 0 <= i < |b.feedHashes| =>
      Row(b.feedHashes[i], b.values[i], b.timestamps[i], b.proofs[i]))
  }

  predicate Aligned(b: Batch) {
    |b.feedHashes| == |b.values| == |b.timestamps| == |b.proofs|
  }

  /** The rows cut into consecutive pieces of at most 50. */
  function Pieces(rows: seq<Row>): (ps: seq<seq<Row>>) {
    if rows == [] then []
    else if |rows| <= MAX_BATCH then [rows]
    else [rows[..MAX_BATCH]] + Pieces(rows[MAX_BATCH..])
  }

  function Joined(ps: seq<seq<Row>>): seq<Row> {
    if ps == [] then [] else ps[0] + Joined(ps[1..])
  }

  /** Cutting is exact: the pieces join back to all rows, and each holds between 1 and 50. */
  lemma {:induction false} PiecesAreExact(rows: seq<Row>)
    ensures Joined(Pieces(rows)) == rows
    ensures forall i :: 0 <= i < |Pieces(rows)| ==> 1 <= |Pieces(rows)[i]| <= MAX_BATCH
    ensures |Pieces(rows)| == (|rows| + MAX_BATCH - 1) / MAX_BATCH
  {
    if |rows| > MAX_BATCH {
      PiecesAreExact(rows[MAX_BATCH..]);
      assert Pieces(rows)[1..] == Pieces(rows[MAX_BATCH..]);
      assert rows == rows[..MAX_BATCH] + rows[MAX_BATCH..];
    } else if rows != [] {
      assert Pieces(rows)[1..] == [];
      assert Joined([]) == [];
    }
  }

  /** The batches from row `start` on. */
  ghost predicate CutsFrom(batches: seq<Batch>, rows: seq<Row>) {
    && |batches| == |Pieces(rows)|
    && forall i :: 0 <= i < |batches| ==> Aligned(batches[i]) && Rows(batches[i]) == Pieces(rows)[i]
  }

  /** The batch's columns are those of the rows from `start` on. */
  ghost predicate HoldsRows(b: Batch, rows: seq<Row>, start: nat) {
    && Aligned(b) && start + |b.feedHashes| <= |rows|
    && forall k :: 0 <= k < |b.feedHashes| ==>
         && b.feedHashes[k] == rows[start + k].feedHash && b.values[k] == rows[start + k].value
         && b.timestamps[k] == rows[start + k].timestamp && b.proofs[k] == rows[start + k].proof
  }

  /** The k-th row of the i-th piece is row 50 i + k. */
  lemma {:induction false} PieceAt(rows: seq<Row>, i: nat, k: nat)
    requires i < |Pieces(rows)| && k < |Pieces(rows)[i]|
    ensures 50 * i + k < |rows| && Pieces(rows)[i][k] == rows[50 * i + k]
    decreases i
  {
    if i > 0 {
      PieceAt(rows[MAX_BATCH..], i - 1, k);
    }
  }

  lemma BatchHolds(b: Batch, rows: seq<Row>, i: nat)
    requires i < |Pieces(rows)| && Aligned(b) && Rows(b) == Pieces(rows)[i]
    ensures HoldsRows(b, rows, 50 * i)
  {
    PiecesAreExact(rows);
    var n := |b.feedHashes|;
    assert n == |Rows(b)|;
    forall k | 0 <= k < n
      ensures 50 * i + k < |rows| && Row(b.feedHashes[k], b.values[k], b.timestamps[k], b.proofs[k]) == rows[50 * i + k]
    {
      PieceAt(rows, i, k);
      assert Rows(b)[k] == rows[50 * i + k];
    }
    PieceAt(rows, i, n - 1);
  }

  lemma ColumnsCut(batches: seq<Batch>, rows: seq<Row>)
    requires CutsFrom(batches, rows)
    ensures forall i :: 0 <= i < |batches| ==> HoldsRows(batches[i], rows, 50 * i)
  {
    forall i | 0 <= i < |batches| ensures HoldsRows(batches[i], rows, 50 * i) { BatchHolds(batches[i], rows, i); }
  }

  /** Slicing the four columns alike slices the rows. */
  lemma ColumnsSliced(all: Batch, rows: seq<Row>, start: nat, end: nat)
    requires start <= end <= |rows| && Aligned(all) && |all.feedHashes| == |rows|
    requires forall k :: 0 <= k < |rows| ==> rows[k] == Row(all.feedHashes[k], all.values[k], all.timestamps[k], all.proofs[k])
    ensures Rows(Batch(all.feedHashes[start..end], all.values[start..end], all.timestamps[start..end], all.proofs[start..end]))
            == rows[start..end]
  {
  }

  /** report up to the goroutines: builds the four columns and cuts them in step. */
  method CutBatches(rows: seq<Row>) returns (batches: seq<Batch>)
    ensures CutsFrom(batches, rows)
    ensures forall i :: 0 <= i < |batches| ==> HoldsRows(batches[i], rows, 50 * i)
  {
    var feedHashes, values, timestamps, proofs := [], [], [], [];
    for i := 0 to |rows|
      invariant |feedHashes| == |values| == |timestamps| == |proofs| == i
      invariant forall k :: 0 <= k < i ==> rows[k] == Row(feedHashes[k], values[k], timestamps[k], proofs[k])
    {
      feedHashes := feedHashes + [rows[i].feedHash];
      values := values + [rows[i].value];
      timestamps := timestamps + [rows[i].timestamp];
      proofs := proofs + [rows[i].proof];
    }
    batches := [];
    var start := 0;
    while start < |rows|
      invariant 0 <= start
      invariant |batches| <= |Pieces(rows)|
      invariant forall i :: 0 <= i < |batches| ==> Aligned(batches[i]) && Rows(batches[i]) == Pieces(rows)[i]
      invariant start < |rows| ==> Pieces(rows)[|batches|..] == Pieces(rows[start..])
      invariant start >= |rows| ==> |batches| == |Pieces(rows)|
    {
      var end := if start + MAX_BATCH < |rows| then start + MAX_BATCH else |rows|;
      var batch := Batch(feedHashes[start..end], values[start..end], timestamps[start..end], proofs[start..end]);
      ColumnsSliced(Batch(feedHashes, values, timestamps, proofs), rows, start, end);
      assert Pieces(rows)[|batches|] == Pieces(rows[start..])[0];
      assert Pieces(rows)[|batches| + 1..] == Pieces(rows[start..])[1..];
      if start + MAX_BATCH < |rows| {
        assert rows[start..][..MAX_BATCH] == rows[start..end] && rows[start..][MAX_BATCH..] == rows[end..];
      } else {
        assert rows[start..] == rows[start..end];
      }
      batches := batches + [batch];
      start := start + MAX_BATCH;
    }
    ColumnsCut(batches, rows);
  }

  // ---------------------------------------------------------------- the error channel

  /** A goroutine submits, and then finishes - or has an error to send first. */
  datatype Worker = Submitting | Sending | Done

  datatype Wait = Wait(workers: seq<Worker>, buffered: nat)

  /** fails[i]: batch i's submission returns an error. */
  ghost predicate Step(fails: seq<bool>, w: Wait, w': Wait)
    requires |fails| == |w.workers|
  {
    exists i :: 0 <= i < |w.workers| && StepOf(fails, w, i, w')
  }

  /** Worker i moves; a send needs a free slot, because nobody receives while the report waits. */
  ghost predicate StepOf(fails: seq<bool>, w: Wait, i: nat, w': Wait)
    requires |fails| == |w.workers| && i < |w.workers|
  {
    match w.workers[i]
    case Submitting => w' == w.(workers := w.workers[i := if fails[i] then Sending else Done])
    case Sending => w.buffered < ERROR_CAPACITY && w' == Wait(w.workers[i := Done], w.buffered + 1)
    case Done => false
  }

  ghost predicate AllDone(w: Wait) {
    forall i :: 0 <= i < |w.workers| ==> w.workers[i] == Done
  }

  /** No worker can move. */
  ghost predicate Stuck(fails: seq<bool>, w: Wait)
    requires |fails| == |w.workers|
  {
    forall w' :: !Step(fails, w, w')
  }

  function Failures(fails: seq<bool>): nat {
    if fails == [] then 0 else Failures(fails[..|fails| - 1]) + (if fails[|fails| - 1] then 1 else 0)
  }

  /** Errors sent so far: failing workers that are done. */
  function Delivered(fails: seq<bool>, workers: seq<Worker>): nat
    requires |fails| == |workers|
  {
    if fails == [] then 0
    else Delivered(fails[..|fails| - 1], workers[..|fails| - 1])
         + (if fails[|fails| - 1] && workers[|fails| - 1] == Done then 1 else 0)
  }

  ghost predicate WaitInv(fails: seq<bool>, w: Wait) {
    && |fails| == |w.workers|
    && w.buffered == Delivered(fails, w.workers)
    && (forall i :: 0 <= i < |fails| && w.workers[i] == Sending ==> fails[i])
    && w.buffered <= ERROR_CAPACITY
  }

  lemma {:induction false} DeliveredUpdate(fails: seq<bool>, workers: seq<Worker>, i: nat, x: Worker)
    requires |fails| == |workers| && i < |workers| && workers[i] != Done
    ensures Delivered(fails, workers[i := x]) == Delivered(fails, workers) + (if fails[i] && x == Done then 1 else 0)
  {
    var n := |fails| - 1;
    if i < n {
      DeliveredUpdate(fails[..n], workers[..n], i, x);
      assert workers[i := x][..n] == workers[..n][i := x];
    } else {
      assert workers[i := x][..n] == workers[..n];
    }
  }

  lemma StepKeepsInv(fails: seq<bool>, w: Wait, i: nat, w': Wait)
    requires WaitInv(fails, w) && i < |w.workers| && StepOf(fails, w, i, w')
    ensures WaitInv(fails, w')
  {
    DeliveredUpdate(fails, w.workers, i, w'.workers[i]);
  }

  lemma {:induction false} DeliveredBound(fails: seq<bool>, workers: seq<Worker>)
    requires |fails| == |workers|
    ensures Delivered(fails, workers) <= Failures(fails)
    ensures (forall i :: 0 <= i < |workers| ==> workers[i] == Done) ==> Delivered(fails, workers) == Failures(fails)
    ensures (exists i :: 0 <= i < |workers| && workers[i] == Sending && fails[i]) ==> Delivered(fails, workers) < Failures(fails)
  {
    if fails != [] {
      var n := |fails| - 1;
      DeliveredBound(fails[..n], workers[..n]);
      if i :| 0 <= i < |workers| && workers[i] == Sending && fails[i] {
        if i < n { assert workers[..n][i] == Sending && fails[..n][i]; }
      }
    }
  }

  /** A run of the goroutines from the moment all are started. */
  ghost predicate Reaches(fails: seq<bool>, trace: seq<Wait>) {
    && trace != [] && trace[0].buffered == 0 && |trace[0].workers| == |fails|
    && (forall i :: 0 <= i < |fails| ==> trace[0].workers[i] == Submitting)
    && (forall k :: 0 <= k < |trace| ==> |trace[k].workers| == |fails|)
    && (forall k :: 0 <= k < |trace| - 1 ==> Step(fails, trace[k], trace[k + 1]))
  }

  lemma {:induction false} NothingDelivered(fails: seq<bool>, workers: seq<Worker>)
    requires |fails| == |workers| && forall i :: 0 <= i < |workers| ==> workers[i] == Submitting
    ensures Delivered(fails, workers) == 0
  {
    if fails != [] { NothingDelivered(fails[..|fails| - 1], workers[..|fails| - 1]); }
  }

  lemma {:induction false} TraceKeepsInv(fails: seq<bool>, trace: seq<Wait>, k: nat)
    requires Reaches(fails, trace) && k < |trace|
    ensures WaitInv(fails, trace[k])
  {
    if k == 0 {
      NothingDelivered(fails, trace[0].workers);
    } else {
      TraceKeepsInv(fails, trace, k - 1);
      assert Step(fails, trace[k - 1], trace[k - 1 + 1]);
      var i :| 0 <= i < |trace[k - 1].workers| && StepOf(fails, trace[k - 1], i, trace[k]);
      StepKeepsInv(fails, trace[k - 1], i, trace[k]);
    }
  }

  /**
   * A report whose goroutines can move no further has them all done exactly when at most
   * five submissions failed; with more, the wait never ends.
   */
  lemma WaitEnds(fails: seq<bool>, trace: seq<Wait>)
    requires Reaches(fails, trace) && Stuck(fails, trace[|trace| - 1])
    ensures AllDone(trace[|trace| - 1]) <==> Failures(fails) <= ERROR_CAPACITY
  {
    var w := trace[|trace| - 1];
    TraceKeepsInv(fails, trace, |trace| - 1);
    DeliveredBound(fails, w.workers);
    if !AllDone(w) {
      var i :| 0 <= i < |w.workers| && w.workers[i] != Done;
      if w.workers[i] == Submitting || w.buffered < ERROR_CAPACITY {
        var w' := if w.workers[i] == Submitting then w.(workers := w.workers[i := if fails[i] then Sending else Done])
                  else Wait(w.workers[i := Done], w.buffered + 1);
        assert StepOf(fails, w, i, w');
        assert Step(fails, w, w');
        assert false;
      }
    }
  }

  /** Moves left: two for a worker that submits, one for one that sends. */
  function Left(workers: seq<Worker>): nat {
    if workers == [] then 0
    else Left(workers[..|workers| - 1])
         + (match workers[|workers| - 1] case Submitting => 2 case Sending => 1 case Done => 0)
  }

  lemma {:induction false} LeftUpdate(workers: seq<Worker>, i: nat, x: Worker)
    requires i < |workers|
    requires (workers[i] == Submitting && x != Submitting) || (workers[i] == Sending && x == Done)
    ensures Left(workers[i := x]) < Left(workers) <= 2 * |workers|
  {
    var n := |workers| - 1;
    LeftBound(workers);
    if i < n {
      LeftUpdate(workers[..n], i, x);
      assert workers[i := x][..n] == workers[..n][i := x];
    } else {
      assert workers[i := x][..n] == workers[..n];
    }
  }

  lemma {:induction false} LeftBound(workers: seq<Worker>)
    ensures Left(workers) <= 2 * |workers|
  {
    if workers != [] { LeftBound(workers[..|workers| - 1]); }
  }

  /** The goroutines run out of moves: every run is at most two moves per batch long. */
  lemma {:induction false} WaitIsFinite(fails: seq<bool>, trace: seq<Wait>, k: nat)
    requires Reaches(fails, trace) && k < |trace|
    ensures k + Left(trace[k].workers) <= 2 * |fails|
  {
    if k == 0 {
      LeftBound(trace[0].workers);
    } else {
      WaitIsFinite(fails, trace, k - 1);
      assert Step(fails, trace[k - 1], trace[k - 1 + 1]);
      var i :| 0 <= i < |trace[k - 1].workers| && StepOf(fails, trace[k - 1], i, trace[k]);
      LeftUpdate(trace[k - 1].workers, i, trace[k].workers[i]);
    }
  }

  lemma {:induction false} FailuresBound(fails: seq<bool>)
    ensures Failures(fails) <= |fails|
  {
    if fails != [] { FailuresBound(fails[..|fails| - 1]); }
  }

  /** Up to 250 rows make at most five batches, so the wait ends whatever the submissions return. */
  lemma SmallReportsEnd(rows: seq<Row>, fails: seq<bool>, trace: seq<Wait>)
    requires |rows| <= 250 && |fails| == |Pieces(rows)|
    requires Reaches(fails, trace) && Stuck(fails, trace[|trace| - 1])
    ensures AllDone(trace[|trace| - 1])
  {
    PiecesAreExact(rows);
    FailuresBound(fails);
    WaitEnds(fails, trace);
  }

  lemma {:induction false} AllFail(n: nat)
    ensures Failures(seq(n, _ => true)) == n
  {
    if n > 0 {
      AllFail(n - 1);
      assert seq(n, _ => true)[..n - 1] == seq(n - 1, _ => true);
    }
  }

  /** Every run can be continued until no goroutine can move. */
  lemma {:induction false} RunsOn(fails: seq<bool>, trace: seq<Wait>) returns (whole: seq<Wait>)
    requires Reaches(fails, trace)
    ensures Reaches(fails, whole) && Stuck(fails, whole[|whole| - 1])
    decreases 2 * |fails| + 1 - |trace|
  {
    whole := trace;
    WaitIsFinite(fails, trace, |trace| - 1);
    var last := trace[|trace| - 1];
    if next :| Step(fails, last, next) {
      whole := RunsOn(fails, trace + [next]);
    }
  }

  /** Beyond 250 rows a run can hang: let every submission fail. */
  lemma LargeReportsCanHang(rows: seq<Row>) returns (fails: seq<bool>, trace: seq<Wait>)
    requires |rows| > 250
    ensures |fails| == |Pieces(rows)| && Reaches(fails, trace) && Stuck(fails, trace[|trace| - 1])
    ensures !AllDone(trace[|trace| - 1])
  {
    PiecesAreExact(rows);
    fails := seq(|Pieces(rows)|, _ => true);
    AllFail(|Pieces(rows)|);
    trace := RunsOn(fails, [Wait(seq(|fails|, _ => Submitting), 0)]);
    WaitEnds(fails, trace);
  }

  ghost predicate Ends(rows: seq<Row>, fails: seq<bool>, trace: seq<Wait>) {
    |fails| == |Pieces(rows)| && Reaches(fails, trace) && Stuck(fails, trace[|trace| - 1]) ==> AllDone(trace[|trace| - 1])
  }

  /** The wait ends whatever the submissions return exactly for reports of at most 250 rows. */
  lemma AlwaysEnds(rows: seq<Row>)
    ensures (forall fails, trace :: Ends(rows, fails, trace)) <==> |rows| <= 250
  {
    if |rows| <= 250 {
      forall fails, trace ensures Ends(rows, fails, trace) {
        if |fails| == |Pieces(rows)| && Reaches(fails, trace) && Stuck(fails, trace[|trace| - 1]) {
          SmallReportsEnd(rows, fails, trace);
        }
      }
    } else {
      var fails, trace := LargeReportsCanHang(rows);
      assert !Ends(rows, fails, trace);
    }
  }
}
