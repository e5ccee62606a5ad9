/** Session history: admission of owner pages, the transcript they render to and
    the context they confirm. Rows come newest first; a transcript reads oldest
    first. */
module SessionHistory {
  import opened Wrappers
  import opened JsText
  import opened ConfirmedHistory
  import opened ConversationTypes

  const PAGE_SIZE: nat := 25
  const MAX_OFFSET: int := 10_000
  const MAX_CONFIRMED_TURNS: nat := 12
  const MAX_VIEWED_RUNS: nat := 200

  predicate RowAdmissible(row: HistoryRow, sessionId: Id) {
    row.shapeValid && row.sessionId == sessionId && IsSafeId(row.runId)
  }

  predicate RowsAdmissible(rows: seq<HistoryRow>, sessionId: Id) {
    forall i :: 0 <= i < |rows| ==> RowAdmissible(rows[i], sessionId)
  }

  predicate PageAdmissible(page: HistoryPage, workspaceId: string, sessionId: Id, offset: int) {
    && page.shapeValid && page.workspaceId == workspaceId && page.sessionId == sessionId
    && |page.rows| <= PAGE_SIZE
    && (if page.hasMore then
          |page.rows| > 0 && page.nextOffset.Some? && offset < page.nextOffset.value <= MAX_OFFSET
        else
          page.nextOffset.None?)
  }

  function RunIds(rows: seq<HistoryRow>): set<Id> {
    set i | 0 <= i < |rows| :: rows[i].runId
  }

  predicate DistinctRuns(rows: seq<HistoryRow>) {
    forall i, j :: 0 <= i < j < |rows| ==> rows[i].runId != rows[j].runId
  }

  // ---------- What one row shows and confirms ----------

  predicate HasUserText(row: HistoryRow) {
    row.userText.Some? && row.userText.value != []
  }

  predicate HasAnswer(row: HistoryRow) {
    row.status == StatusCompleted && row.output.Some?
  }

  predicate Confirmable(row: HistoryRow) {
    HasAnswer(row) && HasUserText(row) && !row.userTruncated && !row.outputTruncated
  }

  function RowTurns(row: HistoryRow): seq<Turn> {
    (if HasUserText(row) then [Turn(User, row.userText.value)] else [])
    + (if HasAnswer(row) then [Turn(Assistant, row.output.value)] else [])
  }

  /** The transcript of newest-first rows. */
  function Render(rows: seq<HistoryRow>): seq<Turn> {
    if rows == [] then [] else Render(rows[1..]) + RowTurns(rows[0])
  }

  /** The verified pairs of newest-first rows, oldest first. */
  function VerifiedPairs(rows: seq<HistoryRow>): seq<Pair> {
    if rows == [] then
      []
    else
      VerifiedPairs(rows[1..])
      + if Confirmable(rows[0]) then [Pair(rows[0].userText.value, rows[0].output.value)] else []
  }

  /** A row that is cut short, or that does not contribute a whole verified pair,
      limits the context. */
  predicate LimitsContext(row: HistoryRow) {
    row.userTruncated || row.outputTruncated || !HasUserText(row) || !HasAnswer(row)
  }

  // ---------- Transcripts of adjacent pages ----------

  /** Rendering is compositional: an older page goes in front. */
  lemma {:induction false} RenderAppend(newer: seq<HistoryRow>, older: seq<HistoryRow>)
    ensures Render(newer + older) == Render(older) + Render(newer)
  {
    hide RowTurns;
    if newer == [] {
      assert newer + older == older;
    } else {
      RenderAppend(newer[1..], older);
      assert (newer + older)[1..] == newer[1..] + older;
    }
  }

  /** One row shows its question, if it has one, and then its answer, if it has
      completed with one; it is verified if it has both and neither is cut. */
  lemma OneRowExactly(row: HistoryRow)
    ensures var asked := row.userText.Some? && row.userText.value != [];
            var answered := row.status == StatusCompleted && row.output.Some?;
            && Render([row]) == (if asked then [Turn(User, row.userText.value)] else [])
                                + (if answered then [Turn(Assistant, row.output.value)] else [])
            && VerifiedPairs([row]) == if asked && answered && !row.userTruncated && !row.outputTruncated
                                       then [Pair(row.userText.value, row.output.value)] else []
  {
    assert [row][1..] == [] && Render([]) == [] && VerifiedPairs([]) == [];
  }

  /** The verified pairs of adjacent pages are those of the older page and then those of
      the newer one. */
  lemma {:induction false} VerifiedAppend(newer: seq<HistoryRow>, older: seq<HistoryRow>)
    ensures VerifiedPairs(newer + older) == VerifiedPairs(older) + VerifiedPairs(newer)
  {
    if newer == [] {
      assert newer + older == older;
    } else {
      VerifiedAppend(newer[1..], older);
      assert (newer + older)[1..] == newer[1..] + older;
    }
  }

  lemma {:induction false} DistinctRunsSize(rows: seq<HistoryRow>)
    requires DistinctRuns(rows)
    ensures |RunIds(rows)| == |rows|
  {
    if rows == [] {
      assert RunIds(rows) == {};
    } else {
      DistinctRunsSize(rows[1..]);
      assert RunIds(rows) == {rows[0].runId} + RunIds(rows[1..]) by {
        forall id | id in RunIds(rows)
          ensures id in {rows[0].runId} + RunIds(rows[1..])
        {
          var i :| 0 <= i < |rows| && rows[i].runId == id;
          if i > 0 {
            assert rows[1..][i - 1].runId == id;
          }
        }
      }
    }
  }

  lemma RunIdsAppend(a: seq<HistoryRow>, b: seq<HistoryRow>)
    ensures RunIds(a + b) == RunIds(a) + RunIds(b)
  {
    forall id | id in RunIds(a) + RunIds(b)
      ensures id in RunIds(a + b)
    {
      if id in RunIds(a) {
        var i :| 0 <= i < |a| && a[i].runId == id;
        assert (a + b)[i].runId == id;
      } else {
        var i :| 0 <= i < |b| && b[i].runId == id;
        assert (a + b)[|a| + i].runId == id;
      }
    }
  }

  lemma DistinctRunsAppend(a: seq<HistoryRow>, b: seq<HistoryRow>)
    requires DistinctRuns(a) && DistinctRuns(b) && RunIds(a) !! RunIds(b)
    ensures DistinctRuns(a + b)
  {
    forall i, j | 0 <= i < j < |a + b|
      ensures (a + b)[i].runId != (a + b)[j].runId
    {
      if i < |a| <= j {
        assert a[i].runId in RunIds(a) && b[j - |a|].runId in RunIds(b);
      }
    }
  }

  /** Every verified answer is one the rows vouch for. */
  lemma {:induction false} VerifiedPairsAreFacts(rows: seq<HistoryRow>, sessionId: Id, pair: Pair)
    requires RowsAdmissible(rows, sessionId) && pair in VerifiedPairs(rows)
    ensures exists fact :: fact in RowsFacts(rows) && fact.text == pair.answer
  {
    if pair in VerifiedPairs(rows[1..]) {
      VerifiedPairsAreFacts(rows[1..], sessionId, pair);
      var fact :| fact in RowsFacts(rows[1..]) && fact.text == pair.answer;
      assert fact in RowsFacts(rows);
    } else {
      assert RowAdmissible(rows[0], sessionId);
      assert Fact(rows[0].runId, pair.answer) in RowsFacts(rows);
    }
  }
}
