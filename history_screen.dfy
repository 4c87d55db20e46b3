/**
 * src/features/history/HistoryScreen.tsx: the list of saved readings,
 * newest first, or an empty-state message when there are none.
 */
module HistoryScreen {
  import opened Types
  import opened Sorting

  /** The comparator `(a, b) => b.timestamp - a.timestamp` as a sort key. */
  function NewestFirst(): ReadingSession -> int {
    (r: ReadingSession) => -r.timestamp
  }

  /** `[...readings].sort((a, b) => b.timestamp - a.timestamp)`: a sorted
      copy; the store's own list is a value and is not reordered. */
  function SortedReadings(readings: seq<ReadingSession>): (r: seq<ReadingSession>)
    ensures |r| == |readings|
    ensures multiset(r) == multiset(readings)
    ensures forall i, j :: 0 <= i < j < |r| ==> r[i].timestamp >= r[j].timestamp
  {
    var r := SortByKey(readings, NewestFirst());
    assert forall i, j :: 0 <= i < j < |r| ==> NewestFirst()(r[i]) <= NewestFirst()(r[j]);
    r
  }

  /** Readings saved with the same timestamp keep their order in the store. */
  lemma SameTimestampKeepsOrder(readings: seq<ReadingSession>, timestamp: int)
    ensures WithKey(SortedReadings(readings), NewestFirst(), -timestamp) == WithKey(readings, NewestFirst(), -timestamp)
  {
    assert SortedReadings(readings) == SortByKey(readings, NewestFirst());
    SortIsStable(readings, NewestFirst(), -timestamp);
  }

  /** A list that is already newest first is shown as it is. */
  lemma NewestFirstUnchanged(readings: seq<ReadingSession>)
    requires forall i, j :: 0 <= i < j < |readings| ==> readings[i].timestamp >= readings[j].timestamp
    ensures SortedReadings(readings) == readings
  {
    SortKeepsSorted(readings, NewestFirst());
  }

  /** `readings.length === 0`. */
  predicate ShowsEmptyState(readings: seq<ReadingSession>) {
    |readings| == 0
  }

  /** The empty state is shown exactly when the sorted list has nothing to show. */
  lemma EmptyStateIffNothingListed(readings: seq<ReadingSession>)
    ensures ShowsEmptyState(readings) <==> SortedReadings(readings) == []
  {
  }
}
