/**
 * src/store/useHistoryStore.ts: the saved readings, newest first, and the
 * actions that replace the list through zustand's `set`. The new lists are
 * computed by the pure functions below; the class `History` holds the state.
 */
module HistoryStore {
  import opened Types
  import opened Seqs

  // ---- the pure list operations ----

  /** `rs.map(r => r.id === id ? f(r) : r)`. */
  function UpdateById(rs: seq<ReadingSession>, id: string, f: ReadingSession -> ReadingSession): (r: seq<ReadingSession>)
    ensures |r| == |rs|
    ensures forall i :: 0 <= i < |rs| && rs[i].id == id ==> r[i] == f(rs[i])
    ensures forall i :: 0 <= i < |rs| && rs[i].id != id ==> r[i] == rs[i]
  {
    if rs == [] then []
    else [if rs[0].id == id then f(rs[0]) else rs[0]] + UpdateById(rs[1..], id, f)
  }

  /** `r => ({ ...r, aiInterpretation: text })`. */
  function SetInterpretation(text: string): ReadingSession -> ReadingSession {
    (r: ReadingSession) => r.(aiInterpretation := Some(text))
  }

  /** `r => ({ ...r, userNotes: notes })`. */
  function SetNotes(notes: string): ReadingSession -> ReadingSession {
    (r: ReadingSession) => r.(userNotes := Some(notes))
  }

  function IdIsNot(id: string): ReadingSession -> bool {
    (r: ReadingSession) => r.id != id
  }

  /** `rs.filter(r => r.id !== id)`. */
  function DeleteById(rs: seq<ReadingSession>, id: string): (r: seq<ReadingSession>)
    ensures |r| <= |rs|
    ensures forall x :: x in r <==> x in rs && x.id != id
  {
    Filter(rs, IdIsNot(id))
  }

  // ---- properties ----

  /** Storing the same interpretation twice is the same as storing it once. */
  lemma {:induction false} UpdateIdempotent(rs: seq<ReadingSession>, id: string, f: ReadingSession -> ReadingSession)
    requires forall x :: f(x).id == x.id && f(f(x)) == f(x)
    ensures UpdateById(UpdateById(rs, id, f), id, f) == UpdateById(rs, id, f)
  {
    if rs != [] {
      UpdateIdempotent(rs[1..], id, f);
      assert UpdateById(rs, id, f)[1..] == UpdateById(rs[1..], id, f);
    }
  }

  /** An update for an id no reading has is a no-op. */
  lemma {:induction false} UpdateAbsentIsNoop(rs: seq<ReadingSession>, id: string, f: ReadingSession -> ReadingSession)
    requires forall i :: 0 <= i < |rs| ==> rs[i].id != id
    ensures UpdateById(rs, id, f) == rs
  {
    if rs != [] {
      UpdateAbsentIsNoop(rs[1..], id, f);
    }
  }

  /** Deletion removes every reading with the id and keeps every other
      reading, as many times as it occurred. */
  lemma DeleteCounts(rs: seq<ReadingSession>, id: string, x: ReadingSession)
    ensures multiset(DeleteById(rs, id))[x] == if x.id == id then 0 else multiset(rs)[x]
  {
    FilterMultiset(rs, IdIsNot(id), x);
  }

  /** Deletion keeps the remaining readings in their order: it distributes
      over concatenation. */
  lemma DeleteConcat(a: seq<ReadingSession>, b: seq<ReadingSession>, id: string)
    ensures DeleteById(a + b, id) == DeleteById(a, id) + DeleteById(b, id)
  {
    FilterConcat(a, b, IdIsNot(id));
  }

  /** Deleting an id no reading has leaves the list as it is. */
  lemma DeleteAbsentIsNoop(rs: seq<ReadingSession>, id: string)
    requires forall i :: 0 <= i < |rs| ==> rs[i].id != id
    ensures DeleteById(rs, id) == rs
  {
    FilterKeepsAll(rs, IdIsNot(id));
  }

  /** Deleting twice is deleting once. */
  lemma DeleteIdempotent(rs: seq<ReadingSession>, id: string)
    ensures DeleteById(DeleteById(rs, id), id) == DeleteById(rs, id)
  {
    var d := DeleteById(rs, id);
    assert forall i :: 0 <= i < |d| ==> IdIsNot(id)(d[i]);
    FilterKeepsAll(d, IdIsNot(id));
  }

  /** Adding a reading and then deleting its id is the same as deleting the
      id from the old list. */
  lemma DeleteUndoesAdd(reading: ReadingSession, rs: seq<ReadingSession>)
    ensures DeleteById([reading] + rs, reading.id) == DeleteById(rs, reading.id)
  {
    DeleteConcat([reading], rs, reading.id);
    FilterSingleton(reading, IdIsNot(reading.id));
  }

  // ---- the store ----

  class History {
    var readings: seq<ReadingSession>

    /** `readings: []`. */
    constructor()
      ensures readings == []
    {
      readings := [];
    }

    /** `[reading, ...state.readings]`: the new reading on top. */
    method AddReading(reading: ReadingSession)
      modifies this
      ensures readings == [reading] + old(readings)
      ensures |readings| == |old(readings)| + 1 && readings[0] == reading && readings[1..] == old(readings)
    {
      readings := [reading] + readings;
    }

    method UpdateReadingInterpretation(id: string, text: string)
      modifies this
      ensures readings == UpdateById(old(readings), id, SetInterpretation(text))
      ensures |readings| == |old(readings)|
      ensures forall i :: 0 <= i < |readings| ==>
                readings[i] == if old(readings)[i].id == id then old(readings)[i].(aiInterpretation := Some(text))
                               else old(readings)[i]
    {
      readings := UpdateById(readings, id, SetInterpretation(text));
    }

    method DeleteReading(id: string)
      modifies this
      ensures readings == DeleteById(old(readings), id)
      ensures forall i :: 0 <= i < |readings| ==> readings[i].id != id
    {
      readings := DeleteById(readings, id);
    }

    method ClearHistory()
      modifies this
      ensures readings == []
    {
      readings := [];
    }

    method UpdateUserNotes(id: string, notes: string)
      modifies this
      ensures readings == UpdateById(old(readings), id, SetNotes(notes))
      ensures |readings| == |old(readings)|
      ensures forall i :: 0 <= i < |readings| ==>
                readings[i] == if old(readings)[i].id == id then old(readings)[i].(userNotes := Some(notes))
                               else old(readings)[i]
    {
      readings := UpdateById(readings, id, SetNotes(notes));
    }
  }
}
