/**
 Order records and the status pipeline: a fixed list of six stages, a current
 stage index per record and a newest-first history of the stages it entered.
 */
module Orders {
  import opened Pricing

  /** An ISO-8601 timestamp, supplied by the caller (the clock is not modelled). */
  type Timestamp = string

  const StatusFlow: seq<string> :=
    ["Diterima", "Dicuci", "Pengeringan", "Disetrika", "Siap Diambil/Antar", "Selesai"]

  /** The index of the last stage, `STATUS_FLOW.length - 1`. */
  const LastStage: int := |StatusFlow| - 1

  const CreatedNote: string := "Order dibuat"
  const ForwardNote: string := "Maju"
  const BackwardNote: string := "Mundur"

  datatype HistoryEntry = HistoryEntry(at: Timestamp, status: string, note: string)

  /** One stored order: the form as submitted plus what creation adds to it. */
  datatype Order = Order(
    id: string,
    createdAt: Timestamp,
    statusIndex: int,
    form: OrderForm,
    total: real,
    history: seq<HistoryEntry>)

  /** What every record the application writes satisfies: its stage is a valid index, its
      history is not empty and the newest history entry names the current stage. */
  ghost predicate WellFormed(o: Order)
  {
    0 <= o.statusIndex <= LastStage &&
    o.history != [] &&
    o.history[0].status == StatusFlow[o.statusIndex]
  }

  /** The record `createOrder` builds: stage 0, the computed total, one history entry. */
  function NewOrder(id: string, at: Timestamp, form: OrderForm): (o: Order)
    ensures WellFormed(o)
    ensures o.id == id && o.form == form && o.createdAt == at
    ensures o.statusIndex == 0 && o.total == Total(form)
    ensures o.history == [HistoryEntry(at, "Diterima", CreatedNote)]
  {
    Order(id, at, 0, form, Total(form), [HistoryEntry(at, StatusFlow[0], CreatedNote)])
  }

  /** `Math.min(Math.max(x, lo), hi)`. */
  function Clamp(x: int, lo: int, hi: int): (r: int)
    ensures lo <= hi ==> lo <= r <= hi
    ensures lo <= x <= hi ==> r == x
    ensures x < lo <= hi ==> r == lo
    ensures lo <= hi < x ==> r == hi
  {
    if x < lo then (if lo < hi then lo else hi)
    else if x < hi then x
    else hi
  }

  /** The stage `updateStatus` moves a record to when asked to move by `dir`. */
  function NextIndex(o: Order, dir: int): (r: int)
    ensures 0 <= r <= LastStage
    ensures 0 <= o.statusIndex + dir <= LastStage ==> r == o.statusIndex + dir
    ensures o.statusIndex + dir < 0 ==> r == 0
    ensures o.statusIndex + dir > LastStage ==> r == LastStage
  {
    Clamp(o.statusIndex + dir, 0, LastStage)
  }

  /** The history note of a move: forward for a positive direction, backward otherwise. */
  function MoveNote(dir: int): (note: string)
    ensures note == "Maju" <==> dir > 0
    ensures note == "Mundur" <==> dir <= 0
  {
    if dir > 0 then ForwardNote else BackwardNote
  }

  /** What `updateStatus` does to the record it found: when the clamped stage differs from
      the current one, move there and prepend one history entry; otherwise nothing changes. */
  function Advance(o: Order, dir: int, at: Timestamp): (r: Order)
    ensures r.statusIndex == Clamp(o.statusIndex + dir, 0, LastStage)
    ensures 0 <= r.statusIndex <= LastStage
    ensures r.statusIndex == o.statusIndex ==> r == o
    ensures r.statusIndex != o.statusIndex ==>
              0 <= r.statusIndex <= LastStage &&
              r == o.(statusIndex := r.statusIndex,
                      history := [HistoryEntry(at, StatusFlow[r.statusIndex], MoveNote(dir))] + o.history)
    ensures r.id == o.id && r.createdAt == o.createdAt && r.form == o.form && r.total == o.total
    ensures o.history == r.history[|r.history| - |o.history|..]
  {
    var next := NextIndex(o, dir);
    if next != o.statusIndex then
      o.(statusIndex := next,
         history := [HistoryEntry(at, StatusFlow[next], MoveNote(dir))] + o.history)
    else o
  }

  /** A stage change keeps a record well formed. */
  lemma AdvancePreservesWellFormed(o: Order, dir: int, at: Timestamp)
    requires WellFormed(o)
    ensures WellFormed(Advance(o, dir, at))
  {
  }

  /** A record whose stage is within the pipeline stays within it, whatever the direction. */
  lemma AdvanceStaysInPipeline(o: Order, dir: int, at: Timestamp)
    ensures 0 <= o.statusIndex <= LastStage ==> 0 <= Advance(o, dir, at).statusIndex <= LastStage
  {
  }

  /** Moving forward from the last stage, or backward from the first, changes nothing
      and records no history. */
  lemma BoundaryMovesAreNoOps(o: Order, at: Timestamp)
    ensures o.statusIndex == LastStage ==> Advance(o, 1, at) == o
    ensures o.statusIndex == 0 ==> Advance(o, -1, at) == o
  {
  }

  /** A step forward from an inner stage moves exactly one stage and records "Maju". */
  lemma ForwardStep(o: Order, at: Timestamp)
    requires 0 <= o.statusIndex < LastStage
    ensures Advance(o, 1, at).statusIndex == o.statusIndex + 1
    ensures Advance(o, 1, at).history ==
            [HistoryEntry(at, StatusFlow[o.statusIndex + 1], ForwardNote)] + o.history
  {
  }

  /** A step back from an inner stage moves exactly one stage and records "Mundur". */
  lemma BackwardStep(o: Order, at: Timestamp)
    requires 0 < o.statusIndex <= LastStage
    ensures Advance(o, -1, at).statusIndex == o.statusIndex - 1
    ensures Advance(o, -1, at).history ==
            [HistoryEntry(at, StatusFlow[o.statusIndex - 1], BackwardNote)] + o.history
  {
  }

  /** One requested move of the admin view: a direction and the time it happened. */
  datatype Move = Move(dir: int, at: Timestamp)

  /** The record after a series of moves, first move first. */
  function Replay(o: Order, moves: seq<Move>): (r: Order)
    decreases moves
  {
    if moves == [] then o
    else Replay(Advance(o, moves[0].dir, moves[0].at), moves[1..])
  }

  /** How many of the moves actually changed the stage. */
  function Transitions(o: Order, moves: seq<Move>): (n: nat)
    decreases moves
  {
    if moves == [] then 0
    else
      var o' := Advance(o, moves[0].dir, moves[0].at);
      (if o'.statusIndex != o.statusIndex then 1 else 0) + Transitions(o', moves[1..])
  }

  /** The history grows by exactly one entry per stage change, only at its front: the old
      history stays as its suffix, and the record stays well formed. */
  lemma {:induction false} ReplayHistory(o: Order, moves: seq<Move>)
    requires WellFormed(o)
    ensures WellFormed(Replay(o, moves))
    ensures |Replay(o, moves).history| == |o.history| + Transitions(o, moves)
    ensures Replay(o, moves).history[|Replay(o, moves).history| - |o.history|..] == o.history
    ensures Transitions(o, moves) <= |moves|
    decreases moves
  {
    if moves != [] {
      var o' := Advance(o, moves[0].dir, moves[0].at);
      ReplayHistory(o', moves[1..]);
      var h, h', h'' := o.history, o'.history, Replay(o, moves).history;
      assert h'[|h'| - |h|..] == h;
      assert h''[|h''| - |h'|..] == h';
      assert h''[|h''| - |h|..] == h'[|h'| - |h|..];
    }
  }

  /** A newly created record after `k` forward moves: at stage min(k, 5), with one history
      entry for creation and one per stage actually entered. */
  lemma {:induction false} ForwardRun(o: Order, moves: seq<Move>)
    requires WellFormed(o)
    requires forall i :: 0 <= i < |moves| ==> moves[i].dir == 1
    ensures Replay(o, moves).statusIndex == Clamp(o.statusIndex + |moves|, 0, LastStage)
    ensures |Replay(o, moves).history| == |o.history| + Replay(o, moves).statusIndex - o.statusIndex
    decreases moves
  {
    if moves != [] {
      var o' := Advance(o, 1, moves[0].at);
      AdvancePreservesWellFormed(o, 1, moves[0].at);
      ForwardRun(o', moves[1..]);
    }
  }

  /** From creation, five forward moves reach the last stage with six history entries,
      and a sixth leaves the record as it was. */
  lemma FiveForwardMovesFinish(id: string, at: Timestamp, form: OrderForm, moves: seq<Move>, extra: Move)
    requires |moves| == 5 && forall i :: 0 <= i < 5 ==> moves[i].dir == 1
    requires extra.dir == 1
    ensures Replay(NewOrder(id, at, form), moves).statusIndex == LastStage
    ensures |Replay(NewOrder(id, at, form), moves).history| == 6
    ensures Replay(NewOrder(id, at, form), moves + [extra]) == Replay(NewOrder(id, at, form), moves)
  {
    var o := NewOrder(id, at, form);
    ForwardRun(o, moves);
    ReplayAppend(o, moves, [extra]);
    ReplayHistory(o, moves);
  }

  /** Replaying two series of moves one after the other is replaying their concatenation. */
  lemma {:induction false} ReplayAppend(o: Order, moves: seq<Move>, more: seq<Move>)
    ensures Replay(o, moves + more) == Replay(Replay(o, moves), more)
    decreases moves
  {
    if moves == [] {
      assert moves + more == more;
    } else {
      assert (moves + more)[1..] == moves[1..] + more;
      ReplayAppend(Advance(o, moves[0].dir, moves[0].at), moves[1..], more);
    }
  }
}
