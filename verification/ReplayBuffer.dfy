/**
 The two objects of nexus/serve/replay.py whose fields change: a run's buffer and a reader's generator. Their methods
 are proved to take exactly the steps of the state machine in module Replay.
 */
module ReplayBuffers {
  import opened Replay

  class SessionBuffer {
    const maxEvents: nat
    var events: seq<Event>
    var done: bool
    var newData: bool

    constructor (maxEvents: nat)
      ensures View() == Buffer(maxEvents, [], false, false)
    {
      this.maxEvents := maxEvents;
      events, done, newData := [], false, false;
    }

    function View(): Buffer
      reads this
    {
      Buffer(maxEvents, events, done, newData)
    }

    /** A bounded deque: the oldest event goes when there are too many. */
    method Append(e: Event)
      requires |events| <= maxEvents
      modifies this
      ensures View() == AfterAppend(old(View()), e) && |events| <= maxEvents
    {
      events := events + [e];
      if |events| > maxEvents {
        events := events[1..];
      }
      newData := true;
    }

    method Finish()
      modifies this
      ensures View() == AfterFinish(old(View()))
    {
      done := true;
      newData := true;
    }

    /** The buffered events newer than `cursor`, in order. */
    method NewerThan(cursor: int) returns (pending: seq<Event>)
      ensures pending == Newer(events, cursor)
    {
      pending := [];
      for i := 0 to |events|
        invariant pending == Newer(events[..i], cursor)
      {
        assert events[..i + 1][..i] == events[..i];
        if events[i].seqNo > cursor {
          pending := pending + [events[i]];
        }
      }
      assert events[..|events|] == events;
    }
  }

  /** A reattached reader: the suspended generator. */
  class ReplayReader {
    const start: int
    var cursor: int
    var phase: Phase
    ghost var output: seq<int>
    ghost var delivered: seq<Event>
    ghost var seen: nat
    ghost var gap: bool

    constructor (afterSeq: int)
      ensures View() == Reader(afterSeq, afterSeq, Starting, [], [], 0, false)
    {
      start, cursor, phase := afterSeq, afterSeq, Starting;
      output, delivered, seen, gap := [], [], 0, false;
    }

    ghost function View(): Reader
      reads this
    {
      Reader(start, cursor, phase, output, delivered, seen, gap)
    }

    method TakeSnapshot(buffer: SessionBuffer, ghost base: int, ghost appended: nat)
      modifies this
      ensures View() == Snapshot(old(View()), buffer.View(), base, appended)
    {
      var pending := buffer.NewerThan(cursor);
      gap := gap || Missed(buffer.View(), base, appended, cursor);
      seen := appended;
      phase := Yielding(pending);
    }

    /** Run to the next suspension; the result is the event yielded, if it is a yield. */
    method Next(buffer: SessionBuffer, ghost base: int, ghost appended: nat) returns (yielded: seq<Event>)
      requires Resumable(View())
      modifies this, buffer`newData
      ensures (View(), buffer.View()) == Advance(old(View()), old(buffer.View()), base, appended)
      ensures delivered == old(delivered) + yielded && |yielded| <= 1
      ensures yielded != [] ==> IsNext(yielded[0], old(View()), old(buffer.View()))
    {
      AdvanceHandsOut(View(), buffer.View(), base, appended);
      AdvanceSettles(View(), buffer.View(), base, appended);
      SnapshotIgnoresFlag(View(), buffer.View(), base, appended, false);
      hide HandsOut, IsNext, Snapshot, Settle, Advance;
      if phase.Waiting? {
        buffer.newData := false;
      }
      if !phase.Yielding? {
        TakeSnapshot(buffer, base, appended);
      }
      while phase.pending == [] && !buffer.done && buffer.newData
        invariant phase.Yielding? && delivered == old(delivered)
        invariant Settle(View(), buffer.View(), base, appended)
                  == Advance(old(View()), old(buffer.View()), base, appended)
        decreases buffer.newData
      {
        SettleLooksAgain(View(), buffer.View(), base, appended);
        SnapshotIgnoresFlag(View(), buffer.View(), base, appended, false);
        buffer.newData := false;
        TakeSnapshot(buffer, base, appended);
      }
      yielded := Suspend(buffer, base, appended);
      HandedOne(old(View()), old(buffer.View()), View(), yielded);
    }

    /** From inside the loop, with nothing new to look at, to the next suspension. */
    method Suspend(buffer: SessionBuffer, ghost base: int, ghost appended: nat) returns (yielded: seq<Event>)
      requires phase.Yielding? && (phase.pending == [] && !buffer.done ==> !buffer.newData)
      modifies this
      ensures (View(), buffer.View()) == Settle(old(View()), buffer.View(), base, appended)
      ensures delivered == old(delivered) + yielded
      ensures yielded == if old(phase.pending) != [] then [old(phase.pending)[0]] else []
    {
      if phase.pending != [] {
        var e := phase.pending[0];
        cursor := e.seqNo;
        output, delivered := output + [e.seqNo], delivered + [e];
        phase := Yielding(phase.pending[1..]);
        yielded := [e];
      } else {
        phase := if buffer.done then Returned else Waiting(false);
        yielded := [];
      }
    }
  }
}
