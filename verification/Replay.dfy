/**
 Reattaching to a running stream (nexus/serve/replay.py), as a state machine whose steps are the stretches of code
 between two suspension points: one producer that appends and finishes, and any number of readers.
 */
module Replay {
  import opened Numbers

  datatype Event = Event(seqNo: int, payload: string)

  /** One run's buffer: a bounded deque, the end mark and the wake-up flag. */
  datatype Buffer = Buffer(maxEvents: nat, events: seq<Event>, done: bool, newData: bool)

  function LastN(events: seq<Event>, n: nat): (r: seq<Event>)
    ensures |r| <= n && |r| <= |events| && r == events[|events| - |r|..]
  {
    if |events| <= n then events else events[|events| - n..]
  }

  function AfterAppend(b: Buffer, e: Event): Buffer {
    b.(events := LastN(b.events + [e], b.maxEvents), newData := true)
  }

  function AfterFinish(b: Buffer): Buffer {
    b.(done := true, newData := true)
  }

  /** Buffered events newer than `cursor`. */
  function Newer(events: seq<Event>, cursor: int): seq<Event> {
    if events == [] then []
    else
      var rest := Newer(events[..|events| - 1], cursor);
      if events[|events| - 1].seqNo > cursor then rest + [events[|events| - 1]] else rest
  }

  /** Where a reader is suspended: not started, at a yield with this much of its snapshot left, in `wait`, or gone. */
  datatype Phase =
    | Starting
    | Yielding(pending: seq<Event>)
    | Waiting(woken: bool)
    | Returned
    | Closed

  /**
   A reader. `cursor` and `phase` are its state; the rest is history: the numbers it delivered and the events
   themselves, how many had been appended at its last snapshot, and whether some snapshot found that an event it needed
   was gone.
   */
  datatype Reader =
    Reader(start: int, cursor: int, phase: Phase, output: seq<int>, delivered: seq<Event>, seen: nat, gap: bool)

  predicate Active(r: Reader) {
    !r.phase.Returned? && !r.phase.Closed?
  }

  /** At a snapshot with `appended` events so far, an event of this run newer than the cursor is no longer retained. */
  predicate Missed(b: Buffer, base: int, appended: nat, cursor: int) {
    && base + appended > Max(cursor, base)
    && (b.events == [] || b.events[0].seqNo > Max(cursor, base) + 1)
  }

  function Snapshot(r: Reader, b: Buffer, base: int, appended: nat): Reader {
    r.(phase := Yielding(Newer(b.events, r.cursor)),
       seen := appended,
       gap := r.gap || Missed(b, base, appended, r.cursor))
  }

  /** At a yield the cursor has already moved to the event handed out. */
  function Yielded(r: Reader): Reader
    requires r.phase.Yielding? && r.phase.pending != []
  {
    var p := r.phase.pending;
    r.(cursor := p[0].seqNo, phase := Yielding(p[1..]), output := r.output + [p[0].seqNo],
       delivered := r.delivered + [p[0]])
  }

  /** From a point inside the loop to the next suspension: yield, return or wait. */
  function Settle(r: Reader, b: Buffer, base: int, appended: nat): (Reader, Buffer)
    requires r.phase.Yielding?
    decreases b.newData
  {
    var pending := r.phase.pending;
    if pending != [] then
      (Yielded(r), b)
    else if b.done then (r.(phase := Returned), b)
    else if b.newData then Settle(Snapshot(r, b, base, appended), b.(newData := false), base, appended)
    else (r.(phase := Waiting(false)), b)
  }

  predicate Resumable(r: Reader) {
    r.phase.Starting? || r.phase.Yielding? || r.phase == Waiting(true)
  }

  /** One resumption of the generator. */
  function Advance(r: Reader, b: Buffer, base: int, appended: nat): (Reader, Buffer)
    requires Resumable(r)
  {
    match r.phase
    case Yielding(_) => Settle(r, b, base, appended)
    case Waiting(_) => Settle(Snapshot(r, b, base, appended), b.(newData := false), base, appended)
    case _ => Settle(Snapshot(r, b, base, appended), b, base, appended)
  }

  function Woken(r: Reader): Reader {
    if r.phase.Waiting? then r.(phase := Waiting(true)) else r
  }

  function WokenAll(readers: seq<Reader>): (r: seq<Reader>)
    ensures |r| == |readers| && forall i :: 0 <= i < |r| ==> r[i] == Woken(readers[i])
  {
    seq(|readers|, i requires 0 <= i < |readers| => Woken(readers[i]))
  }

  // ---------- The system ----------

  /** `log` is every event of the run so far; the first one carries sequence number `base + 1`. */
  datatype System = System(base: int, log: seq<Event>, buffer: Buffer, readers: seq<Reader>)

  datatype Step =
    | Produce(payload: string)
    | Finish
    | Join(after: int)
    | Resume(reader: nat)
    | Leave(reader: nat)

  ghost predicate Init(s: System) {
    s.log == [] && s.buffer == Buffer(s.buffer.maxEvents, [], false, false) && s.readers == []
  }

  predicate Enabled(s: System, step: Step) {
    match step
    case Produce(_) => !s.buffer.done
    case Finish => true
    case Join(_) => true
    case Resume(i) => i < |s.readers| && Resumable(s.readers[i])
    case Leave(i) => i < |s.readers| && Active(s.readers[i])
  }

  function Do(s: System, step: Step): System
    requires Enabled(s, step)
  {
    match step
    case Produce(payload) =>
      var e := Event(s.base + |s.log| + 1, payload);
      s.(log := s.log + [e], buffer := AfterAppend(s.buffer, e), readers := WokenAll(s.readers))
    case Finish => s.(buffer := AfterFinish(s.buffer), readers := WokenAll(s.readers))
    case Join(after) => s.(readers := s.readers + [Reader(after, after, Starting, [], [], 0, false)])
    case Resume(i) =>
      var (r, b) := Advance(s.readers[i], s.buffer, s.base, |s.log|);
      s.(readers := s.readers[i := r], buffer := b)
    case Leave(i) => s.(readers := s.readers[i := s.readers[i].(phase := Closed)])
  }

  /** The steps can be taken one after the other. */
  ghost predicate Possible(s: System, steps: seq<Step>)
    decreases |steps|
  {
    steps == [] || (Enabled(s, steps[0]) && Possible(Do(s, steps[0]), steps[1..]))
  }

  function After(s: System, steps: seq<Step>): System
    requires Possible(s, steps)
    decreases |steps|
  {
    if steps == [] then s else After(Do(s, steps[0]), steps[1..])
  }

  // ---------- What a reader has delivered ----------

  /** The numbers a + 1, ..., b. */
  function Block(a: int, b: int): (r: seq<int>)
    ensures |r| == Max(b - a, 0) && forall k :: 0 <= k < |r| ==> r[k] == a + 1 + k
  {
    if b <= a then [] else seq(b - a, k => a + 1 + k)
  }

  function SeqNos(events: seq<Event>): (r: seq<int>)
    ensures |r| == |events| && forall k :: 0 <= k < |r| ==> r[k] == events[k].seqNo
  {
    seq(|events|, k requires 0 <= k < |events| => events[k].seqNo)
  }

  ghost predicate Numbered(events: seq<Event>, base: int) {
    forall k :: 0 <= k < |events| ==> events[k].seqNo == base + 1 + k
  }

  /** Strictly increasing, above `lo`, up to `hi`. */
  ghost predicate Tidy(xs: seq<int>, lo: int, hi: int) {
    && (forall i, j :: 0 <= i < j < |xs| ==> xs[i] < xs[j])
    && forall i :: 0 <= i < |xs| ==> lo < xs[i] <= hi
  }

  /** Every number above `lo` up to `hi` is there. */
  ghost predicate Holds(xs: seq<int>, lo: int, hi: int) {
    forall n :: lo < n <= hi ==> n in xs
  }

  /** Delivered, or taken in a snapshot and about to be. */
  function Taken(r: Reader): seq<int> {
    r.output + if r.phase.Yielding? then SeqNos(r.phase.pending) else []
  }

  /** The reader wants the numbers above this. */
  function Floor(r: Reader, base: int): int {
    Max(r.start, base)
  }

  /** The newest number of its last snapshot. */
  function Horizon(r: Reader, base: int): int {
    Max(r.start, base + r.seen)
  }

  /**
   `xs` is exactly the block the reader wants, unless there was a gap, and then it is short; either way nothing that is
   still retained and was there at the last snapshot is missing.
   */
  ghost predicate Complete(xs: seq<int>, start: int, base: int, evicted: nat, seen: nat, gap: bool) {
    && (!gap ==> xs == Block(Max(start, base), Max(start, base + seen)))
    && (gap ==> |xs| < Max(start, base + seen) - Max(start, base))
    && Holds(xs, Max(start, base + evicted), base + seen)
  }

  ghost predicate Delivery(r: Reader, base: int, appended: nat, evicted: nat) {
    && r.seen <= appended
    && r.cursor == (if r.output == [] then r.start else r.output[|r.output| - 1])
    && Tidy(Taken(r), Floor(r, base), Horizon(r, base))
    && (!r.gap ==> r.output == Block(Floor(r, base), Max(r.cursor, base)))
    && (r.phase.Starting? ==> r.output == [] && r.seen == 0 && !r.gap)
    && (!r.phase.Closed? ==> Complete(Taken(r), r.start, base, evicted, r.seen, r.gap))
  }

  ghost predicate BlockedRightly(r: Reader, b: Buffer) {
    && (r.phase == Waiting(false) ==> !b.newData && !b.done)
    && (r.phase.Returned? ==> b.done)
  }

  ghost predicate BufferOk(b: Buffer, log: seq<Event>, base: int) {
    Numbered(log, base) && b.events == LastN(log, b.maxEvents)
  }

  ghost predicate ReaderOk(r: Reader, s: System) {
    && |s.buffer.events| <= |s.log|
    && Delivery(r, s.base, |s.log|, |s.log| - |s.buffer.events|)
    && BlockedRightly(r, s.buffer)
  }

  ghost predicate Inv(s: System) {
    && BufferOk(s.buffer, s.log, s.base)
    && forall i :: 0 <= i < |s.readers| ==> ReaderOk(s.readers[i], s)
  }

  // ---------- One step ----------

  lemma LastNAppend(log: seq<Event>, e: Event, n: nat)
    ensures LastN(LastN(log, n) + [e], n) == LastN(log + [e], n)
    ensures |log| - |LastN(log, n)| <= |log + [e]| - |LastN(log + [e], n)|
  {
    if |log| >= n > 0 {
      assert (LastN(log, n) + [e])[1..] == (log + [e])[|log| + 1 - n..];
    }
  }

  lemma {:induction false} NewerBlock(events: seq<Event>, base: int, cursor: int)
    requires Numbered(events, base)
    ensures SeqNos(Newer(events, cursor)) == Block(Max(base, cursor), base + |events|)
  {
    if events != [] {
      NewerBlock(events[..|events| - 1], base, cursor);
    }
  }

  lemma BlockJoin(a: int, b: int, c: int)
    requires a <= b <= c
    ensures Block(a, b) + Block(b, c) == Block(a, c)
  {
  }

  /** The oldest event wanted next is gone. */
  predicate Late(base: int, evicted: nat, appended: nat, cursor: int) {
    base + appended > Max(cursor, base) && evicted + base > Max(cursor, base)
  }

  lemma NewestNumbered(log: seq<Event>, n: nat, base: int)
    requires Numbered(log, base)
    ensures |LastN(log, n)| <= |log| && Numbered(LastN(log, n), base + |log| - |LastN(log, n)|)
  {
  }

  /** What a snapshot takes, in numbers. */
  lemma SnapshotTakes(r: Reader, b: Buffer, base: int, log: seq<Event>)
    requires BufferOk(b, log, base) && Taken(r) == r.output
    ensures
      var evicted := |log| - |b.events|;
      var r' := Snapshot(r, b, base, |log|);
      && Taken(r') == r.output + Block(Max(base + evicted, r.cursor), base + |log|)
      && r'.gap == (r.gap || Late(base, evicted, |log|, r.cursor))
  {
    NewestNumbered(log, b.maxEvents, base);
    NewestLate(b, log, base, r.cursor);
    hide LastN, Block, Newer, Numbered, Missed, Late, SeqNos;
    NewerBlock(b.events, base + |log| - |b.events|, r.cursor);
  }

  lemma NewestLate(b: Buffer, log: seq<Event>, base: int, cursor: int)
    requires |b.events| <= |log| && Numbered(b.events, base + |log| - |b.events|)
    ensures Missed(b, base, |log|, cursor) <==> Late(base, |log| - |b.events|, |log|, cursor)
  {
  }

  lemma TidyJoin(xs: seq<int>, lo: int, mid: int, hi: int)
    requires Tidy(xs, lo, mid) && lo <= mid && (xs == [] || xs[|xs| - 1] <= mid)
    ensures Tidy(xs + Block(mid, hi), lo, Max(mid, hi))
  {
  }

  lemma NothingInBlock(lo: int, hi: int)
    ensures lo >= hi ==> Block(lo, hi) == []
  {
  }

  lemma OutputTidy(r: Reader, base: int, evicted: nat, appended: nat)
    requires Delivery(r, base, appended, evicted) && Taken(r) == r.output
    ensures
      var from, to := Max(base + evicted, r.cursor), base + appended;
      && Tidy(r.output, Floor(r, base), from) && Floor(r, base) <= from
      && (r.output == [] || r.output[|r.output| - 1] <= from)
      && Tidy(r.output, Floor(r, base), Max(r.start, to)) && (from < to ==> Max(from, to) == Max(r.start, to))
  {
    hide Complete, Block, Taken;
  }

  /** A snapshot starts where the cursor stands, or at the oldest event still retained. */
  lemma SnapshotTidy(r: Reader, base: int, evicted: nat, appended: nat)
    requires Delivery(r, base, appended, evicted) && Taken(r) == r.output
    ensures
      var from := Max(base + evicted, r.cursor);
      Tidy(r.output + Block(from, base + appended), Floor(r, base), Max(r.start, base + appended))
  {
    hide *;
    var from := Max(base + evicted, r.cursor);
    NothingInBlock(from, base + appended);
    OutputTidy(r, base, evicted, appended);
    if from < base + appended {
      TidyJoin(r.output, Floor(r, base), from, base + appended);
    } else {
      assert r.output + Block(from, base + appended) == r.output;
    }
  }

  /** With a gap before, what is newly taken lies above the previous horizon. */
  lemma SnapshotAfterGap(r: Reader, base: int, evicted: nat, appended: nat)
    requires Delivery(r, base, appended, evicted) && Taken(r) == r.output && r.gap && !r.phase.Closed?
    ensures Horizon(r, base) == base + r.seen <= Max(base + evicted, r.cursor)
  {
    if base + evicted < base + r.seen {
      assert base + r.seen in Taken(r);
    }
  }

  lemma SnapshotCount(r: Reader, base: int, evicted: nat, appended: nat)
    requires Delivery(r, base, appended, evicted) && Taken(r) == r.output && !r.phase.Closed? && evicted <= appended
    requires r.gap || Late(base, evicted, appended, r.cursor)
    ensures |r.output| + |Block(Max(base + evicted, r.cursor), base + appended)|
            < Max(r.start, base + appended) - Floor(r, base)
  {
    if r.gap {
      SnapshotAfterGap(r, base, evicted, appended);
    }
  }

  lemma SnapshotExact(r: Reader, base: int, evicted: nat, appended: nat)
    requires Delivery(r, base, appended, evicted) && Taken(r) == r.output && !r.phase.Closed? && evicted <= appended
    requires !r.gap && !Late(base, evicted, appended, r.cursor)
    ensures r.output + Block(Max(base + evicted, r.cursor), base + appended)
            == Block(Floor(r, base), Max(r.start, base + appended))
  {
    var have := Max(r.cursor, base);
    if have < base + appended {
      BlockJoin(Floor(r, base), have, base + appended);
    } else {
      assert Block(Max(base + evicted, r.cursor), base + appended) == [];
    }
  }

  lemma SnapshotRetained(r: Reader, base: int, evicted: nat, appended: nat)
    requires Delivery(r, base, appended, evicted) && Taken(r) == r.output && !r.phase.Closed? && evicted <= appended
    ensures Holds(r.output + Block(Max(base + evicted, r.cursor), base + appended),
                  Max(r.start, base + evicted), base + appended)
  {
    var from := Max(base + evicted, r.cursor);
    forall n {:trigger n in Taken(r)} | Max(r.start, base + evicted) < n <= base + appended
      ensures n in r.output + Block(from, base + appended)
    {
      if n > from {
        assert Block(from, base + appended)[n - from - 1] == n;
      } else {
        assert n <= r.cursor <= base + r.seen;
        assert n in Taken(r);
      }
    }
  }

  lemma SnapshotComplete(r: Reader, base: int, evicted: nat, appended: nat)
    requires Delivery(r, base, appended, evicted) && Taken(r) == r.output && !r.phase.Closed? && evicted <= appended
    ensures
      Complete(r.output + Block(Max(base + evicted, r.cursor), base + appended), r.start, base, evicted, appended,
               r.gap || Late(base, evicted, appended, r.cursor))
  {
    hide Delivery, Taken, Block, Holds;
    SnapshotRetained(r, base, evicted, appended);
    if r.gap || Late(base, evicted, appended, r.cursor) {
      SnapshotCount(r, base, evicted, appended);
    } else {
      SnapshotExact(r, base, evicted, appended);
    }
  }

  /** The facts about a snapshot, taken together. */
  lemma SnapshotSums(r: Reader, b: Buffer, base: int, log: seq<Event>)
    requires BufferOk(b, log, base) && |b.events| <= |log| && Delivery(r, base, |log|, |log| - |b.events|)
    requires Taken(r) == r.output && !r.phase.Closed?
    ensures
      var r' := Snapshot(r, b, base, |log|);
      && Tidy(Taken(r'), Floor(r, base), Max(r.start, base + |log|))
      && Complete(Taken(r'), r.start, base, |log| - |b.events|, |log|, r'.gap)
  {
    hide *;
    var evicted := |log| - |b.events|;
    SnapshotTakes(r, b, base, log);
    SnapshotTidy(r, base, evicted, |log|);
    SnapshotComplete(r, base, evicted, |log|);
  }

  lemma SnapshotDelivers(r: Reader, b: Buffer, base: int, log: seq<Event>)
    requires BufferOk(b, log, base) && Delivery(r, base, |log|, |log| - |b.events|)
    requires Taken(r) == r.output && Resumable(r)
    ensures Delivery(Snapshot(r, b, base, |log|), base, |log|, |log| - |b.events|)
    ensures Snapshot(r, b, base, |log|).phase.Yielding? && BufferOk(b.(newData := false), log, base)
  {
    hide Newer, SeqNos, Block, Tidy, BufferOk, Missed, Late, LastN, Taken, Complete, Numbered;
    LoweredFlag(b, log, base);
    SnapshotSums(r, b, base, log);
  }

  lemma LoweredFlag(b: Buffer, log: seq<Event>, base: int)
    requires BufferOk(b, log, base)
    ensures BufferOk(b.(newData := false), log, base) && |b.events| <= |log|
  {
    hide LastN, Numbered;
  }

  lemma BlockPrefix(a: int, b: int, n: nat)
    requires n <= |Block(a, b)|
    ensures Block(a, b)[..n] == Block(a, a + n)
  {
  }

  lemma YieldTakesNothing(r: Reader)
    requires r.phase.Yielding? && r.phase.pending != []
    ensures
      && Taken(Yielded(r)) == Taken(r)
      && |r.output| < |Taken(r)| && Taken(r)[|r.output|] == Yielded(r).cursor
      && Yielded(r).output == Taken(r)[..|r.output| + 1]
  {
    var pending := r.phase.pending;
    SeqNosCons(pending);
    hide SeqNos;
    OneMore(r.output, pending[0].seqNo, SeqNos(pending[1..]));
  }

  lemma SeqNosCons(events: seq<Event>)
    requires events != []
    ensures SeqNos(events) == [events[0].seqNo] + SeqNos(events[1..])
  {
  }

  lemma OneMore(xs: seq<int>, x: int, rest: seq<int>)
    ensures xs + ([x] + rest) == xs + [x] + rest
    ensures (xs + ([x] + rest))[|xs|] == x && (xs + ([x] + rest))[..|xs| + 1] == xs + [x]
  {
  }

  lemma YieldExact(r: Reader, base: int, evicted: nat, appended: nat)
    requires Delivery(r, base, appended, evicted) && r.phase.Yielding? && r.phase.pending != []
    ensures Yielded(r).cursor >= base && (!r.gap ==> Yielded(r).output == Block(Floor(r, base), Yielded(r).cursor))
  {
    hide Holds, SeqNos, Taken, Yielded;
    YieldTakesNothing(r);
    if !r.gap {
      BlockPrefix(Floor(r, base), Horizon(r, base), |r.output| + 1);
    }
  }

  /** Delivering the next event of the snapshot. */
  lemma YieldDelivers(r: Reader, base: int, evicted: nat, appended: nat)
    requires Delivery(r, base, appended, evicted) && r.phase.Yielding? && r.phase.pending != []
    ensures Delivery(Yielded(r), base, appended, evicted)
  {
    hide Tidy, Block, Taken, Complete, SeqNos, Holds;
    YieldTakesNothing(r);
    YieldExact(r, base, evicted, appended);
  }

  /** With its snapshot used up, a reader may stop anywhere. */
  lemma StopDelivers(r: Reader, base: int, evicted: nat, appended: nat, phase: Phase)
    requires Delivery(r, base, appended, evicted) && Taken(r) == r.output && !r.phase.Closed?
    requires phase.Returned? || phase.Waiting?
    ensures Delivery(r.(phase := phase), base, appended, evicted)
  {
    assert Taken(r.(phase := phase)) == r.output;
    hide Block, Holds, Tidy, Taken;
  }

  lemma {:induction false} SettleDelivers(r: Reader, b: Buffer, base: int, log: seq<Event>)
    requires BufferOk(b, log, base) && |b.events| <= |log| && Delivery(r, base, |log|, |log| - |b.events|)
    requires r.phase.Yielding?
    ensures
      var (r', b') := Settle(r, b, base, |log|);
      && Delivery(r', base, |log|, |log| - |b.events|) && BlockedRightly(r', b')
      && b' == b.(newData := b'.newData) && (b'.newData ==> b.newData)
    decreases b.newData
  {
    hide Delivery, Snapshot, BufferOk, LastN;
    assert r.phase.pending == [] ==> Taken(r) == r.output;
    hide Taken, SeqNos;
    if r.phase.pending != [] {
      YieldDelivers(r, base, |log| - |b.events|, |log|);
    } else if b.done {
      StopDelivers(r, base, |log| - |b.events|, |log|, Returned);
    } else if b.newData {
      SnapshotDelivers(r, b, base, log);
      SettleDelivers(Snapshot(r, b, base, |log|), b.(newData := false), base, log);
    } else {
      StopDelivers(r, base, |log| - |b.events|, |log|, Waiting(false));
    }
  }

  lemma AdvanceDelivers(r: Reader, b: Buffer, base: int, log: seq<Event>)
    requires BufferOk(b, log, base) && |b.events| <= |log| && Delivery(r, base, |log|, |log| - |b.events|)
    requires Resumable(r)
    ensures
      var (r', b') := Advance(r, b, base, |log|);
      && Delivery(r', base, |log|, |log| - |b.events|) && BlockedRightly(r', b')
      && b' == b.(newData := b'.newData) && (b'.newData ==> b.newData)
  {
    hide Delivery, Settle, Snapshot, BufferOk, BlockedRightly, LastN, SeqNos;
    assert !r.phase.Yielding? ==> Taken(r) == r.output;
    hide Taken;
    if r.phase.Yielding? {
      SettleDelivers(r, b, base, log);
    } else {
      SnapshotDelivers(r, b, base, log);
      SettleDelivers(Snapshot(r, b, base, |log|), if r.phase.Starting? then b else b.(newData := false), base, log);
    }
  }

  /** Other appends only age what a reader has. */
  lemma DeliveryGrows(r: Reader, base: int, evicted: nat, appended: nat, evicted': nat, appended': nat)
    requires Delivery(r, base, appended, evicted) && appended <= appended' && evicted <= evicted'
    ensures Delivery(r, base, appended', evicted') && Delivery(Woken(r), base, appended', evicted')
  {
    hide Tidy, Block, SeqNos;
    assert Taken(Woken(r)) == Taken(r);
    hide Taken;
  }

  lemma LeaveDelivers(r: Reader, base: int, evicted: nat, appended: nat)
    requires Delivery(r, base, appended, evicted)
    ensures Delivery(r.(phase := Closed), base, appended, evicted)
  {
    assert forall k :: 0 <= k < |r.output| ==> r.output[k] == Taken(r)[k];
  }

  // ---------- Any run ----------

  lemma AppendedBuffer(b: Buffer, log: seq<Event>, base: int, e: Event)
    requires BufferOk(b, log, base) && e.seqNo == base + |log| + 1
    ensures
      var b', log' := AfterAppend(b, e), log + [e];
      && BufferOk(b', log', base) && |b.events| <= |log| && |b'.events| <= |log'|
      && |log| - |b.events| <= |log'| - |b'.events|
  {
    LastNAppend(log, e, b.maxEvents);
    LastNLength(log, b.maxEvents);
    LastNLength(log + [e], b.maxEvents);
    hide LastN;
  }

  lemma LastNLength(log: seq<Event>, n: nat)
    ensures |LastN(log, n)| <= |log|
  {
  }

  lemma BufferStep(s: System, step: Step)
    requires BufferOk(s.buffer, s.log, s.base) && Enabled(s, step)
    requires step.Produce? || step.Finish?
    ensures
      var s' := Do(s, step);
      && BufferOk(s'.buffer, s'.log, s'.base) && |s.buffer.events| <= |s.log| <= |s'.log|
      && |s'.buffer.events| <= |s'.log|
      && |s.log| - |s.buffer.events| <= |s'.log| - |s'.buffer.events|
  {
    LastNLength(s.log, s.buffer.maxEvents);
    hide LastN, Numbered, WokenAll, AfterAppend, Advance;
    if step.Produce? {
      AppendedBuffer(s.buffer, s.log, s.base, Event(s.base + |s.log| + 1, step.payload));
    }
  }

  lemma AgedReader(r: Reader, s: System, s': System)
    requires ReaderOk(r, s) && s'.base == s.base && (s.buffer.done ==> s'.buffer.done)
    requires |s.log| <= |s'.log| && |s'.buffer.events| <= |s'.log|
    requires |s.log| - |s.buffer.events| <= |s'.log| - |s'.buffer.events|
    ensures ReaderOk(Woken(r), s')
  {
    hide Delivery;
    DeliveryGrows(r, s.base, |s.log| - |s.buffer.events|, |s.log|, |s'.log| - |s'.buffer.events|, |s'.log|);
  }

  lemma ProducerStep(s: System, step: Step, i: nat)
    requires Inv(s) && Enabled(s, step) && i < |s.readers|
    requires step.Produce? || step.Finish?
    ensures ReaderOk(Do(s, step).readers[i], Do(s, step))
  {
    assert ReaderOk(s.readers[i], s);
    hide ReaderOk, Inv, BufferOk, AfterAppend;
    BufferStep(s, step);
    AgedReader(s.readers[i], s, Do(s, step)) by {
      assert s.buffer.done ==> Do(s, step).buffer.done;
    }
  }

  /** Lowering the flag disturbs nobody's standing. */
  lemma FlagLowered(r: Reader, s: System, s': System)
    requires ReaderOk(r, s) && s'.base == s.base && s'.log == s.log
    requires s'.buffer == s.buffer.(newData := s'.buffer.newData) && (s'.buffer.newData ==> s.buffer.newData)
    ensures ReaderOk(r, s')
  {
    hide Delivery;
  }

  lemma ResumedReader(s: System, i: nat)
    requires BufferOk(s.buffer, s.log, s.base) && Enabled(s, Resume(i)) && ReaderOk(s.readers[i], s)
    ensures
      var s' := Do(s, Resume(i));
      && s'.base == s.base && s'.log == s.log && |s'.readers| == |s.readers|
      && (forall j :: 0 <= j < |s.readers| && j != i ==> s'.readers[j] == s.readers[j])
      && s'.buffer == s.buffer.(newData := s'.buffer.newData) && (s'.buffer.newData ==> s.buffer.newData)
      && BufferOk(s'.buffer, s'.log, s'.base) && ReaderOk(s'.readers[i], s')
  {
    hide Delivery, Advance, LastN, Numbered, BlockedRightly;
    AdvanceDelivers(s.readers[i], s.buffer, s.base, s.log);
  }

  lemma ReaderStep(s: System, i: nat)
    requires Inv(s) && Enabled(s, Resume(i))
    ensures Inv(Do(s, Resume(i)))
  {
    assert i < |s.readers|;
    hide ReaderOk, BufferOk, Do, Enabled;
    var s' := Do(s, Resume(i));
    ResumedReader(s, i);
    forall j | 0 <= j < |s'.readers| ensures ReaderOk(s'.readers[j], s') {
      if j != i {
        FlagLowered(s.readers[j], s, s');
      }
    }
  }

  lemma NewReaderOk(s: System, after: int)
    requires BufferOk(s.buffer, s.log, s.base)
    ensures ReaderOk(Reader(after, after, Starting, [], [], 0, false), s)
  {
    LastNLength(s.log, s.buffer.maxEvents);
    hide LastN, Numbered;
    assert Taken(Reader(after, after, Starting, [], [], 0, false)) == [];
  }

  lemma JoinStep(s: System, after: int)
    requires Inv(s)
    ensures Inv(Do(s, Join(after)))
  {
    var r := Reader(after, after, Starting, [], [], 0, false);
    hide BufferOk;
    NewReaderOk(s, after);
    hide Delivery, LastN, ReaderOk;
    assert forall j :: 0 <= j < |s.readers| ==> ReaderOk(s.readers[j], s);
  }

  lemma LeaveStep(s: System, i: nat)
    requires Inv(s) && Enabled(s, Leave(i))
    ensures Inv(Do(s, Leave(i)))
  {
    assert ReaderOk(s.readers[i], s);
    hide Delivery, LastN;
    LeaveDelivers(s.readers[i], s.base, |s.log| - |s.buffer.events|, |s.log|);
    assert forall j :: 0 <= j < |s.readers| ==> ReaderOk(s.readers[j], s);
  }

  lemma StepKeepsInv(s: System, step: Step)
    requires Inv(s) && Enabled(s, step)
    ensures Inv(Do(s, step))
  {
    match step
    case Resume(i) => ReaderStep(s, i);
    case Join(after) => JoinStep(s, after);
    case Leave(i) => LeaveStep(s, i);
    case _ =>
      BufferStep(s, step);
      forall i | 0 <= i < |s.readers| ensures ReaderOk(Do(s, step).readers[i], Do(s, step)) {
        ProducerStep(s, step, i);
      }
      hide ReaderOk, BufferOk;
  }

  /** Every interleaving of one producer with any number of readers keeps the invariant. */
  lemma {:induction false} RunKeepsInv(s: System, steps: seq<Step>)
    requires Inv(s) && Possible(s, steps)
    ensures Inv(After(s, steps))
    decreases |steps|
  {
    hide Inv, Do, Enabled;
    if steps != [] {
      StepKeepsInv(s, steps[0]);
      RunKeepsInv(Do(s, steps[0]), steps[1..]);
    }
  }

  lemma DeliveryMeans(r: Reader, base: int, appended: nat, evicted: nat)
    requires Delivery(r, base, appended, evicted)
    ensures Tidy(r.output, Floor(r, base), Horizon(r, base))
    ensures (r.phase.Returned? || r.phase.Waiting?) ==>
              Taken(r) == r.output && (r.output == Block(Floor(r, base), Horizon(r, base)) <==> !r.gap)
  {
    assert forall k :: 0 <= k < |r.output| ==> r.output[k] == Taken(r)[k];
    if r.phase.Returned? || r.phase.Waiting? {
      assert Taken(r) == r.output;
      hide Tidy, Taken, Holds, SeqNos;
    }
  }

  // ---------- The events themselves ----------

  /** Every one of these events is the one the run logged under its number. */
  ghost predicate FromLog(events: seq<Event>, log: seq<Event>, base: int) {
    forall e :: e in events ==> base < e.seqNo <= base + |log| && e == log[e.seqNo - base - 1]
  }

  ghost predicate ReaderTold(r: Reader, log: seq<Event>, base: int) {
    && r.output == SeqNos(r.delivered) && FromLog(r.delivered, log, base)
    && (r.phase.Yielding? ==> FromLog(r.phase.pending, log, base))
  }

  ghost predicate AllTold(s: System) {
    forall i :: 0 <= i < |s.readers| ==> ReaderTold(s.readers[i], s.log, s.base)
  }

  lemma {:induction false} NewerAreThere(events: seq<Event>, cursor: int)
    ensures forall e :: e in Newer(events, cursor) <==> e in events && e.seqNo > cursor
  {
    if events != [] {
      NewerAreThere(events[..|events| - 1], cursor);
      assert events == events[..|events| - 1] + [events[|events| - 1]];
    }
  }

  lemma RetainedFromLog(log: seq<Event>, n: nat, base: int)
    requires Numbered(log, base)
    ensures FromLog(LastN(log, n), log, base)
  {
    LastNLength(log, n);
    SuffixFromLog(log, |log| - |LastN(log, n)|, base);
    hide FromLog, Numbered;
  }

  lemma SuffixFromLog(log: seq<Event>, from: nat, base: int)
    requires Numbered(log, base) && from <= |log|
    ensures FromLog(log[from..], log, base)
  {
    forall e | e in log[from..]
      ensures base < e.seqNo <= base + |log| && e == log[e.seqNo - base - 1]
    {
      var rest := log[from..];
      var k :| 0 <= k < |rest| && rest[k] == e;
      assert e == log[from + k] && e.seqNo == base + 1 + (from + k);
    }
  }

  lemma SnapshotTold(r: Reader, b: Buffer, log: seq<Event>, base: int, appended: nat)
    requires ReaderTold(r, log, base) && BufferOk(b, log, base)
    ensures ReaderTold(Snapshot(r, b, base, appended), log, base)
  {
    NewerAreThere(b.events, r.cursor);
    hide Newer, SeqNos, Missed, LastN, Numbered;
    RetainedFromLog(log, b.maxEvents, base);
  }

  lemma YieldTold(r: Reader, log: seq<Event>, base: int)
    requires ReaderTold(r, log, base) && r.phase.Yielding? && r.phase.pending != []
    ensures ReaderTold(Yielded(r), log, base)
  {
    var e := r.phase.pending[0];
    assert SeqNos(r.delivered + [e]) == SeqNos(r.delivered) + [e.seqNo];
    hide SeqNos;
  }

  lemma {:induction false} SettleTold(r: Reader, b: Buffer, base: int, log: seq<Event>)
    requires ReaderTold(r, log, base) && BufferOk(b, log, base) && r.phase.Yielding?
    ensures ReaderTold(Settle(r, b, base, |log|).0, log, base)
    decreases b.newData
  {
    hide BufferOk, SeqNos, FromLog, Snapshot, Yielded;
    if r.phase.pending != [] {
      YieldTold(r, log, base);
    } else if !b.done && b.newData {
      SnapshotTold(r, b, log, base, |log|);
      SnapshotYields(r, b, base, |log|);
      LowerOk(b, log, base);
      SettleTold(Snapshot(r, b, base, |log|), b.(newData := false), base, log);
    }
  }

  lemma LowerOk(b: Buffer, log: seq<Event>, base: int)
    requires BufferOk(b, log, base)
    ensures BufferOk(b.(newData := false), log, base)
  {
    hide LastN, Numbered;
  }

  lemma AdvanceTold(r: Reader, b: Buffer, base: int, log: seq<Event>)
    requires ReaderTold(r, log, base) && BufferOk(b, log, base) && Resumable(r)
    ensures ReaderTold(Advance(r, b, base, |log|).0, log, base)
  {
    hide ReaderTold, Settle, Snapshot, BufferOk;
    LowerOk(b, log, base);
    if r.phase.Yielding? {
      SettleTold(r, b, base, log);
    } else {
      SnapshotTold(r, b, log, base, |log|);
      SnapshotYields(r, b, base, |log|);
      SettleTold(Snapshot(r, b, base, |log|), if r.phase.Starting? then b else b.(newData := false), base, log);
    }
  }

  lemma SnapshotYields(r: Reader, b: Buffer, base: int, appended: nat)
    ensures Snapshot(r, b, base, appended).phase.Yielding?
  {
    hide Newer, Missed;
  }

  lemma StepTold(s: System, step: Step)
    requires Inv(s) && AllTold(s) && Enabled(s, step)
    ensures AllTold(Do(s, step))
  {
    assert BufferOk(s.buffer, s.log, s.base);
    hide Inv, BufferOk, Settle, LastN, Advance, SeqNos;
    assert SeqNos([]) == [];
    match step
    case Resume(i) =>
      assert ReaderTold(s.readers[i], s.log, s.base);
      AdvanceTold(s.readers[i], s.buffer, s.base, s.log);
      hide ReaderTold;
    case _ =>
  }

  lemma {:induction false} RunTold(s: System, steps: seq<Step>)
    requires Inv(s) && AllTold(s) && Possible(s, steps)
    ensures AllTold(After(s, steps))
    decreases |steps|
  {
    hide Inv, AllTold, Do, Enabled;
    if steps != [] {
      StepKeepsInv(s, steps[0]);
      StepTold(s, steps[0]);
      RunTold(Do(s, steps[0]), steps[1..]);
    }
  }

  function Payloads(events: seq<Event>): (r: seq<string>)
    ensures |r| == |events|
  {
    seq(|events|, k requires 0 <= k < |events| => events[k].payload)
  }

  /** What the producer was given, in order. */
  ghost function Given(steps: seq<Step>): seq<string> {
    if steps == [] then []
    else (if steps[0].Produce? then [steps[0].payload] else []) + Given(steps[1..])
  }

  /** The log is what was produced, in order. */
  lemma {:induction false} LogIsProduced(s: System, steps: seq<Step>)
    requires Possible(s, steps)
    ensures Payloads(After(s, steps).log) == Payloads(s.log) + Given(steps)
    decreases |steps|
  {
    if steps != [] {
      LogStep(s, steps[0]);
      LogIsProduced(Do(s, steps[0]), steps[1..]);
      hide Payloads, Do, Enabled;
      var own := if steps[0].Produce? then [steps[0].payload] else [];
      JoinedTexts(Payloads(s.log), own, Given(steps[1..]));
    }
  }

  lemma JoinedTexts(a: seq<string>, b: seq<string>, c: seq<string>)
    ensures a + b + c == a + (b + c)
    ensures a + [] == a
  {
  }

  lemma LogStep(s: System, step: Step)
    requires Enabled(s, step)
    ensures Payloads(Do(s, step).log) == Payloads(s.log) + if step.Produce? then [step.payload] else []
  {
    hide Advance, WokenAll, AfterAppend;
  }

  // ---------- One resumption hands out one event ----------

  /** The next event of the snapshot under way, or without one the oldest retained event above the cursor. */
  ghost predicate IsNext(e: Event, r: Reader, b: Buffer) {
    if r.phase.Yielding? && r.phase.pending != [] then e == r.phase.pending[0]
    else
      exists k :: 0 <= k < |b.events| && b.events[k] == e && e.seqNo > r.cursor
                  && forall l :: 0 <= l < k ==> b.events[l].seqNo <= r.cursor
  }

  /** Nothing is handed out, or just that event. */
  ghost predicate HandsOut(before: Reader, b: Buffer, after: Reader) {
    || after.delivered == before.delivered
    || (after.delivered != [] && after.delivered[..|after.delivered| - 1] == before.delivered
        && IsNext(after.delivered[|after.delivered| - 1], before, b))
  }

  lemma {:induction false} NewerFirst(events: seq<Event>, cursor: int)
    requires Newer(events, cursor) != []
    ensures exists k :: 0 <= k < |events| && events[k] == Newer(events, cursor)[0] && events[k].seqNo > cursor
                        && forall l :: 0 <= l < k ==> events[l].seqNo <= cursor
  {
    var n := |events| - 1;
    if Newer(events[..n], cursor) != [] {
      NewerFirst(events[..n], cursor);
      assert forall l :: 0 <= l < n ==> events[..n][l] == events[l];
    } else {
      NewerAreThere(events[..n], cursor);
      assert forall l :: 0 <= l < n ==> events[l] in events[..n];
    }
  }

  lemma SettleHandsOut(r: Reader, b: Buffer, base: int, appended: nat)
    requires r.phase.Yielding?
    ensures HandsOut(r, b, Settle(r, b, base, appended).0)
  {
    hide Newer, Missed;
    if r.phase.pending == [] && !b.done && b.newData && Newer(b.events, r.cursor) != [] {
      NewerFirst(b.events, r.cursor);
    }
  }

  lemma AdvanceHandsOut(r: Reader, b: Buffer, base: int, appended: nat)
    requires Resumable(r)
    ensures HandsOut(r, b, Advance(r, b, base, appended).0)
  {
    hide Newer, Missed, Settle;
    if r.phase.Yielding? {
      SettleHandsOut(r, b, base, appended);
    } else {
      var look, kept := Snapshot(r, b, base, appended), if r.phase.Starting? then b else b.(newData := false);
      SettleHandsOut(look, kept, base, appended);
      LookedNext(r, b, look, kept);
      hide HandsOut, Snapshot;
      assert Advance(r, b, base, appended) == Settle(look, kept, base, appended) by { SnapshotYields(r, b, base, appended); }
      HandedAfterLook(r, b, look, kept, Settle(look, kept, base, appended).0);
    }
  }

  lemma LookedNext(r: Reader, b: Buffer, look: Reader, kept: Buffer)
    requires !r.phase.Yielding? && look.phase == Yielding(Newer(b.events, r.cursor))
    requires look.cursor == r.cursor && kept.events == b.events
    ensures forall e :: IsNext(e, look, kept) ==> IsNext(e, r, b)
  {
    if Newer(b.events, r.cursor) != [] {
      NewerFirst(b.events, r.cursor);
    }
    hide Newer;
  }

  lemma HandedAfterLook(r: Reader, b: Buffer, look: Reader, kept: Buffer, after: Reader)
    requires HandsOut(look, kept, after) && look.delivered == r.delivered
    requires forall e :: IsNext(e, look, kept) ==> IsNext(e, r, b)
    ensures HandsOut(r, b, after)
  {
    hide IsNext;
  }

  /** A resumption is settling from here, after a look at the buffer if no snapshot is under way. */
  lemma AdvanceSettles(r: Reader, b: Buffer, base: int, appended: nat)
    requires Resumable(r)
    ensures
      var look := Snapshot(r, b, base, appended);
      && look.phase.Yielding?
      && (r.phase.Yielding? ==> Advance(r, b, base, appended) == Settle(r, b, base, appended))
      && (r.phase.Starting? ==> Advance(r, b, base, appended) == Settle(look, b, base, appended))
      && (r.phase.Waiting? ==> Advance(r, b, base, appended) == Settle(look, b.(newData := false), base, appended))
  {
    hide Settle, Newer, Missed;
  }

  lemma SettleLooksAgain(r: Reader, b: Buffer, base: int, appended: nat)
    requires r.phase.Yielding? && r.phase.pending == [] && !b.done && b.newData
    ensures
      var look := Snapshot(r, b, base, appended);
      && look.phase.Yielding? && look.delivered == r.delivered
      && Settle(r, b, base, appended) == Settle(look, b.(newData := false), base, appended)
  {
    hide Newer, Missed;
  }

  lemma SnapshotIgnoresFlag(r: Reader, b: Buffer, base: int, appended: nat, newData: bool)
    ensures Snapshot(r, b.(newData := newData), base, appended) == Snapshot(r, b, base, appended)
    ensures Snapshot(r, b, base, appended).delivered == r.delivered
  {
    hide Newer;
  }

  lemma HandedOne(before: Reader, b: Buffer, after: Reader, yielded: seq<Event>)
    requires HandsOut(before, b, after) && after.delivered == before.delivered + yielded && |yielded| <= 1
    ensures yielded != [] ==> IsNext(yielded[0], before, b)
  {
    hide IsNext;
    if yielded != [] {
      assert after.delivered[|after.delivered| - 1] == yielded[0];
    }
  }

  /**
   What a run delivers. The buffer is always the newest events; every event delivered is the one that was produced under
   its number; every reader's output increases and lies above its start; with no gap it is exactly the contiguous block
   from its start (or the run's first event) to its cursor; and a reader that is not in the middle of a snapshot and was
   not closed missed something exactly when some snapshot did.
   */
  lemma RunDelivers(s0: System, steps: seq<Step>, i: nat)
    requires Init(s0) && Possible(s0, steps) && i < |After(s0, steps).readers|
    ensures
      var s := After(s0, steps);
      var r := s.readers[i];
      && s.buffer.events == LastN(s.log, s.buffer.maxEvents)
      && Payloads(s.log) == Given(steps) && r.output == SeqNos(r.delivered) && FromLog(r.delivered, s.log, s.base)
      && Tidy(r.output, Floor(r, s.base), Horizon(r, s.base))
      && (!r.gap ==> r.output == Block(Floor(r, s.base), Max(r.cursor, s.base)))
      && ((r.phase.Returned? || r.phase.Waiting?) ==>
            (r.output == Block(Floor(r, s.base), Horizon(r, s.base)) <==> !r.gap))
  {
    hide *;
    InitIsFine(s0);
    RunKeepsInv(s0, steps);
    RunTold(s0, steps);
    LogIsProduced(s0, steps);
    EmptyFirst(Given(steps));
    var s := After(s0, steps);
    ReaderFacts(s, i);
    DeliveryMeans(s.readers[i], s.base, |s.log|, |s.log| - |s.buffer.events|);
  }

  lemma InitIsFine(s: System)
    requires Init(s)
    ensures Inv(s) && AllTold(s) && Payloads(s.log) == []
  {
  }

  lemma EmptyFirst(texts: seq<string>)
    ensures [] + texts == texts
  {
  }

  lemma ReaderFacts(s: System, i: nat)
    requires Inv(s) && AllTold(s) && i < |s.readers|
    ensures s.buffer.events == LastN(s.log, s.buffer.maxEvents) && |s.buffer.events| <= |s.log|
    ensures
      var r := s.readers[i];
      && r.output == SeqNos(r.delivered) && FromLog(r.delivered, s.log, s.base)
      && Delivery(r, s.base, |s.log|, |s.log| - |s.buffer.events|)
      && (!r.gap ==> r.output == Block(Floor(r, s.base), Max(r.cursor, s.base)))
  {
    assert ReaderOk(s.readers[i], s) && ReaderTold(s.readers[i], s.log, s.base);
    hide LastN, SeqNos, FromLog, Block, Tidy, Taken, Complete, Numbered;
  }

  /** The newest event still retained that the reader wants, and everything before it, has been delivered. */
  ghost predicate CaughtUp(s: System, r: Reader) {
    Holds(r.output, Max(r.start, s.base + |s.log| - |s.buffer.events|), s.base + |s.log|)
  }

  /**
   A reader that returned or went to sleep has delivered every retained event it asked for exactly when nothing was
   appended after its last snapshot, or it asked for nothing that is retained.
   */
  lemma CaughtUpIff(s: System, i: nat)
    requires Inv(s) && i < |s.readers|
    requires s.readers[i].phase.Returned? || s.readers[i].phase.Waiting?
    ensures
      var r := s.readers[i];
      CaughtUp(s, r) <==> r.seen == |s.log| || r.start >= s.base + |s.log| || s.buffer.events == []
  {
    var r := s.readers[i];
    assert ReaderOk(r, s);
    assert Taken(r) == r.output;
    var newest := s.base + |s.log|;
    if r.seen < |s.log| && r.start < newest && s.buffer.events != [] {
      assert newest !in r.output;
    }
  }

  // ---------- Wake-ups ----------

  ghost predicate AtMostOneActive(s: System) {
    forall i, j :: 0 <= i < j < |s.readers| ==> !Active(s.readers[i]) || !Active(s.readers[j])
  }

  /** There is never more than one reader attached. */
  ghost predicate AlwaysOne(s: System, steps: seq<Step>)
    requires Possible(s, steps)
    decreases |steps|
  {
    AtMostOneActive(s) && (steps == [] || AlwaysOne(Do(s, steps[0]), steps[1..]))
  }

  /** A reader past its first snapshot has seen everything, or the flag tells it to look again. */
  predicate Attentive(r: Reader, newData: bool, appended: nat) {
    Active(r) && !r.phase.Starting? ==> newData || r.seen == appended
  }

  ghost predicate AllAttentive(s: System) {
    forall i :: 0 <= i < |s.readers| ==> Attentive(s.readers[i], s.buffer.newData, |s.log|)
  }

  lemma {:induction false} SettleAttentive(r: Reader, b: Buffer, base: int, appended: nat)
    requires r.phase.Yielding? && Attentive(r, b.newData, appended)
    ensures var (r', b') := Settle(r, b, base, appended); Attentive(r', b'.newData, appended)
    decreases b.newData
  {
    if r.phase.pending == [] && !b.done && b.newData {
      SettleAttentive(Snapshot(r, b, base, appended), b.(newData := false), base, appended);
    }
  }

  lemma StepAttentive(s: System, step: Step)
    requires AllAttentive(s) && AtMostOneActive(s) && Enabled(s, step)
    ensures AllAttentive(Do(s, step))
  {
    if step.Resume? {
      var r := s.readers[step.reader];
      assert Attentive(r, s.buffer.newData, |s.log|);
      hide Newer, Missed;
      if r.phase.Yielding? {
        SettleAttentive(r, s.buffer, s.base, |s.log|);
      } else {
        SettleAttentive(Snapshot(r, s.buffer, s.base, |s.log|),
                        if r.phase.Starting? then s.buffer else s.buffer.(newData := false), s.base, |s.log|);
      }
      hide Settle, Snapshot;
      assert forall j :: 0 <= j < |s.readers| && j != step.reader ==> !Active(s.readers[j]);
    }
  }

  lemma {:induction false} RunAttentive(s: System, steps: seq<Step>)
    requires Possible(s, steps) && AlwaysOne(s, steps) && AllAttentive(s)
    ensures AllAttentive(After(s, steps))
    decreases |steps|
  {
    hide AllAttentive, AtMostOneActive, Do, Enabled;
    if steps != [] {
      StepAttentive(s, steps[0]);
      RunAttentive(Do(s, steps[0]), steps[1..]);
    }
  }

  /**
   No lost wake-up. While at most one reader is attached at a time, a reader blocked in `wait` has delivered every
   retained event it asked for, the run is not finished, and the flag is down, so the next append or finish wakes it.
   */
  lemma NoLostWakeup(s0: System, steps: seq<Step>, i: nat)
    requires Init(s0) && Possible(s0, steps) && AlwaysOne(s0, steps)
    requires i < |After(s0, steps).readers| && After(s0, steps).readers[i].phase == Waiting(false)
    ensures var s := After(s0, steps); CaughtUp(s, s.readers[i]) && !s.buffer.done && !s.buffer.newData
  {
    RunKeepsInv(s0, steps);
    RunAttentive(s0, steps);
    var s := After(s0, steps);
    assert ReaderOk(s.readers[i], s) && Attentive(s.readers[i], s.buffer.newData, |s.log|);
    hide After, Possible, AlwaysOne, Holds;
    CaughtUpIff(s, i);
  }

  /** With any number of readers, none is left asleep once the run is finished. */
  lemma NobodySleepsAfterFinish(s0: System, steps: seq<Step>, i: nat)
    requires Init(s0) && Possible(s0, steps) && i < |After(s0, steps).readers|
    requires After(s0, steps).buffer.done
    ensures var r := After(s0, steps).readers[i]; Active(r) ==> Resumable(r)
  {
    RunKeepsInv(s0, steps);
    assert ReaderOk(After(s0, steps).readers[i], After(s0, steps));
  }

  // ---------- After the finish ----------

  /** `n` resumptions in a row of one reader, with nothing else happening. */
  function Drain(r: Reader, b: Buffer, base: int, appended: nat, n: nat): (Reader, Buffer)
    decreases n
  {
    if n == 0 || !Resumable(r) then (r, b)
    else var (r', b') := Advance(r, b, base, appended); Drain(r', b', base, appended, n - 1)
  }

  lemma YieldShrinks(r: Reader)
    requires r.phase.Yielding? && r.phase.pending != []
    ensures Yielded(r).phase.Yielding? && |Yielded(r).phase.pending| == |r.phase.pending| - 1
  {
  }

  lemma FinishedAdvance(r: Reader, b: Buffer, base: int, appended: nat)
    requires b.done && r.phase.Yielding?
    ensures
      var (r', b') := Advance(r, b, base, appended);
      && b' == b
      && (r.phase.pending == [] ==> r' == r.(phase := Returned) && r.output == Taken(r))
      && (r.phase.pending != [] ==>
            r'.phase.Yielding? && |r'.phase.pending| == |r.phase.pending| - 1 && Taken(r') == Taken(r))
  {
    hide Snapshot, Yielded, SeqNos;
    if r.phase.pending == [] {
      assert r.output == Taken(r);
    } else {
      hide Taken;
      YieldTakesNothing(r);
      YieldShrinks(r);
    }
  }

  /** Once the run is finished, a reader delivers what is left of its snapshot and returns. */
  lemma {:induction false} FinishedReaderReturns(r: Reader, b: Buffer, base: int, appended: nat)
    requires b.done && r.phase.Yielding?
    ensures
      var (r', b') := Drain(r, b, base, appended, |r.phase.pending| + 1);
      r'.phase.Returned? && r'.output == Taken(r) && b' == b
    decreases |r.phase.pending|
  {
    hide Advance, Taken;
    FinishedAdvance(r, b, base, appended);
    if r.phase.pending != [] {
      FinishedReaderReturns(Advance(r, b, base, appended).0, b, base, appended);
    }
  }

  /** Dropping out at the cursor and coming back from there loses nothing and repeats nothing. */
  lemma ReattachContinues(s: System, i: nat, j: nat)
    requires Inv(s) && i < |s.readers| && j < |s.readers|
    requires s.readers[i].phase.Closed? && s.readers[j].start == s.readers[i].cursor
    requires !s.readers[i].gap && !s.readers[j].gap
    ensures s.readers[i].output + s.readers[j].output
            == Block(Floor(s.readers[i], s.base), Max(s.readers[j].cursor, s.base))
  {
    var a, b := s.readers[i], s.readers[j];
    assert ReaderOk(a, s) && ReaderOk(b, s);
    assert a.cursor >= a.start;
    assert b.cursor >= b.start;
    BlockJoin(Floor(a, s.base), Max(a.cursor, s.base), Max(b.cursor, s.base));
  }

  // ---------- The reattach guard ----------

  /** The 409 answer: the client named an event and something after it is already gone. */
  predicate Refused(b: Buffer, after: int) {
    b.events != [] && after != 0 && after + 1 < b.events[0].seqNo
  }

  /**
   For every request: while something is retained, the guard refuses a client that names an event exactly when that
   event is of an earlier run or the first snapshot, if taken now, would find a gap. It errs on two sides: it refuses a
   client of an earlier run although nothing of this one is gone, and it lets a client through that names no event
   although the beginning is gone.
   */
  lemma GuardMatchesGap(s: System, after: int)
    requires Inv(s)
    ensures Refused(s.buffer, after)
            <==> && after != 0 && s.buffer.events != []
                 && (after < s.base || Missed(s.buffer, s.base, |s.log|, after))
    ensures Refused(s.buffer, after) && !Missed(s.buffer, s.base, |s.log|, after)
            <==> after != 0 && after < s.base && s.buffer.events != [] && |s.buffer.events| == |s.log|
    ensures Missed(s.buffer, s.base, |s.log|, after) && !Refused(s.buffer, after)
            <==> && (after == 0 || s.buffer.events == [])
                 && s.base + |s.log| - |s.buffer.events| > Max(after, s.base)
  {
    assert Numbered(s.log, s.base);
    assert s.buffer.events == LastN(s.log, s.buffer.maxEvents);
  }

  /** With room for one event, a client that asks from the start after two gets the second only, unwarned. */
  lemma SilentGapAtZero()
    ensures
      var s := System(0, [], Buffer(1, [], false, false), []);
      var t := After(s, [Produce("a"), Produce("b")]);
      && Possible(s, [Produce("a"), Produce("b")])
      && t.buffer.events == [B] && !Refused(t.buffer, 0) && Missed(t.buffer, t.base, |t.log|, 0)
  {
    hide Do, LastN, AfterAppend;
    var s := System(0, [], Buffer(1, [], false, false), []);
    var t := System(0, [A], Buffer(1, [A], false, true), []);
    var u := System(0, [A, B], Buffer(1, [B], false, true), []);
    OneSlot();
    EventProduced(s, "a");
    EventProduced(t, "b");
    assert [] + [A] == [A] && [A] + [B] == [A, B];
    var steps := [Produce("a"), Produce("b")];
    assert steps[1..] == [Produce("b")] && [Produce("b")][1..] == [];
    assert After(t, [Produce("b")]) == u;
  }

  lemma OneSlot()
    ensures AfterAppend(Buffer(1, [], false, false), A) == Buffer(1, [A], false, true)
    ensures AfterAppend(Buffer(1, [A], false, true), B) == Buffer(1, [B], false, true)
  {
    assert [] + [A] == [A] && ([A] + [B])[1..] == [B];
  }

  lemma EventProduced(s: System, payload: string)
    requires !s.buffer.done && s.readers == []
    ensures
      var e := Event(s.base + |s.log| + 1, payload);
      Do(s, Produce(payload)) == System(s.base, s.log + [e], AfterAppend(s.buffer, e), [])
  {
    hide AfterAppend;
    assert WokenAll([]) == [];
  }

  /** A client that last saw an event of an earlier run of the session is refused although nothing of this run is gone. */
  lemma GuardRefusesEarlierRun(after: int, base: int, e: Event)
    requires after != 0 && after < base && e.seqNo == base + 1
    ensures
      var b := Buffer(1, [e], false, true);
      Refused(b, after) && !Missed(b, base, 1, after)
  {
  }

  // ---------- Two readers ----------

  lemma {:induction false} RunsCompose(s: System, first: seq<Step>, second: seq<Step>)
    requires Possible(s, first) && Possible(After(s, first), second)
    ensures Possible(s, first + second) && After(s, first + second) == After(After(s, first), second)
    decreases |first|
  {
    hide Do, Enabled;
    if first == [] {
      assert first + second == second;
    } else {
      RunsCompose(Do(s, first[0]), first[1..], second);
      assert (first + second)[1..] == first[1..] + second;
    }
  }

  /** `steps` is a run from `s` to `t`. */
  ghost predicate Reaches(s: System, steps: seq<Step>, t: System) {
    Possible(s, steps) && After(s, steps) == t
  }

  lemma Take(s: System, steps: seq<Step>, t: System, step: Step) returns (steps': seq<Step>, t': System)
    requires Reaches(s, steps, t) && Enabled(t, step)
    ensures Reaches(s, steps', t') && t' == Do(t, step)
  {
    RunsCompose(s, steps, [step]);
    steps', t' := steps + [step], Do(t, step);
  }

  /** The state with these events, all of them retained. */
  function Stage(max: nat, log: seq<Event>, done: bool, newData: bool, readers: seq<Reader>): System {
    System(0, log, Buffer(max, log, done, newData), readers)
  }

  const A := Event(1, "a")
  const B := Event(2, "b")
  const PAUSED := Reader(0, 1, Yielding([]), [1], [A], 1, false)
  const ASLEEP := Reader(0, 1, Waiting(false), [1], [A], 1, false)

  lemma ArrivesAt(max: nat, log: seq<Event>, newData: bool, readers: seq<Reader>, e: Event, log': seq<Event>)
    requires e.seqNo == |log| + 1 && log' == log + [e]
    requires AfterAppend(Buffer(max, log, false, newData), e) == Buffer(max, log', false, true)
    ensures Do(Stage(max, log, false, newData, readers), Produce(e.payload))
            == Stage(max, log', false, true, WokenAll(readers))
  {
    hide Advance, WokenAll, Woken, AfterAppend;
  }

  lemma EventsArrive(max: nat, newData: bool, readers: seq<Reader>)
    requires max >= 2
    ensures Do(Stage(max, [], false, newData, readers), Produce("a")) == Stage(max, [A], false, true, WokenAll(readers))
    ensures Do(Stage(max, [A], false, newData, readers), Produce("b")) == Stage(max, [A, B], false, true, WokenAll(readers))
  {
    hide Advance, WokenAll, Woken, Stage;
    assert [] + [A] == [A] && [A] + [B] == [A, B];
    assert AfterAppend(Buffer(max, [], false, newData), A) == Buffer(max, [A], false, true);
    assert AfterAppend(Buffer(max, [A], false, newData), B) == Buffer(max, [A, B], false, true);
    hide AfterAppend, LastN;
    ArrivesAt(max, [], newData, readers, A, [A]);
    ArrivesAt(max, [A], newData, readers, B, [A, B]);
  }

  lemma NewerOfTwo(e: Event, f: Event, cursor: int)
    ensures Newer([e], cursor) == if e.seqNo > cursor then [e] else []
    ensures e.seqNo <= cursor < f.seqNo ==> Newer([e, f], cursor) == [f]
  {
    assert [e][..0] == [] && [e, f][..1] == [e];
  }

  lemma TakesOne(r: Reader, b: Buffer, base: int, appended: nat, e: Event)
    requires Newer(b.events, r.cursor) == [e] && !Missed(b, base, appended, r.cursor)
    ensures
      Settle(Snapshot(r, b, base, appended), b, base, appended)
      == (r.(cursor := e.seqNo, phase := Yielding([]), output := r.output + [e.seqNo], delivered := r.delivered + [e],
             seen := appended), b)
  {
    hide Newer, Missed;
    assert [e][1..] == [];
  }

  lemma TakesNothing(r: Reader, b: Buffer, base: int, appended: nat)
    requires Newer(b.events, r.cursor) == [] && !Missed(b, base, appended, r.cursor) && !b.newData && !b.done
    ensures Settle(Snapshot(r, b, base, appended), b, base, appended) == (r.(phase := Waiting(false), seen := appended), b)
  {
    hide Newer, Missed;
  }

  /** A reader that joins at 0 when event 1 is the only one delivers it. */
  lemma FirstLook(max: nat, readers: seq<Reader>, i: nat)
    requires i < |readers| && readers[i] == Reader(0, 0, Starting, [], [], 0, false)
    ensures Do(Stage(max, [A], false, true, readers), Resume(i)) == Stage(max, [A], false, true, readers[i := PAUSED])
  {
    hide Newer, Settle, Snapshot, LastN, WokenAll;
    NewerOfTwo(A, B, 0);
    TakesOne(readers[i], Buffer(max, [A], false, true), 0, 1, A);
    assert [] + [1] == [1] && [] + [A] == [A];
  }

  /** The same reader, resumed with the flag still up, lowers it, finds nothing and sleeps. */
  lemma SecondLook(max: nat, readers: seq<Reader>, i: nat)
    requires i < |readers| && readers[i] == PAUSED
    ensures Do(Stage(max, [A], false, true, readers), Resume(i)) == Stage(max, [A], false, false, readers[i := ASLEEP])
  {
    hide Newer, LastN, WokenAll;
    NewerOfTwo(A, B, 1);
    var b := Buffer(max, [A], false, true);
    var r := Snapshot(PAUSED, b, 0, 1);
    assert r == Snapshot(PAUSED, b.(newData := false), 0, 1);
    assert Settle(PAUSED, b, 0, 1) == Settle(r, b.(newData := false), 0, 1);
    TakesNothing(PAUSED, b.(newData := false), 0, 1);
    hide Settle, Snapshot;
  }

  /** A sleeper woken by event 2 lowers the flag and delivers it. */
  lemma ThirdLook(max: nat, readers: seq<Reader>, i: nat)
    requires i < |readers| && readers[i] == Woken(ASLEEP)
    ensures
      Do(Stage(max, [A, B], false, true, readers), Resume(i))
      == Stage(max, [A, B], false, false, readers[i := Reader(0, 2, Yielding([]), [1, 2], [A, B], 2, false)])
  {
    hide Newer, Settle, LastN, WokenAll;
    NewerOfTwo(A, B, 1);
    var b := Buffer(max, [A, B], false, true);
    assert Snapshot(readers[i], b, 0, 2) == Snapshot(readers[i], b.(newData := false), 0, 2);
    TakesOne(readers[i], b.(newData := false), 0, 2, B);
    hide Snapshot;
    assert [1] + [2] == [1, 2] && [A] + [B] == [A, B];
  }

  /** With the flag down a reader at its last yield sleeps, or returns if the run is finished, whatever is retained. */
  lemma LastLook(max: nat, log: seq<Event>, done: bool, newData: bool, readers: seq<Reader>, i: nat)
    requires i < |readers| && readers[i] == PAUSED && (done || !newData)
    ensures
      Do(Stage(max, log, done, newData, readers), Resume(i))
      == Stage(max, log, done, newData, readers[i := PAUSED.(phase := if done then Returned else Waiting(false))])
  {
  }

  lemma OneReaderUpToDate(max: nat) returns (steps: seq<Step>)
    requires max >= 2
    ensures Reaches(Stage(max, [], false, false, []), steps, Stage(max, [A], false, true, [PAUSED]))
  {
    var start, joiner := Stage(max, [], false, false, []), Reader(0, 0, Starting, [], [], 0, false);
    NoSteps(start);
    JoinsEmpty(max, joiner);
    WokenStarter(joiner);
    EventsArrive(max, false, [joiner]);
    FirstLook(max, [joiner], 0);
    assert [joiner][0 := PAUSED] == [PAUSED];
    hide Reaches, Newer, Missed, Settle, Snapshot, Advance, LastN, Do, WokenAll, Woken;
    StageEnabled(max, [], false, [], Join(0));
    StageEnabled(max, [], false, [joiner], Produce("a"));
    StageEnabled(max, [A], true, [joiner], Resume(0));
    var t;
    steps, t := Take(start, [], start, Join(0));
    steps, t := Take(start, steps, t, Produce("a"));
    steps, t := Take(start, steps, t, Resume(0));
  }

  lemma NoSteps(s: System)
    ensures Reaches(s, [], s)
  {
  }

  lemma JoinsEmpty(max: nat, joiner: Reader)
    requires joiner == Reader(0, 0, Starting, [], [], 0, false)
    ensures Do(Stage(max, [], false, false, []), Join(0)) == Stage(max, [], false, false, [joiner])
  {
    hide Advance, LastN;
  }

  lemma WokenStarter(r: Reader)
    requires r.phase.Starting?
    ensures WokenAll([r]) == [r]
  {
  }

  lemma StageEnabled(max: nat, log: seq<Event>, newData: bool, readers: seq<Reader>, step: Step)
    requires step.Resume? ==> step.reader < |readers| && Resumable(readers[step.reader])
    requires !step.Leave?
    ensures Enabled(Stage(max, log, false, newData, readers), step)
  {
  }

  lemma TwoReadersUpToDate(max: nat) returns (steps: seq<Step>)
    requires max >= 2
    ensures Reaches(Stage(max, [], false, false, []), steps, Stage(max, [A], false, false, [PAUSED, ASLEEP]))
  {
    hide Reaches, Newer, Missed, Settle, Snapshot, Advance, LastN;
    var start, joiner := Stage(max, [], false, false, []), Reader(0, 0, Starting, [], [], 0, false);
    steps := OneReaderUpToDate(max);
    var t := Stage(max, [A], false, true, [PAUSED]);
    steps, t := Take(start, steps, t, Join(0));
    assert t == Stage(max, [A], false, true, [PAUSED, joiner]);
    FirstLook(max, [PAUSED, joiner], 1);
    steps, t := Take(start, steps, t, Resume(1));
    assert [PAUSED, joiner][1 := PAUSED] == [PAUSED, PAUSED];
    SecondLook(max, [PAUSED, PAUSED], 1);
    steps, t := Take(start, steps, t, Resume(1));
    assert [PAUSED, PAUSED][1 := ASLEEP] == [PAUSED, ASLEEP];
  }

  lemma WakeupStolen(max: nat) returns (steps: seq<Step>, other: Reader)
    requires max >= 2
    ensures Reaches(Stage(max, [], false, false, []), steps, Stage(max, [A, B], false, false, [ASLEEP, other]))
  {
    hide Reaches, Newer, Missed, Settle, Snapshot, Advance, LastN;
    var start := Stage(max, [], false, false, []);
    steps := TwoReadersUpToDate(max);
    var t := Stage(max, [A], false, false, [PAUSED, ASLEEP]);
    EventsArrive(max, false, [PAUSED, ASLEEP]);
    steps, t := Take(start, steps, t, Produce("b"));
    assert WokenAll([PAUSED, ASLEEP]) == [PAUSED, Woken(ASLEEP)];
    ThirdLook(max, [PAUSED, Woken(ASLEEP)], 1);
    steps, t := Take(start, steps, t, Resume(1));
    other := Reader(0, 2, Yielding([]), [1, 2], [A, B], 2, false);
    assert [PAUSED, Woken(ASLEEP)][1 := other] == [PAUSED, other];
    LastLook(max, [A, B], false, false, [PAUSED, other], 0);
    steps, t := Take(start, steps, t, Resume(0));
    assert [PAUSED, other][0 := ASLEEP] == [ASLEEP, other];
  }

  /**
   The hypothesis of one reader at a time is needed: with two, reader 1 lowers the flag that event 2 raised while
   reader 0 stood at a yield, and reader 0 goes to sleep on an event that is retained and never delivered to it.
   */
  lemma TwoReadersLoseWakeup(s: System) returns (steps: seq<Step>)
    requires Init(s) && s.base == 0 && s.buffer.maxEvents >= 2
    ensures Possible(s, steps)
    ensures
      var t := After(s, steps);
      && |t.readers| == 2 && t.readers[0].phase == Waiting(false) && !CaughtUp(t, t.readers[0])
      && t.buffer.events == t.log
  {
    var other;
    steps, other := WakeupStolen(s.buffer.maxEvents);
    assert s == Stage(s.buffer.maxEvents, [], false, false, []);
    hide Possible, After;
    assert 2 !in ASLEEP.output;
  }

  /**
   The other hypothesis is needed too: an event appended while the only reader stands at its last yield, followed by
   the finish, is never delivered, and the reader returns.
   */
  lemma ReturnsWithoutTail(s: System) returns (steps: seq<Step>)
    requires Init(s) && s.base == 0 && s.buffer.maxEvents >= 2
    ensures Possible(s, steps)
    ensures After(s, steps) == Stage(s.buffer.maxEvents, [A, B], true, true, [PAUSED.(phase := Returned)])
  {
    hide Possible, After, Newer, Missed, Settle, Snapshot, Advance, LastN;
    var max := s.buffer.maxEvents;
    assert s == Stage(max, [], false, false, []);
    steps := OneReaderUpToDate(max);
    var t := Stage(max, [A], false, true, [PAUSED]);
    EventsArrive(max, true, [PAUSED]);
    steps, t := Take(s, steps, t, Produce("b"));
    assert WokenAll([PAUSED]) == [PAUSED];
    steps, t := Take(s, steps, t, Finish);
    assert t == Stage(max, [A, B], true, true, [PAUSED]);
    LastLook(max, [A, B], true, true, [PAUSED], 0);
    steps, t := Take(s, steps, t, Resume(0));
    assert [PAUSED][0 := PAUSED.(phase := Returned)] == [PAUSED.(phase := Returned)];
  }
}
