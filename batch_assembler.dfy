/** The batching consumer (internal/kafka/consumers/log_processor_service.go,
    `ConsumeClaim` and `processBatch`): decoded log records are buffered, every
    message is marked as consumed as soon as it is read, and the buffer is
    written to the log table when it is full, when the timer fires, and when
    the session ends. The `select` over the message channel, the timer and the
    session context becomes a sequence of events. The write at the end of the
    session is made with the session's context, which is cancelled by then,
    so the database call fails and those records are not stored. */
module LogProcessor {
  import opened Common
  import opened Models
  import opened LogStore
  import opened LogHandlers

  /** internal/constants/kafka.go */
  const DefaultBatchSize: int := 20
  const DefaultBatchTimeout: int := 2 * Second

  /** What the `select` received: a message at a partition offset, whose JSON
      decoded to a record or did not; the timer firing; the session ending. */
  datatype Event = Msg(offset: nat, record: Option<Log>) | Tick | SessionDone

  /** One turn of the loop: the event, the clock reading `time.Now()` gives
      during it, and what the database answers if the turn writes a batch.
      `fault` is consulted only by the writes of a full buffer and of the
      timer, which run on the live session context and may fail for any
      reason the database has; the write at the end of the session ignores
      it, because the context it runs on is already cancelled. */
  datatype Step = Step(event: Event, now: Time, fault: Option<Error>)

  /** What the consumer does to the outside, in order: marking a message
      (`session.MarkMessage`) and writing a batch, with the error the write
      returned. */
  datatype Effect = Mark(offset: nat) | Flush(batch: seq<Log>, err: Option<Error>)

  /** The loop's state: the buffer, the effects so far, when the timer is due,
      and whether the handler has returned. */
  datatype ConsumerState = ConsumerState(batch: seq<Log>, effects: seq<Effect>, deadline: Time, done: bool)

  /** What the database call returns when its context has been cancelled. */
  const Canceled: Error := Failure("context canceled")

  /** The state on entry: an empty buffer and a timer armed for one timeout. */
  function Start(batchTimeout: int, now: Time): ConsumerState
  {
    ConsumerState([], [], now + batchTimeout, false)
  }

  /** The processing metadata: a zero timestamp or creation time becomes `now`;
      a non-zero one is kept; nothing else in the record changes. */
  function Stamp(rec: Log, now: Time): (r: Log)
    ensures r.timestamp == (if IsZeroTime(rec.timestamp) then now else rec.timestamp)
    ensures r.createdAt == (if IsZeroTime(rec.createdAt) then now else rec.createdAt)
    ensures r.(timestamp := rec.timestamp, createdAt := rec.createdAt) == rec
  {
    var withTimestamp := if IsZeroTime(rec.timestamp) then rec.(timestamp := now) else rec;
    if IsZeroTime(withTimestamp.createdAt) then withTimestamp.(createdAt := now) else withTimestamp
  }

  /** `processBatch`: the batch goes to `HandleLogBatch`, whose error is recorded. */
  function FlushOf(batch: seq<Log>, fault: Option<Error>): Effect
  {
    Flush(batch, BatchInsertError(batch, fault))
  }

  /** One turn of the `select` loop. Nothing happens once the handler has returned. */
  function Next(batchSize: int, batchTimeout: int, s: ConsumerState, step: Step): ConsumerState
  {
    if s.done then s
    else match step.event
      case Msg(offset, None) =>
        s.(effects := s.effects + [Mark(offset)])
      case Msg(offset, Some(rec)) =>
        var batch := s.batch + [Stamp(rec, step.now)];
        var effects := s.effects + [Mark(offset)];
        if |batch| >= batchSize then
          ConsumerState([], effects + [FlushOf(batch, step.fault)], step.now + batchTimeout, false)
        else
          s.(batch := batch, effects := effects)
      case Tick =>
        if |s.batch| > 0 then
          ConsumerState([], s.effects + [FlushOf(s.batch, step.fault)], step.now + batchTimeout, false)
        else
          s.(deadline := step.now + batchTimeout)
      case SessionDone =>
        var effects := if |s.batch| > 0 then s.effects + [FlushOf(s.batch, Some(Canceled))] else s.effects;
        ConsumerState([], effects, s.deadline, true)
  }

  /** The state after a sequence of turns. */
  function Run(batchSize: int, batchTimeout: int, s: ConsumerState, steps: seq<Step>): ConsumerState
  {
    if steps == [] then s
    else Next(batchSize, batchTimeout, Run(batchSize, batchTimeout, s, steps[..|steps| - 1]), steps[|steps| - 1])
  }

  // ---------------------------------------------------------------------------
  // Observing the effects

  /** The offsets marked, in order. */
  function Marks(e: seq<Effect>): seq<nat>
  {
    if e == [] then []
    else Marks(e[..|e| - 1]) + (if e[|e| - 1].Mark? then [e[|e| - 1].offset] else [])
  }

  /** Every record handed to the database, in order, whatever the answer. */
  function Flushed(e: seq<Effect>): seq<Log>
  {
    if e == [] then []
    else Flushed(e[..|e| - 1]) + (if e[|e| - 1].Flush? then e[|e| - 1].batch else [])
  }

  /** The records the database accepted, in order. */
  function Stored(e: seq<Effect>): seq<Log>
  {
    if e == [] then []
    else Stored(e[..|e| - 1]) + (if e[|e| - 1].Flush? && e[|e| - 1].err.None? then e[|e| - 1].batch else [])
  }

  /** The records of the writes the database refused, in order. */
  function Failed(e: seq<Effect>): seq<Log>
  {
    if e == [] then []
    else Failed(e[..|e| - 1]) + (if e[|e| - 1].Flush? && e[|e| - 1].err.Some? then e[|e| - 1].batch else [])
  }

  function FlushCount(e: seq<Effect>): nat
  {
    if e == [] then 0 else FlushCount(e[..|e| - 1]) + (if e[|e| - 1].Flush? then 1 else 0)
  }

  lemma Append(e: seq<Effect>, x: Effect)
    ensures Marks(e + [x]) == Marks(e) + (if x.Mark? then [x.offset] else [])
    ensures Flushed(e + [x]) == Flushed(e) + (if x.Flush? then x.batch else [])
    ensures Stored(e + [x]) == Stored(e) + (if x.Flush? && x.err.None? then x.batch else [])
    ensures Failed(e + [x]) == Failed(e) + (if x.Flush? && x.err.Some? then x.batch else [])
    ensures FlushCount(e + [x]) == FlushCount(e) + (if x.Flush? then 1 else 0)
  {
    assert (e + [x])[..|e|] == e;
  }

  /** At every point of the effect sequence, at least as many messages have
      been marked as records have been handed to the database: each record's
      offset is committed before its batch is written. */
  predicate MarkedAhead(e: seq<Effect>)
  {
    forall k :: 0 <= k <= |e| ==> |Flushed(e[..k])| <= |Marks(e[..k])|
  }

  lemma MarkedAheadAppend(e: seq<Effect>, x: Effect)
    requires MarkedAhead(e)
    requires |Flushed(e + [x])| <= |Marks(e + [x])|
    ensures MarkedAhead(e + [x])
  {
    forall k | 0 <= k <= |e| + 1
      ensures |Flushed((e + [x])[..k])| <= |Marks((e + [x])[..k])|
    {
      if k <= |e| {
        assert (e + [x])[..k] == e[..k];
      } else {
        assert (e + [x])[..k] == e + [x];
      }
    }
  }

  // ---------------------------------------------------------------------------
  // The reference: what arrived before the session ended

  predicate Ended(steps: seq<Step>)
  {
    steps != [] && (Ended(steps[..|steps| - 1]) || steps[|steps| - 1].event.SessionDone?)
  }

  /** The decoded records, stamped, in arrival order, up to the end of the session. */
  function Received(steps: seq<Step>): seq<Log>
  {
    if steps == [] then []
    else
      var prefix := steps[..|steps| - 1];
      var last := steps[|steps| - 1];
      if Ended(prefix) then Received(prefix)
      else if last.event.Msg? && last.event.record.Some? then Received(prefix) + [Stamp(last.event.record.value, last.now)]
      else Received(prefix)
  }

  /** The offsets of every message read, decodable or not, up to the end of the session. */
  function Offsets(steps: seq<Step>): seq<nat>
  {
    if steps == [] then []
    else
      var prefix := steps[..|steps| - 1];
      var last := steps[|steps| - 1];
      if !Ended(prefix) && last.event.Msg? then Offsets(prefix) + [last.event.offset]
      else Offsets(prefix)
  }

  // ---------------------------------------------------------------------------
  // One turn

  /** A message that does not decode is marked and skipped: the buffer and the
      writes are unchanged. */
  lemma DecodeFailureSkipped(batchSize: int, batchTimeout: int, s: ConsumerState, offset: nat, now: Time, fault: Option<Error>)
    requires !s.done
    ensures Next(batchSize, batchTimeout, s, Step(Msg(offset, None), now, fault)).batch == s.batch
    ensures Marks(Next(batchSize, batchTimeout, s, Step(Msg(offset, None), now, fault)).effects) == Marks(s.effects) + [offset]
    ensures Flushed(Next(batchSize, batchTimeout, s, Step(Msg(offset, None), now, fault)).effects) == Flushed(s.effects)
  {
    Append(s.effects, Mark(offset));
  }

  /** A record that fills the buffer: its message is marked first, then exactly
      the buffered records, in arrival order, are written; the buffer is emptied
      whether or not the write failed, and the timer is re-armed. */
  lemma FullBatchFlushed(batchSize: int, batchTimeout: int, s: ConsumerState, offset: nat, rec: Log, now: Time, fault: Option<Error>)
    requires !s.done && |s.batch| + 1 >= batchSize
    ensures var t := Next(batchSize, batchTimeout, s, Step(Msg(offset, Some(rec)), now, fault));
      && t.batch == []
      && t.effects == s.effects + [Mark(offset), FlushOf(s.batch + [Stamp(rec, now)], fault)]
      && Flushed(t.effects) == Flushed(s.effects) + s.batch + [Stamp(rec, now)]
      && Marks(t.effects) == Marks(s.effects) + [offset]
      && (fault.Some? ==> Stored(t.effects) == Stored(s.effects))
      && t.deadline == now + batchTimeout
  {
    var e1 := s.effects + [Mark(offset)];
    Append(s.effects, Mark(offset));
    Append(e1, FlushOf(s.batch + [Stamp(rec, now)], fault));
    assert e1 + [FlushOf(s.batch + [Stamp(rec, now)], fault)] == s.effects + [Mark(offset), FlushOf(s.batch + [Stamp(rec, now)], fault)];
  }

  /** The timer: a non-empty buffer is written and emptied whatever the answer,
      an empty one causes no write, and the timer is re-armed either way. */
  lemma TickFlushes(batchSize: int, batchTimeout: int, s: ConsumerState, now: Time, fault: Option<Error>)
    requires !s.done
    ensures var t := Next(batchSize, batchTimeout, s, Step(Tick, now, fault));
      && t.batch == []
      && t.deadline == now + batchTimeout
      && Marks(t.effects) == Marks(s.effects)
      && Flushed(t.effects) == Flushed(s.effects) + s.batch
      && FlushCount(t.effects) == FlushCount(s.effects) + (if s.batch == [] then 0 else 1)
  {
    if s.batch != [] {
      Append(s.effects, FlushOf(s.batch, fault));
    }
  }

  /** The end of the session: one final write of a non-empty buffer, none of an
      empty one, and the handler returns. The final write runs on the
      cancelled context, so it fails whatever the database would have said:
      the buffered records are handed over but none is stored. */
  lemma SessionEndFlushes(batchSize: int, batchTimeout: int, s: ConsumerState, now: Time, fault: Option<Error>)
    requires !s.done
    ensures var t := Next(batchSize, batchTimeout, s, Step(SessionDone, now, fault));
      && t.done && t.batch == []
      && Marks(t.effects) == Marks(s.effects)
      && Flushed(t.effects) == Flushed(s.effects) + s.batch
      && Stored(t.effects) == Stored(s.effects)
      && Failed(t.effects) == Failed(s.effects) + s.batch
      && FlushCount(t.effects) == FlushCount(s.effects) + (if s.batch == [] then 0 else 1)
      && (s.batch != [] ==> t.effects == s.effects + [Flush(s.batch, Some(Wrapped("failed to create log batch", Canceled)))])
  {
    if s.batch != [] {
      Append(s.effects, FlushOf(s.batch, Some(Canceled)));
    }
  }

  // ---------------------------------------------------------------------------
  // Whole runs

  /** What every reachable state satisfies, apart from its relation to the input. */
  predicate Good(batchSize: int, s: ConsumerState)
  {
    && |s.batch| < batchSize
    && (s.done ==> s.batch == [])
    && MarkedAhead(s.effects)
    && |Flushed(s.effects)| + |s.batch| <= |Marks(s.effects)|
    && (forall k :: 0 <= k < |s.effects| && s.effects[k].Flush? ==> 0 < |s.effects[k].batch| <= batchSize)
  }

  /** The record a turn adds to the stream of decoded records. */
  function Arrived(step: Step): seq<Log>
  {
    if step.event.Msg? && step.event.record.Some? then [Stamp(step.event.record.value, step.now)] else []
  }

  /** The offset a turn adds to the stream of messages read. */
  function ReadOffset(step: Step): seq<nat>
  {
    if step.event.Msg? then [step.event.offset] else []
  }

  /** Appending a write of `b` to effects that keep `Good`, where the marks
      cover the buffer as well. */
  lemma GoodAfterFlush(batchSize: int, e: seq<Effect>, b: seq<Log>, err: Option<Error>)
    requires MarkedAhead(e) && |Flushed(e)| + |b| <= |Marks(e)| && 0 < |b| <= batchSize
    requires forall k :: 0 <= k < |e| && e[k].Flush? ==> 0 < |e[k].batch| <= batchSize
    ensures MarkedAhead(e + [Flush(b, err)])
    ensures |Flushed(e + [Flush(b, err)])| <= |Marks(e + [Flush(b, err)])|
    ensures forall k :: 0 <= k < |e| + 1 && (e + [Flush(b, err)])[k].Flush? ==> 0 < |(e + [Flush(b, err)])[k].batch| <= batchSize
  {
    Append(e, Flush(b, err));
    MarkedAheadAppend(e, Flush(b, err));
  }

  lemma GoodAfterMark(batchSize: int, e: seq<Effect>, offset: nat)
    requires MarkedAhead(e) && |Flushed(e)| <= |Marks(e)|
    requires forall k :: 0 <= k < |e| && e[k].Flush? ==> 0 < |e[k].batch| <= batchSize
    ensures MarkedAhead(e + [Mark(offset)])
    ensures Flushed(e + [Mark(offset)]) == Flushed(e) && Marks(e + [Mark(offset)]) == Marks(e) + [offset]
    ensures forall k :: 0 <= k < |e| + 1 && (e + [Mark(offset)])[k].Flush? ==> 0 < |(e + [Mark(offset)])[k].batch| <= batchSize
  {
    Append(e, Mark(offset));
    MarkedAheadAppend(e, Mark(offset));
  }

  /** A message keeps `Good`, adds its decoded record (if any) to the written
      batches followed by the buffer, and adds its offset to the marks. */
  lemma MessagePreserves(batchSize: int, batchTimeout: int, p: ConsumerState, offset: nat, record: Option<Log>, now: Time, fault: Option<Error>)
    requires batchSize >= 1 && Good(batchSize, p) && !p.done
    ensures var step := Step(Msg(offset, record), now, fault);
      var s := Next(batchSize, batchTimeout, p, step);
      && Good(batchSize, s)
      && Flushed(s.effects) + s.batch == Flushed(p.effects) + p.batch + Arrived(step)
      && Marks(s.effects) == Marks(p.effects) + [offset]
      && !s.done
  {
    GoodAfterMark(batchSize, p.effects, offset);
    if record.Some? && |p.batch| + 1 >= batchSize {
      FullBatchPreserves(batchSize, batchTimeout, p, offset, record.value, now, fault);
    } else {
      assert Next(batchSize, batchTimeout, p, Step(Msg(offset, record), now, fault)).effects == p.effects + [Mark(offset)];
    }
  }

  /** The message that fills the buffer: its write keeps `Good`. */
  lemma FullBatchPreserves(batchSize: int, batchTimeout: int, p: ConsumerState, offset: nat, rec: Log, now: Time, fault: Option<Error>)
    requires batchSize >= 1 && Good(batchSize, p) && !p.done && |p.batch| + 1 >= batchSize
    ensures var step := Step(Msg(offset, Some(rec)), now, fault);
      var s := Next(batchSize, batchTimeout, p, step);
      && Good(batchSize, s)
      && Flushed(s.effects) + s.batch == Flushed(p.effects) + p.batch + Arrived(step)
      && Marks(s.effects) == Marks(p.effects) + [offset]
      && !s.done
  {
    var batch := p.batch + [Stamp(rec, now)];
    var e1 := p.effects + [Mark(offset)];
    GoodAfterMark(batchSize, p.effects, offset);
    GoodAfterFlush(batchSize, e1, batch, BatchInsertError(batch, fault));
    FullBatchFlushed(batchSize, batchTimeout, p, offset, rec, now, fault);
  }

  /** The timer and the end of the session keep `Good` and move the buffer,
      unchanged, to the written batches. */
  lemma TickOrEndPreserves(batchSize: int, batchTimeout: int, p: ConsumerState, step: Step)
    requires batchSize >= 1 && Good(batchSize, p) && !p.done && !step.event.Msg?
    ensures var s := Next(batchSize, batchTimeout, p, step);
      && Good(batchSize, s)
      && Flushed(s.effects) + s.batch == Flushed(p.effects) + p.batch
      && Marks(s.effects) == Marks(p.effects)
      && s.done == step.event.SessionDone?
  {
    var s := Next(batchSize, batchTimeout, p, step);
    if |p.batch| > 0 {
      var fault := if step.event.SessionDone? then Some(Canceled) else step.fault;
      assert s.effects == p.effects + [FlushOf(p.batch, fault)];
      BufferFlushPreserves(batchSize, p, BatchInsertError(p.batch, fault), s);
    }
  }

  /** Writing the whole non-empty buffer and emptying it keeps `Good` and
      moves the buffer, unchanged, to the written batches. */
  lemma BufferFlushPreserves(batchSize: int, p: ConsumerState, err: Option<Error>, s: ConsumerState)
    requires batchSize >= 1 && Good(batchSize, p) && |p.batch| > 0
    requires s.batch == [] && s.effects == p.effects + [Flush(p.batch, err)]
    ensures Good(batchSize, s)
    ensures Flushed(s.effects) + s.batch == Flushed(p.effects) + p.batch
    ensures Marks(s.effects) == Marks(p.effects)
  {
    GoodAfterFlush(batchSize, p.effects, p.batch, err);
    Append(p.effects, Flush(p.batch, err));
  }

  /** One turn keeps `Good`, adds its decoded record to the written batches
      followed by the buffer, and adds its offset to the marks. */
  lemma NextPreserves(batchSize: int, batchTimeout: int, p: ConsumerState, step: Step)
    requires batchSize >= 1 && Good(batchSize, p) && !p.done
    ensures var s := Next(batchSize, batchTimeout, p, step);
      && Good(batchSize, s)
      && Flushed(s.effects) + s.batch == Flushed(p.effects) + p.batch + Arrived(step)
      && Marks(s.effects) == Marks(p.effects) + ReadOffset(step)
      && s.done == step.event.SessionDone?
  {
    if step.event.Msg? {
      MessagePreserves(batchSize, batchTimeout, p, step.event.offset, step.event.record, step.now, step.fault);
    } else {
      TickOrEndPreserves(batchSize, batchTimeout, p, step);
    }
  }

  /** What holds after any sequence of turns from the start: the buffer stays
      below the batch size; the written batches followed by the buffer are the
      decoded records in arrival order, so no record is written twice or lost
      before it is handed to the database; every message read is marked, in
      order; marking runs ahead of writing; every write is of 1 to `batchSize`
      records. */
  lemma {:induction false} RunInvariant(batchSize: int, batchTimeout: int, start: Time, steps: seq<Step>)
    requires batchSize >= 1
    ensures var s := Run(batchSize, batchTimeout, Start(batchTimeout, start), steps);
      && Good(batchSize, s)
      && Flushed(s.effects) + s.batch == Received(steps)
      && (s.done <==> Ended(steps))
      && Marks(s.effects) == Offsets(steps)
  {
    var s0 := Start(batchTimeout, start);
    if steps == [] {
      assert MarkedAhead(s0.effects) by {
        forall k | 0 <= k <= 0 ensures |Flushed(s0.effects[..k])| <= |Marks(s0.effects[..k])| {
          assert s0.effects[..k] == [];
        }
      }
    } else {
      var prefix := steps[..|steps| - 1];
      var step := steps[|steps| - 1];
      RunInvariant(batchSize, batchTimeout, start, prefix);
      var p := Run(batchSize, batchTimeout, s0, prefix);
      if !p.done {
        NextPreserves(batchSize, batchTimeout, p, step);
      }
    }
  }

  /** If the database never fails, every write made while the session lasts
      is stored and none fails. The one write that fails is the final one:
      a finished session has stored the decoded records in arrival order
      except the fewer than `batchSize` still buffered at its end, which are
      exactly the records of the failed final write. */
  lemma {:induction false} NoFaultStoresAllButFinal(batchSize: int, batchTimeout: int, start: Time, steps: seq<Step>)
    requires batchSize >= 1
    requires forall i :: 0 <= i < |steps| ==> steps[i].fault.None?
    ensures var s := Run(batchSize, batchTimeout, Start(batchTimeout, start), steps);
      && (!Ended(steps) ==> Stored(s.effects) == Flushed(s.effects) && Failed(s.effects) == [])
      && (Ended(steps) ==> Stored(s.effects) + Failed(s.effects) == Received(steps) && |Failed(s.effects)| < batchSize)
  {
    RunInvariant(batchSize, batchTimeout, start, steps);
    if steps != [] {
      var prefix := steps[..|steps| - 1];
      var step := steps[|steps| - 1];
      NoFaultStoresAllButFinal(batchSize, batchTimeout, start, prefix);
      RunInvariant(batchSize, batchTimeout, start, prefix);
      var p := Run(batchSize, batchTimeout, Start(batchTimeout, start), prefix);
      if !p.done {
        match step.event
        case Msg(offset, None) =>
          Append(p.effects, Mark(offset));
        case Msg(offset, Some(rec)) =>
          var batch := p.batch + [Stamp(rec, step.now)];
          Append(p.effects, Mark(offset));
          if |batch| >= batchSize {
            Append(p.effects + [Mark(offset)], FlushOf(batch, step.fault));
          }
        case Tick =>
          if |p.batch| > 0 {
            Append(p.effects, FlushOf(p.batch, step.fault));
          }
        case SessionDone =>
          SessionEndFlushes(batchSize, batchTimeout, p, step.now, step.fault);
      }
    }
  }

  /** Records handed to the database are either stored or refused: in any
      run, whatever the database answers, the decoded records are the stored
      ones, the refused ones and the buffer, each record once. A refused
      record's message was marked before its write, so the consumer group
      does not deliver it again: it is lost. */
  lemma {:induction false} FailedFlushLosesRecords(batchSize: int, batchTimeout: int, start: Time, steps: seq<Step>)
    requires batchSize >= 1
    ensures var s := Run(batchSize, batchTimeout, Start(batchTimeout, start), steps);
      && multiset(Received(steps)) == multiset(Stored(s.effects)) + multiset(Failed(s.effects)) + multiset(s.batch)
      && |Stored(s.effects)| + |Failed(s.effects)| + |s.batch| == |Received(steps)|
      && Marks(s.effects) == Offsets(steps)
  {
    var s := Run(batchSize, batchTimeout, Start(batchTimeout, start), steps);
    RunInvariant(batchSize, batchTimeout, start, steps);
    FlushedSplits(s.effects);
  }

  /** Every record handed over is stored or refused. */
  lemma {:induction false} FlushedSplits(e: seq<Effect>)
    ensures multiset(Flushed(e)) == multiset(Stored(e)) + multiset(Failed(e))
    ensures |Flushed(e)| == |Stored(e)| + |Failed(e)|
  {
    if e != [] {
      var init, x := e[..|e| - 1], e[|e| - 1];
      FlushedSplits(init);
      assert e == init + [x];
      FlushedSplitsStep(init, x);
    }
  }

  lemma FlushedSplitsStep(init: seq<Effect>, x: Effect)
    requires multiset(Flushed(init)) == multiset(Stored(init)) + multiset(Failed(init))
    requires |Flushed(init)| == |Stored(init)| + |Failed(init)|
    ensures multiset(Flushed(init + [x])) == multiset(Stored(init + [x])) + multiset(Failed(init + [x]))
    ensures |Flushed(init + [x])| == |Stored(init + [x])| + |Failed(init + [x])|
  {
    Append(init, x);
  }

  // ---------------------------------------------------------------------------
  // Size-triggered writes

  lemma {:induction false} MulAtLeast(d: int, k: int)
    requires d > 0 && k >= 1
    ensures d * k >= d
  {
    if k > 1 {
      MulAtLeast(d, k - 1);
      assert d * k == d * (k - 1) + d;
    }
  }

  lemma DivModUnique(n: int, d: int, q: int, r: int)
    requires d > 0 && 0 <= r < d && n == d * q + r
    ensures n / d == q && n % d == r
  {
    var q', r' := n / d, n % d;
    assert n == d * q' + r';
    if q < q' {
      MulAtLeast(d, q' - q);
    } else if q > q' {
      MulAtLeast(d, q - q');
    }
  }

  /** Every write so far was of exactly `batchSize` records. */
  predicate AllFull(batchSize: int, e: seq<Effect>)
  {
    forall k :: 0 <= k < |e| && e[k].Flush? ==> |e[k].batch| == batchSize
  }

  lemma AllFullAppend(batchSize: int, e: seq<Effect>, x: Effect)
    requires AllFull(batchSize, e) && (x.Flush? ==> |x.batch| == batchSize)
    ensures AllFull(batchSize, e + [x])
  {
    forall k | 0 <= k < |e| + 1 && (e + [x])[k].Flush? ensures |(e + [x])[k].batch| == batchSize {
      if k < |e| {
        assert (e + [x])[k] == e[k];
      }
    }
  }

  /** A decoded record either grows the buffer by one or completes a full write. */
  lemma DecodedStep(batchSize: int, batchTimeout: int, p: ConsumerState, offset: nat, rec: Log, now: Time, fault: Option<Error>)
    requires batchSize >= 1 && !p.done && |p.batch| < batchSize && AllFull(batchSize, p.effects)
    ensures var s := Next(batchSize, batchTimeout, p, Step(Msg(offset, Some(rec)), now, fault));
      && !s.done && |s.batch| < batchSize && AllFull(batchSize, s.effects)
      && batchSize * FlushCount(s.effects) + |s.batch| == batchSize * FlushCount(p.effects) + |p.batch| + 1
  {
    var batch := p.batch + [Stamp(rec, now)];
    var e1 := p.effects + [Mark(offset)];
    var s := Next(batchSize, batchTimeout, p, Step(Msg(offset, Some(rec)), now, fault));
    var n := FlushCount(p.effects);
    Append(p.effects, Mark(offset));
    AllFullAppend(batchSize, p.effects, Mark(offset));
    if |batch| >= batchSize {
      Append(e1, FlushOf(batch, fault));
      AllFullAppend(batchSize, e1, FlushOf(batch, fault));
      assert s.effects == e1 + [FlushOf(batch, fault)] && s.batch == [];
      assert FlushCount(s.effects) == n + 1;
      MulSucc(batchSize, n);
    } else {
      assert s.effects == e1 && s.batch == batch;
    }
  }

  lemma MulSucc(a: int, n: nat)
    ensures a * (n + 1) == a * n + a
  {
  }

  /** With every message decoded and no timer tick, the records are cut into
      writes of exactly `batchSize` records, the rest waiting in the buffer. */
  lemma {:induction false} OnlyFullBatchesCount(batchSize: int, batchTimeout: int, start: Time, steps: seq<Step>)
    requires batchSize >= 1
    requires forall i :: 0 <= i < |steps| ==> steps[i].event.Msg? && steps[i].event.record.Some?
    ensures var s := Run(batchSize, batchTimeout, Start(batchTimeout, start), steps);
      && |steps| == batchSize * FlushCount(s.effects) + |s.batch|
      && |s.batch| < batchSize
      && AllFull(batchSize, s.effects)
      && !s.done
  {
    if steps != [] {
      var n := |steps| - 1;
      var prefix := steps[..n];
      var step := steps[n];
      OnlyFullBatchesCount(batchSize, batchTimeout, start, prefix);
      var p := Run(batchSize, batchTimeout, Start(batchTimeout, start), prefix);
      DecodedStep(batchSize, batchTimeout, p, step.event.offset, step.event.record.value, step.now, step.fault);
    }
  }

  /** With every message decoded and no timer tick, `N` records in batches of
      `B` give exactly `N / B` (rounded down) writes of exactly `B` records each,
      and the remaining `N % B` wait in the buffer. */
  lemma OnlyFullBatches(batchSize: int, batchTimeout: int, start: Time, steps: seq<Step>)
    requires batchSize >= 1
    requires forall i :: 0 <= i < |steps| ==> steps[i].event.Msg? && steps[i].event.record.Some?
    ensures var s := Run(batchSize, batchTimeout, Start(batchTimeout, start), steps);
      && FlushCount(s.effects) == |steps| / batchSize
      && |s.batch| == |steps| % batchSize
      && AllFull(batchSize, s.effects)
  {
    var s := Run(batchSize, batchTimeout, Start(batchTimeout, start), steps);
    OnlyFullBatchesCount(batchSize, batchTimeout, start, steps);
    DivModUnique(|steps|, batchSize, FlushCount(s.effects), |s.batch|);
  }

  /** Division rounded up, from division rounded down and the remainder. */
  lemma CeilDiv(n: nat, d: int)
    requires d >= 1
    ensures (n + d - 1) / d == n / d + (if n % d == 0 then 0 else 1)
  {
    var q, r := n / d, n % d;
    if r == 0 {
      DivModUnique(n + d - 1, d, q, d - 1);
    } else {
      DivModUnique(n + d - 1, d, q + 1, r - 1);
    }
  }

  /** With every message decoded, no record is dropped before the session ends. */
  lemma {:induction false} ReceivedAllDecoded(steps: seq<Step>)
    requires forall i :: 0 <= i < |steps| ==> steps[i].event.Msg? && steps[i].event.record.Some?
    ensures !Ended(steps) && |Received(steps)| == |steps|
  {
    if steps != [] {
      ReceivedAllDecoded(steps[..|steps| - 1]);
    }
  }

  /** When the session then ends, the remainder gets one more write, so `N`
      records in batches of `B` take `N / B` writes rounded up, every one of
      them but the last exactly `B` records long. That last write is of the
      buffer, the `N % B` most recent records; it runs on the cancelled
      context and fails, adding nothing to what is stored. */
  lemma SessionEndFlushCount(batchSize: int, batchTimeout: int, start: Time, steps: seq<Step>, last: Step)
    requires batchSize >= 1
    requires forall i :: 0 <= i < |steps| ==> steps[i].event.Msg? && steps[i].event.record.Some?
    requires last.event.SessionDone?
    ensures var s := Run(batchSize, batchTimeout, Start(batchTimeout, start), steps + [last]);
      var p := Run(batchSize, batchTimeout, Start(batchTimeout, start), steps);
      && s.done && s.batch == []
      && FlushCount(s.effects) == (|steps| + batchSize - 1) / batchSize
      && Flushed(s.effects) == Received(steps)
      && |Received(steps)| == |steps|
      && Flushed(p.effects) + p.batch == Received(steps) && |p.batch| == |steps| % batchSize
      && (p.batch == [] ==> s.effects == p.effects)
      && (p.batch != [] ==> s.effects == p.effects + [Flush(p.batch, Some(Wrapped("failed to create log batch", Canceled)))])
      && Stored(s.effects) == Stored(p.effects)
  {
    var p := Run(batchSize, batchTimeout, Start(batchTimeout, start), steps);
    var s := Run(batchSize, batchTimeout, Start(batchTimeout, start), steps + [last]);
    assert (steps + [last])[..|steps|] == steps;
    assert s == Next(batchSize, batchTimeout, p, last);
    ReceivedAllDecoded(steps);
    OnlyFullBatches(batchSize, batchTimeout, start, steps);
    OnlyFullBatchesCount(batchSize, batchTimeout, start, steps);
    RunInvariant(batchSize, batchTimeout, start, steps);
    SessionEndFlushes(batchSize, batchTimeout, p, last.now, last.fault);
    CeilDiv(|steps|, batchSize);
  }

  // ---------------------------------------------------------------------------
  // The handler itself

  /** The table after a write: what it held plus the batch when the write succeeded. */
  lemma StoredAfterFlush(initial: seq<Log>, e: seq<Effect>, batch: seq<Log>, err: Option<Error>)
    ensures initial + Stored(e + [Flush(batch, err)]) == (if err.None? then initial + Stored(e) + batch else initial + Stored(e))
  {
    Append(e, Flush(batch, err));
  }

  /** `ConsumeClaim` for one claim: the loop's state, and the log table its
      batches are written to through `HandleLogBatch`. */
  class ClaimConsumer {
    const batchSize: int
    const batchTimeout: int
    const store: LogTable
    var state: ConsumerState
    /** The table's rows when the claim started. */
    ghost const initialRows: seq<Log>

    /** The table holds what it held before plus every accepted batch. */
    ghost predicate Valid()
      reads this, store
    {
      store.rows == initialRows + Stored(state.effects)
    }

    constructor (store: LogTable, now: Time)
      ensures batchSize == DefaultBatchSize && batchTimeout == DefaultBatchTimeout
      ensures this.store == store && state == Start(DefaultBatchTimeout, now)
      ensures initialRows == store.rows && Valid()
    {
      batchSize := DefaultBatchSize;
      batchTimeout := DefaultBatchTimeout;
      this.store := store;
      state := Start(DefaultBatchTimeout, now);
      initialRows := store.rows;
    }

    /** `processBatch`: hands the batch to `HandleLogBatch` and records the write. */
    method ProcessBatch(batch: seq<Log>, fault: Option<Error>)
      requires Valid() && batch != []
      modifies this`state, store
      ensures state == old(state).(effects := old(state).effects + [FlushOf(batch, fault)])
      ensures store.rows == if fault.None? then old(store.rows) + batch else old(store.rows)
      ensures Valid()
    {
      ghost var before := state.effects;
      var err := HandleLogBatch(store, batch, fault);
      StoredAfterFlush(initialRows, before, batch, err);
      state := state.(effects := state.effects + [Flush(batch, err)]);
    }

    /** A message: marked at once; when it decodes, stamped and buffered, and
        the buffer written when full. */
    method HandleMessage(offset: nat, record: Option<Log>, now: Time, fault: Option<Error>)
      requires Valid() && !state.done
      modifies this`state, store
      ensures Valid()
      ensures state == Next(batchSize, batchTimeout, old(state), Step(Msg(offset, record), now, fault))
    {
      Append(state.effects, Mark(offset));
      if record.None? {
        state := state.(effects := state.effects + [Mark(offset)]);
        return;
      }
      var log := record.value;
      if IsZeroTime(log.timestamp) {
        log := log.(timestamp := now);
      }
      if IsZeroTime(log.createdAt) {
        log := log.(createdAt := now);
      }
      var batch := state.batch + [log];
      state := state.(batch := batch, effects := state.effects + [Mark(offset)]);
      if |batch| >= batchSize {
        ProcessBatch(batch, fault);
        state := state.(batch := [], deadline := now + batchTimeout);
      }
    }

    /** The timer: a non-empty buffer is written and emptied; the timer is re-armed. */
    method HandleTick(now: Time, fault: Option<Error>)
      requires Valid() && !state.done
      modifies this`state, store
      ensures Valid()
      ensures state == Next(batchSize, batchTimeout, old(state), Step(Tick, now, fault))
    {
      if |state.batch| > 0 {
        ProcessBatch(state.batch, fault);
        state := state.(batch := []);
      }
      state := state.(deadline := now + batchTimeout);
    }

    /** The end of the session: a non-empty buffer gets a final write, made
        with the cancelled session context, and the handler returns (with no
        error). The database answer `fault` would have given is never asked for. */
    method HandleSessionDone(now: Time, fault: Option<Error>)
      requires Valid() && !state.done
      modifies this`state, store
      ensures Valid()
      ensures state == Next(batchSize, batchTimeout, old(state), Step(SessionDone, now, fault))
      ensures store.rows == old(store.rows)
    {
      if |state.batch| > 0 {
        ProcessBatch(state.batch, Some(Canceled));
      }
      state := state.(batch := [], done := true);
    }

    /** One turn of the `select` loop. */
    method Handle(step: Step)
      requires Valid()
      modifies this`state, store
      ensures Valid()
      ensures state == Next(batchSize, batchTimeout, old(state), step)
    {
      if state.done {
        return;
      }
      match step.event {
        case Msg(offset, record) => HandleMessage(offset, record, step.now, step.fault);
        case Tick => HandleTick(step.now, step.fault);
        case SessionDone => HandleSessionDone(step.now, step.fault);
      }
    }

    /** The loop over a sequence of turns. */
    method Consume(steps: seq<Step>)
      requires Valid()
      modifies this`state, store
      ensures Valid()
      ensures state == Run(batchSize, batchTimeout, old(state), steps)
    {
      for i := 0 to |steps|
        invariant Valid()
        invariant state == Run(batchSize, batchTimeout, old(state), steps[..i])
      {
        Handle(steps[i]);
        assert steps[..i + 1][..i] == steps[..i];
      }
      assert steps[..|steps|] == steps;
    }
  }
}
