// The Codex chunk stream (assistant-codex-adapter.ts): a producer pushes into a queue and wakes a
// consumer that drains it. Each stretch between two awaits or yields is one step.

module CodexStream {
  import opened Options

  // What a rejected turn was rejected with; only a truthy value is noticed as a failure.
  datatype Failure = Failure(truthy: bool)
  datatype Producer = Producing | Settled(failure: Option<Failure>) | Finished(failure: Option<Failure>)

  datatype Pc = Draining | Yielded | Asleep | Completing | Ended | Threw | Returned

  // `woken`: the promise slept on has been resolved. `pushed` and `yielded` are the history.
  datatype State<T> = State(queue: seq<T>, producer: Producer, pc: Pc, woken: bool, pushed: seq<T>, yielded: seq<T>)

  datatype Step<T> =
    | Push(chunk: T)
    | Settle(failure: Option<Failure>)
    | Finish
    | Drain
    | Resume
    | WakeUp
    | ConsumerReturns

  function Begun<T>(): State<T> { State([], Producing, Draining, false, [], []) }

  predicate Fails(p: Producer) { !p.Producing? && p.failure.Some? && p.failure.value.truthy }

  // With the queue empty and the producer finished, rethrow its failure or complete.
  function Drained<T>(s: State<T>): State<T> {
    if s.queue != [] then s.(queue := s.queue[1..], yielded := s.yielded + [s.queue[0]], pc := Yielded)
    else if s.producer.Finished? then s.(pc := if Fails(s.producer) then Threw else Completing)
    else s.(pc := Asleep, woken := false)
  }

  predicate Enabled<T>(s: State<T>, step: Step<T>) {
    match step
    case Push(_) => s.producer.Producing?
    case Settle(_) => s.producer.Producing?
    case Finish => s.producer.Settled?
    case Drain => s.pc.Draining?
    case Resume => s.pc.Yielded? || s.pc.Completing?
    case WakeUp => s.pc.Asleep? && s.woken
    case ConsumerReturns => s.pc.Yielded? || s.pc.Completing?
  }

  function Next<T>(s: State<T>, step: Step<T>): State<T> {
    if !Enabled(s, step) then s else
    match step
    case Push(chunk) => s.(queue := s.queue + [chunk], pushed := s.pushed + [chunk], woken := s.woken || s.pc.Asleep?)
    case Settle(failure) => s.(producer := Settled(failure))
    case Finish => s.(producer := Finished(s.producer.failure), woken := s.woken || s.pc.Asleep?)
    case Drain => Drained(s)
    case Resume => s.(pc := if s.pc.Yielded? then Draining else Ended)
    case WakeUp => s.(pc := Draining, woken := false)
    case ConsumerReturns => s.(pc := Returned)
  }

  class ChunkStream<T> {
    var queue: seq<T>
    var producer: Producer
    var pc: Pc
    var woken: bool
    ghost var pushed: seq<T>
    ghost var yielded: seq<T>

    ghost function View(): State<T>
      reads this
    {
      State(queue, producer, pc, woken, pushed, yielded)
    }

    constructor ()
      ensures View() == Begun()
    {
      queue, producer, pc, woken := [], Producing, Draining, false;
      pushed, yielded := [], [];
    }

    method Wake()
      modifies `woken
      ensures woken == (old(woken) || pc.Asleep?)
    {
      if pc.Asleep? { woken := true; }
    }

    method PushChunk(chunk: T)
      requires producer.Producing?
      modifies this
      ensures View() == Next(old(View()), Push(chunk))
    {
      queue := queue + [chunk];
      pushed := pushed + [chunk];
      Wake();
    }

    method SettleTurn(failure: Option<Failure>)
      requires producer.Producing?
      modifies this
      ensures View() == Next(old(View()), Settle(failure))
    {
      producer := Settled(failure);
    }

    method FinishTurn()
      requires producer.Settled?
      modifies this
      ensures View() == Next(old(View()), Finish)
    {
      producer := Finished(producer.failure);
      Wake();
    }

    // Yield the next chunk, fall asleep, or end.
    method DrainQueue() returns (chunk: Option<T>)
      requires pc.Draining?
      modifies this
      ensures View() == Next(old(View()), Drain)
      ensures chunk == if old(queue) == [] then None else Some(old(queue)[0])
    {
      if queue != [] {
        chunk := Some(queue[0]);
        yielded := yielded + [queue[0]];
        queue := queue[1..];
        pc := Yielded;
        return;
      }
      chunk := None;
      if producer.Finished? {
        pc := if Fails(producer) then Threw else Completing;
      } else {
        pc, woken := Asleep, false;
      }
    }
  }
}

module CodexStreamRuns {
  import opened Options
  import opened CodexStream

  ghost function Run<T>(steps: seq<Step<T>>): State<T> {
    if steps == [] then Begun() else Next(Run(steps[..|steps| - 1]), steps[|steps| - 1])
  }

  ghost predicate Sound<T>(s: State<T>) {
    && s.yielded + s.queue == s.pushed
    && (s.pc.Asleep? && !s.woken ==> s.queue == [] && !s.producer.Finished?)
    && (s.woken ==> s.pc.Asleep?)
    && (s.pc.Completing? || s.pc.Ended? || s.pc.Threw? ==>
          s.queue == [] && s.producer.Finished? && (s.pc.Threw? <==> Fails(s.producer)))
  }

  lemma StepStaysSound<T>(s: State<T>, step: Step<T>)
    requires Sound(s)
    ensures Sound(Next(s, step))
  {
    match step
    case Push(chunk) => assert s.yielded + (s.queue + [chunk]) == (s.yielded + s.queue) + [chunk];
    case Drain =>
      if s.queue != [] { assert (s.yielded + [s.queue[0]]) + s.queue[1..] == s.yielded + s.queue; }
    case _ =>
  }

  lemma {:induction false} EveryRunIsSound<T>(steps: seq<Step<T>>)
    ensures Sound(Run(steps))
  {
    if steps != [] {
      EveryRunIsSound(steps[..|steps| - 1]);
      StepStaysSound(Run(steps[..|steps| - 1]), steps[|steps| - 1]);
    }
  }

  // The turn settled so: it ended well, or was rejected with this.
  ghost predicate SettledSo<T>(steps: seq<Step<T>>, failure: Option<Failure>) {
    exists n :: SettledAt(steps, n, failure)
  }

  ghost predicate SettledAt<T>(steps: seq<Step<T>>, n: int, failure: Option<Failure>) {
    0 <= n < |steps| && steps[n] == Settle(failure) && Enabled(Run(steps[..n]), steps[n])
  }

  // The turn was rejected with a value that is noticed.
  ghost predicate Rejected<T>(steps: seq<Step<T>>) { SettledSo(steps, Some(Failure(true))) }

  // The chunks the turn produced before it settled.
  ghost function Produced<T>(steps: seq<Step<T>>): seq<T> {
    if steps == [] then []
    else
      var n := |steps| - 1;
      Produced(steps[..n])
      + if steps[n].Push? && Enabled(Run(steps[..n]), steps[n]) then [steps[n].chunk] else []
  }

  predicate KnowsOutcome(p: Producer, failure: Option<Failure>) { !p.Producing? && p.failure == failure }

  lemma SettledOneMore<T>(steps: seq<Step<T>>, failure: Option<Failure>)
    requires steps != []
    ensures var n := |steps| - 1;
            SettledSo(steps, failure)
            <==> SettledSo(steps[..n], failure) || (steps[n] == Settle(failure) && Enabled(Run(steps[..n]), steps[n]))
  {
    hide Run, Enabled;
    var last := |steps| - 1;
    assert forall n :: 0 <= n < last ==> steps[..last][..n] == steps[..n];
    if n :| SettledAt(steps[..last], n, failure) { assert SettledAt(steps, n, failure); }
    if n :| SettledAt(steps, n, failure) && n < last { assert SettledAt(steps[..last], n, failure); }
    if steps[last] == Settle(failure) && Enabled(Run(steps[..last]), steps[last]) {
      assert SettledAt(steps, last, failure);
    }
  }

  // The producer holds what the turn settled with, and has pushed what it produced.
  lemma {:induction false} ProducerIsTheTurn<T>(steps: seq<Step<T>>, failure: Option<Failure>)
    ensures KnowsOutcome(Run(steps).producer, failure) <==> SettledSo(steps, failure)
    ensures Run(steps).pushed == Produced(steps)
  {
    if steps != [] {
      var n := |steps| - 1;
      ProducerIsTheTurn(steps[..n], failure);
      SettledOneMore(steps, failure);
    }
  }

  // What was yielded is always a prefix of what the turn produced, and all of it by the time the stream
  // completes or throws; it throws exactly when the turn was rejected with a truthy value.
  lemma {:induction false} EveryChunkOnceInOrder<T>(steps: seq<Step<T>>)
    ensures var s := Run(steps);
            && s.yielded <= Produced(steps)
            && (s.pc.Completing? || s.pc.Ended? || s.pc.Threw? ==>
                  s.yielded == Produced(steps) && s.producer.Finished? && (s.pc.Threw? <==> Rejected(steps)))
  {
    EveryRunIsSound(steps);
    ProducerIsTheTurn(steps, Some(Failure(true)));
    hide Run, SettledSo, Produced;
  }

  // No lost wake-up: whoever sleeps without a wake-up under way has nothing to do yet.
  lemma {:induction false} NoLostWakeUp<T>(steps: seq<Step<T>>)
    ensures var s := Run(steps); s.pc.Asleep? && !Enabled(s, WakeUp) ==> s.queue == [] && !s.producer.Finished?
  {
    EveryRunIsSound(steps);
  }

  // ----- the stream ends -----

  predicate Over(pc: Pc) { pc.Ended? || pc.Threw? || pc.Returned? }

  // How many steps a consumer that keeps asking still takes once the producer has finished.
  function StepsLeft<T>(s: State<T>): nat {
    2 * |s.queue| + match s.pc
                    case Draining => 2
                    case Yielded => 3
                    case Asleep => 3
                    case Completing => 1
                    case _ => 0
  }

  // The next step of a consumer that keeps asking.
  function ConsumerStep<T>(s: State<T>): Step<T> {
    if s.pc.Draining? then Drain else if s.pc.Asleep? then WakeUp else Resume
  }

  lemma FinishedStreamsMoveOn<T>(s: State<T>)
    requires Sound(s) && s.producer.Finished? && !Over(s.pc)
    ensures Enabled(s, ConsumerStep(s)) && StepsLeft(Next(s, ConsumerStep(s))) < StepsLeft(s)
  {}

  // Once the producer has finished, a consumer that keeps asking reaches the end after every chunk.
  lemma {:induction false} FinishedStreamsEnd<T>(steps: seq<Step<T>>) returns (rest: seq<Step<T>>)
    requires Run(steps).producer.Finished? && !Run(steps).pc.Returned?
    ensures |rest| <= StepsLeft(Run(steps))
    ensures var end := Run(steps + rest);
            end.yielded == Produced(steps) && (if Rejected(steps) then end.pc.Threw? else end.pc.Ended?)
    decreases StepsLeft(Run(steps))
  {
    EveryRunIsSound(steps);
    ProducerIsTheTurn(steps, Some(Failure(true)));
    var s := Run(steps);
    if Over(s.pc) {
      rest := [];
      assert steps + rest == steps;
    } else {
      var step := ConsumerStep(s);
      FinishedStreamsMoveOn(s);
      assert (steps + [step])[..|steps|] == steps;
      ProducerIsTheTurn(steps + [step], Some(Failure(true)));
      var more := FinishedStreamsEnd(steps + [step]);
      rest := [step] + more;
      assert steps + rest == (steps + [step]) + more;
    }
  }

  // A turn rejected with a falsy value is not noticed: the stream completes.
  lemma {:induction false} FalsyFailureCompletes<T>()
    ensures Run<T>([Settle(Some(Failure(false))), Finish, Drain, Resume]).pc == Ended
  {
    var all: seq<Step<T>> := [Settle(Some(Failure(false))), Finish, Drain, Resume];
    assert all[..3][..2] == all[..2] && all[..2][..1] == all[..1] && all[..1][..0] == [];
    assert Run(all[..1]) == Next(Begun(), all[0]);
    assert Run(all[..2]) == Next(Run(all[..1]), all[1]);
    assert Run(all[..3]) == Next(Run(all[..2]), all[2]);
  }
}
