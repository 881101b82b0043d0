/**
 * Running RAT in a separate process (rascal2/core/runner.py). The worker
 * (`run`) puts log lines, the core's events and finally the result pair or
 * the error into a queue; the GUI side (`RATRunner.check_queue`) drains the
 * queue on a timer and routes each item by kind. The interprocess queue is a
 * sequence, the process is a pair of flags, and RAT's calculation is a given
 * outcome together with the events it raised while running.
 */
module Runner {
  import opened Wrappers

  /** `logging.INFO`. */
  const Info: int := 20

  /** Event data the core raises, and the `LogData` lines `run` adds. */
  datatype EventData =
    | Message(text: string)
    | Progress(message: string, percent: real)
    | Plot(name: string)
    | LogData(level: int, msg: string)

  /** A queue item: an event, the `(problem, results)` tuple, or an exception. */
  datatype Item<P, R> =
    | Event(data: EventData)
    | Outcome(problem: P, results: R)
    | Raised(error: string)

  /** The signals a runner emits. */
  datatype Signal = EventReceived | Finished | Stopped

  /** How the core calculation ended: an updated problem and results, or an exception. */
  datatype CoreResult<P, R> = CoreSuccess(problem: P, results: R) | CoreError(error: string)

  // ---------------------------------------------------------------------------
  // The worker side
  // ---------------------------------------------------------------------------

  const StartLog: EventData := LogData(Info, "Starting RAT")
  const FinishLog: EventData := LogData(Info, "Finished RAT")

  function Events<P, R>(data: seq<EventData>): (r: seq<Item<P, R>>)
    ensures |r| == |data| && forall k :: 0 <= k < |data| ==> r[k] == Event(data[k])
  {
    seq(|data|, k requires 0 <= k < |data| => Event(data[k]))
  }

  /**
   * What `run` puts into the queue: with display on, a start line, the
   * core's events, and a finish line before the result; an error is put in
   * place of the finish line and the result.
   */
  function RunItems<P, R>(display: bool, events: seq<EventData>, core: CoreResult<P, R>): seq<Item<P, R>>
  {
    (if display then [Event(StartLog)] + Events(events) else [])
    + match core
      case CoreError(e) => [Raised(e)]
      case CoreSuccess(p, res) => (if display then [Event(FinishLog)] else []) + [Outcome(p, res)]
  }

  /**
   * With display on, the start line comes first and the result last, right
   * after the finish line; with display off the result is all there is.
   * An error ends the items, with no finish line and no result before it.
   */
  lemma RunItemsOrder<P, R>(display: bool, events: seq<EventData>, core: CoreResult<P, R>)
    ensures var items := RunItems(display, events, core);
      && |items| > 0
      && (display ==> items[0] == Event(StartLog))
      && (display ==> items[1..|events| + 1] == Events(events))
      && (core.CoreSuccess? ==> items[|items| - 1] == Outcome(core.problem, core.results))
      && (core.CoreSuccess? && display ==> |items| == |events| + 3 && items[|items| - 2] == Event(FinishLog))
      && (core.CoreSuccess? && !display ==> items == [Outcome(core.problem, core.results)])
      && (core.CoreError? ==> items[|items| - 1] == Raised(core.error))
      && (core.CoreError? ==> |items| == (if display then |events| + 2 else 1))
      && (forall k :: 0 <= k < |items| - 1 ==> items[k].Event?)
  {
    var items := RunItems(display, events, core);
    forall k | 0 <= k < |items| - 1
      ensures items[k].Event?
    {
      if display && 0 < k <= |events| {
        assert items[k] == Event(events[k - 1]);
      }
    }
  }

  /** The worker's queue. */
  class WorkQueue<P, R> {
    var items: seq<Option<Item<P, R>>>

    constructor()
      ensures items == []
    {
      items := [];
    }

    method Put(x: Option<Item<P, R>>)
      modifies this
      ensures items == old(items) + [x]
    {
      items := items + [x];
    }
  }

  /**
   * `run`: the start line when display is on, the events the core raised
   * (delivered through the registered handlers only when display is on), and
   * then the error, or the finish line and the result.
   */
  method Run<P, R>(queue: WorkQueue<P, R>, display: bool, events: seq<EventData>, core: CoreResult<P, R>)
    modifies queue
    ensures queue.items == old(queue.items) + Present(RunItems(display, events, core))
  {
    if display {
      queue.Put(Some(Event(StartLog)));
      var i := 0;
      while i < |events|
        invariant 0 <= i <= |events|
        invariant queue.items == old(queue.items) + Present([Event(StartLog)] + Events<P, R>(events[..i]))
      {
        assert Events<P, R>(events[..i + 1]) == Events<P, R>(events[..i]) + [Event(events[i])];
        assert Present([Event(StartLog)] + Events<P, R>(events[..i + 1]))
            == Present([Event(StartLog)] + Events<P, R>(events[..i])) + [Some(Event(events[i]))];
        queue.Put(Some(Event(events[i])));
        i := i + 1;
      }
      assert events[..i] == events;
    }
    match core
    case CoreError(e) =>
      queue.Put(Some(Raised(e)));
    case CoreSuccess(p, res) =>
      if display {
        queue.Put(Some(Event(FinishLog)));
      }
      queue.Put(Some(Outcome(p, res)));
  }

  /** Items as they sit in the queue, where the reader's `None` is the end marker. */
  function Present<T>(items: seq<T>): (r: seq<Option<T>>)
    ensures |r| == |items| && forall k :: 0 <= k < |items| ==> r[k] == Some(items[k])
  {
    seq(|items|, k requires 0 <= k < |items| => Some(items[k]))
  }

  // ---------------------------------------------------------------------------
  // The GUI side
  // ---------------------------------------------------------------------------

  /** The items `iter(queue.get, None)` yields: everything before the first `None`. */
  function Taken<T>(queue: seq<Option<T>>): (r: seq<T>)
    ensures |r| <= |queue|
  {
    if queue == [] || queue[0].None? then [] else [queue[0].value] + Taken(queue[1..])
  }

  /** What is left in the queue after the first `None` has been read. */
  function Left<T>(queue: seq<Option<T>>): (r: seq<Option<T>>)
    ensures |r| <= |queue|
  {
    if queue == [] then [] else if queue[0].None? then queue[1..] else Left(queue[1..])
  }

  /** Every item put before the end marker is taken, and the marker is consumed with nothing left. */
  lemma {:induction false} TakenAll<T>(items: seq<T>)
    ensures Taken(Present(items) + [None]) == items
    ensures Left(Present(items) + [None]) == []
    decreases |items|
  {
    if items != [] {
      assert (Present(items) + [None])[1..] == Present(items[1..]) + [None];
      TakenAll(items[1..]);
    }
  }

  /** The events among the taken items, in arrival order. */
  function EventsIn<P, R>(items: seq<Item<P, R>>): (r: seq<EventData>)
    ensures |r| <= |items|
  {
    if items == [] then []
    else (if items[0].Event? then [items[0].data] else []) + EventsIn(items[1..])
  }

  /** The signal each taken item raises. */
  function SignalOf<P, R>(item: Item<P, R>): Signal
  {
    match item
    case Event(_) => EventReceived
    case Outcome(_, _) => Finished
    case Raised(_) => Stopped
  }

  function SignalsOf<P, R>(items: seq<Item<P, R>>): (r: seq<Signal>)
    ensures |r| == |items| && forall k :: 0 <= k < |items| ==> r[k] == SignalOf(items[k])
  {
    seq(|items|, k requires 0 <= k < |items| => SignalOf(items[k]))
  }

  /** The last result tuple among the items, if any. */
  function LastOutcome<P, R>(items: seq<Item<P, R>>): Option<(P, R)>
  {
    if items == [] then None
    else if items[|items| - 1].Outcome? then Some((items[|items| - 1].problem, items[|items| - 1].results))
    else LastOutcome(items[..|items| - 1])
  }

  /** The last exception among the items, if any. */
  function LastError<P, R>(items: seq<Item<P, R>>): Option<string>
  {
    if items == [] then None
    else if items[|items| - 1].Raised? then Some(items[|items| - 1].error)
    else LastError(items[..|items| - 1])
  }

  lemma {:induction false} EventsInAppend<P, R>(items: seq<Item<P, R>>, x: Item<P, R>)
    ensures EventsIn(items + [x]) == EventsIn(items) + (if x.Event? then [x.data] else [])
    decreases |items|
  {
    var tail := if x.Event? then [x.data] else [];
    if items == [] {
      assert items + [x] == [x];
      assert EventsIn([x]) == tail + EventsIn<P, R>([]);
    } else {
      var head := if items[0].Event? then [items[0].data] else [];
      var all := items + [x];
      assert all[0] == items[0] && all[1..] == items[1..] + [x];
      assert EventsIn(all) == head + EventsIn(items[1..] + [x]);
      EventsInAppend(items[1..], x);
      assert EventsIn(items) == head + EventsIn(items[1..]);
    }
  }

  lemma ReceivedAppend<P, R>(items: seq<Item<P, R>>, x: Item<P, R>)
    ensures EventsIn(items + [x]) == EventsIn(items) + (if x.Event? then [x.data] else [])
    ensures SignalsOf(items + [x]) == SignalsOf(items) + [SignalOf(x)]
    ensures LastOutcome(items + [x]) == if x.Outcome? then Some((x.problem, x.results)) else LastOutcome(items)
    ensures LastError(items + [x]) == if x.Raised? then Some(x.error) else LastError(items)
  {
    EventsInAppend(items, x);
    assert (items + [x])[..|items|] == items;
  }

  /** What a runner has received so far: events, emitted signals, the updated problem and results, and the error. */
  datatype Received<P, R> = Received(events: seq<EventData>, emitted: seq<Signal>, problem: Option<P>,
                                     results: Option<R>, error: Option<string>)

  /** Routing one item by its kind. */
  function Step<P, R>(s: Received<P, R>, item: Item<P, R>): Received<P, R>
  {
    match item
    case Event(data) => s.(events := s.events + [data], emitted := s.emitted + [EventReceived])
    case Outcome(p, res) => s.(problem := Some(p), results := Some(res), emitted := s.emitted + [Finished])
    case Raised(e) => s.(error := Some(e), emitted := s.emitted + [Stopped])
  }

  /** Routing the items one after another. */
  function ReceiveAll<P, R>(s: Received<P, R>, items: seq<Item<P, R>>): Received<P, R>
  {
    if items == [] then s else Step(ReceiveAll(s, items[..|items| - 1]), items[|items| - 1])
  }

  /**
   * `r` is what a runner in state `s` holds after `items`: their events
   * appended in order, one signal each, the last result tuple (if any) and
   * the last exception (if any).
   */
  ghost predicate Describes<P, R>(r: Received<P, R>, s: Received<P, R>, items: seq<Item<P, R>>)
  {
    && r.events == s.events + EventsIn(items)
    && r.emitted == s.emitted + SignalsOf(items)
    && (LastOutcome(items).Some? ==> r.problem == Some(LastOutcome(items).value.0)
                                     && r.results == Some(LastOutcome(items).value.1))
    && (LastOutcome(items).None? ==> r.problem == s.problem && r.results == s.results)
    && r.error == (if LastError(items).Some? then LastError(items) else s.error)
  }

  /** Routing items one after another gives what those items describe. */
  lemma {:induction false} ReceiveAllContents<P, R>(s: Received<P, R>, items: seq<Item<P, R>>)
    ensures Describes(ReceiveAll(s, items), s, items)
  {
    if items != [] {
      var front, x := items[..|items| - 1], items[|items| - 1];
      ReceiveAllContents(s, front);
      StepDescribes(ReceiveAll(s, front), s, front, x);
      assert front + [x] == items;
    }
  }

  lemma StepDescribes<P, R>(r: Received<P, R>, s: Received<P, R>, items: seq<Item<P, R>>, x: Item<P, R>)
    requires Describes(r, s, items)
    ensures Describes(Step(r, x), s, items + [x])
  {
    ReceivedAppend(items, x);
    var t := Step(r, x);
    assert t.emitted == r.emitted + [SignalOf(x)];
    assert t.events == r.events + (if x.Event? then [x.data] else []);
    match x
    case Event(_) =>
      assert t.problem == r.problem && t.results == r.results && t.error == r.error;
    case Outcome(_, _) =>
      assert t.error == r.error;
    case Raised(_) =>
      assert t.problem == r.problem && t.results == r.results;
  }

  /** Reading one item off the front of the queue. */
  lemma TakeOne<T>(queue: seq<Option<T>>, consumed: seq<T>)
    requires queue != [] && queue[0].Some?
    ensures consumed + Taken(queue) == (consumed + [queue[0].value]) + Taken(queue[1..])
    ensures Left(queue) == Left(queue[1..])
  {
    assert Taken(queue) == [queue[0].value] + Taken(queue[1..]);
  }

  lemma ReceiveAllAppend<P, R>(s: Received<P, R>, items: seq<Item<P, R>>, x: Item<P, R>)
    ensures ReceiveAll(s, items + [x]) == Step(ReceiveAll(s, items), x)
  {
    assert (items + [x])[..|items|] == items;
  }

  /** `RATRunner`: the worker process, the poll timer, the queue and what it has received. */
  class RATRunner<P, R> {
    var queue: seq<Option<Item<P, R>>>
    var updatedProblem: Option<P>
    var results: Option<R>
    var error: Option<string>
    var events: seq<EventData>
    var emitted: seq<Signal>
    var timerActive: bool
    var processStarted: bool
    var processKilled: bool

    /** A fresh runner: empty queue, nothing received, process and timer not started. */
    constructor()
      ensures queue == [] && updatedProblem == None && results == None && error == None && events == []
      ensures emitted == [] && !timerActive && !processStarted && !processKilled
    {
      queue, updatedProblem, results, error, events := [], None, None, None, [];
      emitted, timerActive, processStarted, processKilled := [], false, false, false;
    }

    /** `start`: the process and the timer are started. */
    method Start()
      modifies this
      ensures processStarted && timerActive
      ensures queue == old(queue) && events == old(events) && emitted == old(emitted) && processKilled == old(processKilled)
      ensures updatedProblem == old(updatedProblem) && results == old(results) && error == old(error)
    {
      processStarted := true;
      timerActive := true;
    }

    /** `interrupt`: the timer stops, the process is killed and `stopped` is emitted. */
    method Interrupt()
      modifies this
      ensures !timerActive && processKilled && emitted == old(emitted) + [Stopped]
      ensures queue == old(queue) && events == old(events) && processStarted == old(processStarted)
      ensures updatedProblem == old(updatedProblem) && results == old(results) && error == old(error)
    {
      timerActive := false;
      processKilled := true;
      emitted := emitted + [Stopped];
    }

    /** The runner's received state. */
    function Snapshot(): Received<P, R>
      reads this
    {
      Received(events, emitted, updatedProblem, results, error)
    }

    /** The body of `check_queue`'s loop: one item routed by its kind. */
    method Receive(item: Item<P, R>)
      modifies this
      ensures Snapshot() == Step(old(Snapshot()), item)
      ensures queue == old(queue) && timerActive == old(timerActive)
      ensures processStarted == old(processStarted) && processKilled == old(processKilled)
    {
      match item
      case Outcome(p, res) =>
        updatedProblem, results := Some(p), Some(res);
        emitted := emitted + [Finished];
      case Raised(e) =>
        error := Some(e);
        emitted := emitted + [Stopped];
      case Event(data) =>
        events := events + [data];
        emitted := emitted + [EventReceived];
    }

    /**
     * `check_queue`: stops the timer once the process has died, puts the end
     * marker and reads up to the first `None`. Events are appended in
     * order; a tuple sets the problem and results; an exception the error;
     * each item emits its signal.
     */
    method CheckQueue(alive: bool)
      modifies this
      ensures timerActive == (old(timerActive) && alive)
      ensures Snapshot() == ReceiveAll(old(Snapshot()), Taken(old(queue) + [None]))
      ensures queue == Left(old(queue) + [None])
      ensures processStarted == old(processStarted) && processKilled == old(processKilled)
    {
      if !alive {
        timerActive := false;
      }
      queue := queue + [None];
      ghost var full := queue;
      ghost var consumed: seq<Item<P, R>> := [];
      while queue != [] && queue[0].Some?
        invariant Taken(full) == consumed + Taken(queue) && Left(full) == Left(queue)
        invariant Snapshot() == ReceiveAll(old(Snapshot()), consumed)
        invariant processStarted == old(processStarted) && processKilled == old(processKilled)
        invariant timerActive == (old(timerActive) && alive)
        decreases |queue|
      {
        var item := queue[0].value;
        TakeOne(queue, consumed);
        queue := queue[1..];
        Receive(item);
        ReceiveAllAppend(old(Snapshot()), consumed, item);
        consumed := consumed + [item];
      }
      assert Taken(queue) == [];
      assert consumed == Taken(full);
      queue := if queue == [] then [] else queue[1..];
    }
  }

  /**
   * Draining the queue after a run with display on gives the start line,
   * the core's events and (on success) the finish line as events, in that
   * order, and the run's result or error: nothing is lost or reordered.
   */
  lemma RunThenDrain<P, R>(display: bool, events: seq<EventData>, core: CoreResult<P, R>)
    ensures var taken := Taken(Present(RunItems(display, events, core)) + [None]);
      && taken == RunItems(display, events, core)
      && EventsIn(taken) == (if display then [StartLog] + events + (if core.CoreSuccess? then [FinishLog] else []) else [])
      && (core.CoreSuccess? ==> LastOutcome(taken) == Some((core.problem, core.results)) && LastError(taken) == None)
      && (core.CoreError? ==> LastOutcome(taken) == None && LastError(taken) == Some(core.error))
  {
    TakenAll(RunItems(display, events, core));
    match core
    case CoreError(e) => ErrorRunItems<P, R>(display, events, e);
    case CoreSuccess(p, res) => SuccessRunItems(display, events, p, res);
  }

  /** The items of a run that raised: the logged events, then the error. */
  lemma ErrorRunItems<P, R>(display: bool, events: seq<EventData>, e: string)
    ensures var items := RunItems<P, R>(display, events, CoreError(e));
      && EventsIn(items) == (if display then [StartLog] + events else [])
      && LastOutcome(items) == None && LastError(items) == Some(e)
  {
    var items := RunItems<P, R>(display, events, CoreError(e));
    var logged := if display then [StartLog] + events else [];
    var front: seq<Item<P, R>> := if display then [Event(StartLog)] + Events(events) else [];
    assert front == Events(logged);
    assert items == Events(logged) + [Raised(e)];
    EventsInOfEvents<P, R>(logged);
    NoOutcomeInEvents<P, R>(logged);
    ReceivedAppend(Events<P, R>(logged), Raised(e));
  }

  /** The items of a run that succeeded: the logged events with the finish line, then the result. */
  lemma SuccessRunItems<P, R>(display: bool, events: seq<EventData>, p: P, res: R)
    ensures var items := RunItems(display, events, CoreSuccess(p, res));
      && EventsIn(items) == (if display then [StartLog] + events + [FinishLog] else [])
      && LastOutcome(items) == Some((p, res)) && LastError(items) == None
  {
    var items := RunItems(display, events, CoreSuccess(p, res));
    var logged := if display then [StartLog] + events + [FinishLog] else [];
    var middle: seq<Item<P, R>> := (if display then [Event(StartLog)] + Events(events) else [])
                                   + (if display then [Event(FinishLog)] else []);
    assert middle == Events(logged);
    assert items == Events(logged) + [Outcome(p, res)];
    EventsInOfEvents<P, R>(logged);
    NoOutcomeInEvents<P, R>(logged);
    ReceivedAppend(Events(logged), Outcome(p, res));
  }

  lemma {:induction false} EventsInOfEvents<P, R>(data: seq<EventData>)
    ensures EventsIn(Events<P, R>(data)) == data
    decreases |data|
  {
    if data != [] {
      assert Events<P, R>(data)[1..] == Events<P, R>(data[1..]);
      EventsInOfEvents<P, R>(data[1..]);
    }
  }

  lemma {:induction false} NoOutcomeInEvents<P, R>(data: seq<EventData>)
    ensures LastOutcome(Events<P, R>(data)) == None && LastError(Events<P, R>(data)) == None
    decreases |data|
  {
    if data != [] {
      assert Events<P, R>(data)[..|data| - 1] == Events<P, R>(data[..|data| - 1]);
      NoOutcomeInEvents<P, R>(data[..|data| - 1]);
    }
  }

  /** Draining an empty queue receives nothing: no events, no results, no signals. */
  lemma EmptyQueueDrain<P, R>()
    ensures Taken<Item<P, R>>([] + [None]) == [] && Left<Item<P, R>>([] + [None]) == []
    ensures EventsIn<P, R>([]) == [] && LastOutcome<P, R>([]) == None
  {
  }
}
