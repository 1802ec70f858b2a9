// The event queue under every state machine (state-machine.h): events posted by handlers or by
// external callbacks are run one at a time, and the done callback fires when nothing is left.

module EventLoop {
  /** `tasks` are the posted RunNextEvent tasks (true: external), `outstanding` the events of external
      callbacks that were created and not yet invoked. */
  datatype Loop<E> = Loop(queue: seq<E>, tasks: seq<bool>, active: int, outstanding: seq<E>, idle: bool)
  {
    function Post(e: E): Loop<E> {
      this.(queue := queue + [e], tasks := tasks + [false])
    }

    function CreateCallback(e: E): Loop<E> {
      this.(active := active + 1, outstanding := outstanding + [e])
    }

    /** Outstanding callback number `i` is invoked. */
    function Invoke(i: nat): Loop<E>
      requires i < |outstanding|
    {
      this.(outstanding := outstanding[..i] + outstanding[i + 1..], queue := queue + [outstanding[i]],
            tasks := tasks + [true])
    }

    function SetIdle(isIdle: bool): Loop<E> {
      this.(idle := isIdle)
    }

    /** The bookkeeping before an event runs; the event itself is the front of the queue, if any. */
    function Begin(): Loop<E>
      requires tasks != []
    {
      var external := tasks[0];
      this.(tasks := tasks[1..],
            active := if external && active > 0 then active - 1 else active,
            idle := idle && !external,
            queue := if queue == [] then [] else queue[1..])
    }

    /** After an event has run: whether the done callback fires. */
    predicate IsDone() {
      active == 0 && queue == [] && !idle
    }

    /** Nothing can run without a new call from outside. */
    predicate Quiet() {
      queue == [] && tasks == [] && outstanding == []
    }

    ghost predicate Valid() {
      && |queue| == |tasks|
      && active == |outstanding| + Externals(tasks)
    }
  }

  function NewLoop<E>(): Loop<E> {
    Loop([], [], 0, [], false)
  }

  /** How many posted tasks came from external callbacks. */
  function Externals(tasks: seq<bool>): nat {
    if tasks == [] then 0 else (if tasks[0] then 1 else 0) + Externals(tasks[1..])
  }

  lemma {:induction false} ExternalsSnoc(tasks: seq<bool>, external: bool)
    ensures Externals(tasks + [external]) == Externals(tasks) + if external then 1 else 0
  {
    if tasks == [] {
      assert tasks + [external] == [external];
    } else {
      assert (tasks + [external])[1..] == tasks[1..] + [external];
      ExternalsSnoc(tasks[1..], external);
    }
  }

  datatype Step<E> =
    | PostStep(event: E)
    | CreateStep(event: E)
    | InvokeStep(callback: nat)
    | SetIdleStep(isIdle: bool)
    | BeginStep

  predicate Enabled<E>(l: Loop<E>, step: Step<E>) {
    match step
    case InvokeStep(i) => i < |l.outstanding|
    case BeginStep => l.tasks != []
    case _ => true
  }

  function Next<E>(l: Loop<E>, step: Step<E>): Loop<E>
    requires Enabled(l, step)
  {
    match step
    case PostStep(e) => l.Post(e)
    case CreateStep(e) => l.CreateCallback(e)
    case InvokeStep(i) => l.Invoke(i)
    case SetIdleStep(isIdle) => l.SetIdle(isIdle)
    case BeginStep => l.Begin()
  }

  /** One event for each posted task and one count for each callback, whatever happens. */
  lemma StepKeeps<E>(l: Loop<E>, step: Step<E>)
    requires l.Valid() && Enabled(l, step)
    ensures Next(l, step).Valid()
  {
    match step
    case PostStep(_) => ExternalsSnoc(l.tasks, false);
    case InvokeStep(_) => ExternalsSnoc(l.tasks, true);
    case BeginStep => assert Externals(l.tasks) == (if l.tasks[0] then 1 else 0) + Externals(l.tasks[1..]);
    case _ =>
  }

  /** A task always finds its event, and the counter never has to be held at zero. */
  lemma TaskFindsItsEvent<E>(l: Loop<E>)
    requires l.Valid() && l.tasks != []
    ensures l.queue != [] && (l.tasks[0] ==> l.active > 0)
  {
  }

  /** The done callback fires exactly when the machine is not idle and no task, event or callback is left. */
  lemma DoneMeansQuiet<E>(l: Loop<E>)
    requires l.Valid()
    ensures l.IsDone() <==> l.Quiet() && !l.idle
  {
  }

  ghost predicate Runs<E>(l: Loop<E>, steps: seq<Step<E>>)
    decreases |steps|
  {
    steps == [] || (Enabled(l, steps[0]) && Runs(Next(l, steps[0]), steps[1..]))
  }

  function Final<E>(l: Loop<E>, steps: seq<Step<E>>): Loop<E>
    requires Runs(l, steps)
    decreases |steps|
  {
    if steps == [] then l else Final(Next(l, steps[0]), steps[1..])
  }

  /** The events in the order they entered the queue, and in the order they ran. */
  function Posted<E>(l: Loop<E>, steps: seq<Step<E>>): seq<E>
    requires Runs(l, steps)
    decreases |steps|
  {
    if steps == [] then []
    else
      (match steps[0]
       case PostStep(e) => [e]
       case InvokeStep(i) => [l.outstanding[i]]
       case _ => [])
      + Posted(Next(l, steps[0]), steps[1..])
  }

  function Ran<E>(l: Loop<E>, steps: seq<Step<E>>): seq<E>
    requires Runs(l, steps)
    decreases |steps|
  {
    if steps == [] then []
    else
      (if steps[0].BeginStep? && l.queue != [] then [l.queue[0]] else []) + Ran(Next(l, steps[0]), steps[1..])
  }

  /** Over any run, what was posted is what ran followed by what is queued: every event runs once, in
      posting order. */
  lemma {:induction false} EventsRunOnceInOrder<E>(l: Loop<E>, steps: seq<Step<E>>)
    requires l.Valid() && Runs(l, steps)
    ensures Final(l, steps).Valid()
    ensures l.queue + Posted(l, steps) == Ran(l, steps) + Final(l, steps).queue
    decreases |steps|
  {
    if steps != [] {
      StepKeeps(l, steps[0]);
      var l' := Next(l, steps[0]);
      EventsRunOnceInOrder(l', steps[1..]);
      QueueStep(l, steps[0], Posted(l', steps[1..]), Ran(l', steps[1..]) + Final(l', steps[1..]).queue);
    }
  }

  lemma QueueStep<E>(l: Loop<E>, step: Step<E>, later: seq<E>, result: seq<E>)
    requires l.Valid() && Enabled(l, step) && Next(l, step).queue + later == result
    ensures l.queue + ((match step
                        case PostStep(e) => [e]
                        case InvokeStep(i) => [l.outstanding[i]]
                        case _ => []) + later)
         == (if step.BeginStep? && l.queue != [] then [l.queue[0]] else []) + result
  {
  }

  /** The counters and queues of the running program. */
  class EventQueue<E> {
    var queue: seq<E>
    var tasks: seq<bool>
    var numActiveExternalCallbacks: int
    var outstanding: seq<E>
    var idle: bool

    function State(): Loop<E>
      reads this
    {
      Loop(queue, tasks, numActiveExternalCallbacks, outstanding, idle)
    }

    constructor ()
      ensures State() == NewLoop()
    {
      queue, tasks, numActiveExternalCallbacks, outstanding, idle := [], [], 0, [], false;
    }

    method PostEvent(e: E)
      modifies this
      ensures State() == old(State()).Post(e)
    {
      PostEventCallback(e, false);
    }

    method PostEventCallback(e: E, isExternal: bool)
      modifies this`queue, this`tasks
      ensures queue == old(queue) + [e] && tasks == old(tasks) + [isExternal]
    {
      queue := queue + [e];
      tasks := tasks + [isExternal];
    }

    method CreateExternalEventCallback(e: E)
      modifies this
      ensures State() == old(State()).CreateCallback(e)
    {
      numActiveExternalCallbacks := numActiveExternalCallbacks + 1;
      outstanding := outstanding + [e];
    }

    method InvokeCallback(i: nat)
      requires i < |outstanding|
      modifies this
      ensures State() == old(State()).Invoke(i)
    {
      var e := outstanding[i];
      outstanding := outstanding[..i] + outstanding[i + 1..];
      PostEventCallback(e, true);
    }

    method SetIdle(isIdle: bool)
      modifies this
      ensures State() == old(State()).SetIdle(isIdle)
    {
      idle := isIdle;
    }

    /** The first half of RunNextEvent: up to the event's handler. */
    method BeginNextEvent() returns (events: seq<E>)
      requires tasks != []
      modifies this
      ensures State() == old(State()).Begin()
      ensures events == if old(queue) == [] then [] else [old(queue)[0]]
    {
      var isExternal := tasks[0];
      tasks := tasks[1..];
      if isExternal {
        idle := false;
        if numActiveExternalCallbacks > 0 {
          numActiveExternalCallbacks := numActiveExternalCallbacks - 1;
        }
      }
      events := [];
      if |queue| > 0 {
        events := [queue[0]];
        queue := queue[1..];
      }
    }

    /** The second half: whether the done callback is invoked. */
    method EndEvent() returns (done: bool)
      ensures done <==> State().IsDone()
    {
      done := numActiveExternalCallbacks == 0 && |queue| == 0 && !idle;
    }
  }
}
