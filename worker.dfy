/** The per-resource worker: `processNext<Name>` drives one queue item
    through `process<Name>` and marks it on the queue, `run<Name>Worker`
    repeats that until the queue shuts down, and the informer's handlers
    add keys to the same queue. The queue is client-go's rate-limiting
    workqueue; here it only records the calls made on it, and what its
    Get returns is given in advance. */
module Worker {
  import opened Collaborators
  import opened GenConfig
  import opened Events
  import opened Dispatch

  /** A queue item: the string keys the handlers add, or any other value. */
  datatype Item = KeyItem(key: string) | ForeignItem(shown: string)

  /** What one call of Get returns: an item, or the shutdown signal. */
  datatype GetAnswer = Delivered(item: Item) | ShuttingDown

  /** A call made on the queue. AddRateLimited belongs to the queue's
      interface; the generated code never calls it. */
  datatype QueueCall =
    | GetCall(answer: GetAnswer)
    | DoneCall(item: Item)
    | ForgetCall(item: Item)
    | AddCall(item: Item)
    | AddRateLimitedCall(item: Item)

  /** A call of one of the user's handlers. */
  datatype HandlerCall<O> = CreatedOrUpdatedCall(obj: O) | DeletedCall(obj: O)

  /** The queue of one resource. */
  class WorkQueue {
    /** What the coming calls of Get return, in order. */
    var answers: seq<GetAnswer>
    /** Every call made on the queue so far, in order. */
    var log: seq<QueueCall>

    constructor (answers: seq<GetAnswer>)
      ensures this.answers == answers && log == []
    {
      this.answers := answers;
      log := [];
    }

    /** Get, once it returns. */
    method Get() returns (item: Item, shutdown: bool)
      requires answers != []
      modifies this
      ensures answers == old(answers)[1..]
      ensures log == old(log) + [GetCall(old(answers)[0])]
      ensures shutdown <==> old(answers)[0].ShuttingDown?
      ensures !shutdown ==> item == old(answers)[0].item
    {
      var answer := answers[0];
      answers := answers[1..];
      log := log + [GetCall(answer)];
      match answer
      case Delivered(it) =>
        item, shutdown := it, false;
      case ShuttingDown =>
        item, shutdown := ForeignItem("<nil>"), true;
    }

    method Done(item: Item)
      modifies this
      ensures answers == old(answers)
      ensures log == old(log) + [DoneCall(item)]
    {
      log := log + [DoneCall(item)];
    }

    method Forget(item: Item)
      modifies this
      ensures answers == old(answers)
      ensures log == old(log) + [ForgetCall(item)]
    {
      log := log + [ForgetCall(item)];
    }

    method Add(item: Item)
      modifies this
      ensures answers == old(answers)
      ensures log == old(log) + [AddCall(item)]
    {
      log := log + [AddCall(item)];
    }
  }

  /** The effect of one call of `processNext<Name>`: the queue calls it
      makes, the handler calls, the errors it reports through
      runtime.HandleError, and its boolean result. */
  datatype Step<O> = Step(
    calls: seq<QueueCall>,
    handled: seq<HandlerCall<O>>,
    reports: seq<string>,
    more: bool)

  /** `processNext<Name>` when Get returns `answer`. */
  function ProcessNextStep<O>(scope: string, env: Env<O>, answer: GetAnswer): (s: Step<O>)
    ensures !s.more <==> answer.ShuttingDown?
    ensures answer.ShuttingDown? ==> s.calls == [GetCall(answer)] && s.handled == [] && s.reports == []
    ensures answer.Delivered? ==>
      s.calls == [GetCall(answer), DoneCall(answer.item)] ||
      s.calls == [GetCall(answer), ForgetCall(answer.item), DoneCall(answer.item)]
    ensures answer.Delivered? ==>
      (|s.calls| == 3 <==>
       answer.item.ForeignItem? || !Process(scope, answer.item.key, env).Failed())
    ensures s.handled != [] <==>
      answer.Delivered? && answer.item.KeyItem? && Process(scope, answer.item.key, env).Handled?
    ensures s.handled != [] ==>
      s.handled == [CreatedOrUpdatedCall(Process(scope, answer.item.key, env).obj)]
    ensures |s.reports| ==
      (if answer.Delivered? && (answer.item.ForeignItem? || Process(scope, answer.item.key, env).Failed())
       then 1 else 0)
  {
    match answer
    case ShuttingDown => Step([GetCall(answer)], [], [], false)
    case Delivered(item) =>
      match item
      case ForeignItem(shown) =>
        Step([GetCall(answer), ForgetCall(item), DoneCall(item)], [],
             ["expected string in workqueue but got " + shown], true)
      case KeyItem(key) =>
        var r := Process(scope, key, env);
        var handled := if r.Handled? then [CreatedOrUpdatedCall(r.obj)] else [];
        if r.Failed() then
          Step([GetCall(answer), DoneCall(item)], handled,
               ["error syncing '" + key + "': " + ErrorText(key, r)], true)
        else
          Step([GetCall(answer), ForgetCall(item), DoneCall(item)], handled, [], true)
  }

  /** Whether Get reports shutdown at some point. */
  ghost predicate ShutdownAhead(answers: seq<GetAnswer>)
  {
    exists i :: 0 <= i < |answers| && answers[i].ShuttingDown?
  }

  lemma ShutdownAheadTail(answers: seq<GetAnswer>)
    requires ShutdownAhead(answers) && answers[0].Delivered?
    ensures ShutdownAhead(answers[1..])
  {
    var i :| 0 <= i < |answers| && answers[i].ShuttingDown?;
    assert answers[1..][i - 1] == answers[i];
  }

  /** The position of the first shutdown answer. */
  ghost function FirstShutdown(answers: seq<GetAnswer>): (i: nat)
    requires ShutdownAhead(answers)
    ensures i < |answers| && answers[i].ShuttingDown?
    ensures forall j :: 0 <= j < i ==> answers[j].Delivered?
    decreases |answers|
  {
    if answers[0].ShuttingDown? then 0
    else
      ShutdownAheadTail(answers);
      1 + FirstShutdown(answers[1..])
  }

  /** The items Get hands out before it reports shutdown. */
  ghost function Deliveries(answers: seq<GetAnswer>): seq<Item>
    requires ShutdownAhead(answers)
    decreases |answers|
  {
    match answers[0]
    case ShuttingDown => []
    case Delivered(item) =>
      ShutdownAheadTail(answers);
      [item] + Deliveries(answers[1..])
  }

  /** The effects of `s` followed by those of `t`. */
  function Then<O>(s: Step<O>, t: Step<O>): Step<O>
  {
    Step(s.calls + t.calls, s.handled + t.handled, s.reports + t.reports, t.more)
  }

  /** What the worker loop keeps across one processNext step. */
  lemma AdvanceRun<O>(scope: string, env: Env<O>, run: Step<O>, acc: Step<O>, answers: seq<GetAnswer>)
    requires ShutdownAhead(answers)
    requires run == Then(acc, WorkerRun(scope, env, answers))
    ensures var s := ProcessNextStep(scope, env, answers[0]);
      && (s.more ==>
            && ShutdownAhead(answers[1..])
            && run == Then(Then(acc, s), WorkerRun(scope, env, answers[1..])))
      && (!s.more ==> Then(acc, s) == run)
  {
    var s := ProcessNextStep(scope, env, answers[0]);
    WorkerRunUnfold(scope, env, answers);
    if s.more {
      ThenAssoc(acc, s, WorkerRun(scope, env, answers[1..]));
    }
  }

  lemma AppendAssoc<T>(a: seq<T>, b: seq<T>, c: seq<T>)
    ensures (a + b) + c == a + (b + c)
  {
  }

  /** Nothing done yet, then `t`, is `t`. */
  lemma ThenIdle<O>(t: Step<O>)
    ensures Then(Step([], [], [], true), t) == t
  {
    assert [] + t.calls == t.calls;
    assert [] + t.handled == t.handled;
    assert [] + t.reports == t.reports;
  }

  lemma ThenAssoc<O>(a: Step<O>, b: Step<O>, c: Step<O>)
    ensures Then(a, Then(b, c)) == Then(Then(a, b), c)
  {
    assert a.calls + (b.calls + c.calls) == (a.calls + b.calls) + c.calls;
    assert a.handled + (b.handled + c.handled) == (a.handled + b.handled) + c.handled;
    assert a.reports + (b.reports + c.reports) == (a.reports + b.reports) + c.reports;
  }

  /** `run<Name>Worker`: processNext steps up to and including the one
      that sees shutdown. */
  ghost function WorkerRun<O>(scope: string, env: Env<O>, answers: seq<GetAnswer>): (run: Step<O>)
    requires ShutdownAhead(answers)
    ensures !run.more
    decreases |answers|
  {
    var s := ProcessNextStep(scope, env, answers[0]);
    if !s.more then s
    else
      ShutdownAheadTail(answers);
      Then(s, WorkerRun(scope, env, answers[1..]))
  }

  /** One processNext step and the rest of the run make up the run. */
  lemma WorkerRunUnfold<O>(scope: string, env: Env<O>, answers: seq<GetAnswer>)
    requires ShutdownAhead(answers)
    ensures answers[0].ShuttingDown? ==>
      WorkerRun(scope, env, answers) == ProcessNextStep(scope, env, answers[0]) &&
      FirstShutdown(answers) == 0
    ensures answers[0].Delivered? ==>
      ShutdownAhead(answers[1..]) &&
      WorkerRun(scope, env, answers) ==
        Then(ProcessNextStep(scope, env, answers[0]), WorkerRun(scope, env, answers[1..])) &&
      answers[1..][FirstShutdown(answers[1..]) + 1..] == answers[FirstShutdown(answers) + 1..]
  {
    if answers[0].Delivered? {
      ShutdownAheadTail(answers);
    }
  }

  /** The items a run of calls marks Done, in order. */
  function DoneItems(calls: seq<QueueCall>): seq<Item>
  {
    if calls == [] then []
    else (if calls[0].DoneCall? then [calls[0].item] else []) + DoneItems(calls[1..])
  }

  lemma {:induction false} DoneItemsAppend(xs: seq<QueueCall>, ys: seq<QueueCall>)
    ensures DoneItems(xs + ys) == DoneItems(xs) + DoneItems(ys)
    decreases |xs|
  {
    if xs != [] {
      assert (xs + ys)[1..] == xs[1..] + ys;
      DoneItemsAppend(xs[1..], ys);
    } else {
      assert xs + ys == ys;
    }
  }

  /** A worker marks every item it receives Done, exactly once and in the
      order received, and nothing else. */
  lemma {:induction false} WorkerMarksEveryItemDone<O>(scope: string, env: Env<O>, answers: seq<GetAnswer>)
    requires ShutdownAhead(answers)
    ensures DoneItems(WorkerRun(scope, env, answers).calls) == Deliveries(answers)
    decreases |answers|
  {
    var s := ProcessNextStep(scope, env, answers[0]);
    match answers[0]
    case ShuttingDown =>
      assert s.calls == [GetCall(ShuttingDown)];
      assert DoneItems(s.calls) == [];
    case Delivered(item) =>
      ShutdownAheadTail(answers);
      var rest := WorkerRun(scope, env, answers[1..]);
      WorkerMarksEveryItemDone(scope, env, answers[1..]);
      DoneItemsAppend(s.calls, rest.calls);
      DoneItemsOfStep(scope, env, item);
  }

  /** One step with an item marks that item Done once. */
  lemma DoneItemsOfStep<O>(scope: string, env: Env<O>, item: Item)
    ensures DoneItems(ProcessNextStep(scope, env, Delivered(item)).calls) == [item]
  {
    var calls := ProcessNextStep(scope, env, Delivered(item)).calls;
    if |calls| == 2 {
      assert DoneItems(calls[1..]) == [item];
    } else {
      assert DoneItems(calls[2..]) == [item];
    }
  }

  /** A worker never puts anything back on its queue: a key whose
      processing failed is neither forgotten nor re-added. */
  lemma {:induction false} WorkerNeverRequeues<O>(scope: string, env: Env<O>, answers: seq<GetAnswer>)
    requires ShutdownAhead(answers)
    ensures forall c :: c in WorkerRun(scope, env, answers).calls ==> !c.AddCall? && !c.AddRateLimitedCall?
    decreases |answers|
  {
    if answers[0].Delivered? {
      ShutdownAheadTail(answers);
      WorkerNeverRequeues(scope, env, answers[1..]);
    }
  }

  /** The controller's state for one resource. */
  class ResourceWorker<O> {
    const resource: Resource
    const env: Env<O>
    const queue: WorkQueue
    /** The user handler calls made so far, in order. */
    var handled: seq<HandlerCall<O>>
    /** The errors reported so far (runtime.HandleError and log.Errorf). */
    var reports: seq<string>

    constructor (resource: Resource, env: Env<O>, queue: WorkQueue)
      ensures this.resource == resource && this.env == env && this.queue == queue
      ensures handled == [] && reports == []
    {
      this.resource := resource;
      this.env := env;
      this.queue := queue;
      handled := [];
      reports := [];
    }

    /** One of the informer handlers Initialize registers, run on `ev`. */
    method Notify(ev: Event<O>)
      modifies this, queue
      ensures queue.answers == old(queue.answers)
      ensures var x := OnEvent(resource, env, ev);
        && queue.log == old(queue.log) + (if x.Enqueue? then [AddCall(KeyItem(x.key))] else [])
        && handled == old(handled) + (if x.CallDeleted? then [DeletedCall(x.obj)] else [])
        && reports == old(reports) + ReactionReports(x)
    {
      var x := OnEvent(resource, env, ev);
      match x
      case Enqueue(key) =>
        queue.Add(KeyItem(key));
      case CallDeleted(o, err) =>
        handled := handled + [DeletedCall(o)];
        if err.Some? {
          reports := reports + ["failed to process deletion: " + err.value];
        }
      case Dropped(message) =>
        reports := reports + [message];
      case _ =>
    }

    /** `processNext<Name>`. */
    method ProcessNext() returns (more: bool)
      requires queue.answers != []
      modifies this, queue
      ensures queue.answers == old(queue.answers)[1..]
      ensures var s := ProcessNextStep(resource.scope, env, old(queue.answers)[0]);
        && more == s.more
        && queue.log == old(queue.log) + s.calls
        && handled == old(handled) + s.handled
        && reports == old(reports) + s.reports
    {
      var item, shutdown := queue.Get();
      if shutdown {
        return false;
      }
      match item {
        case ForeignItem(shown) =>
          queue.Forget(item);
          reports := reports + ["expected string in workqueue but got " + shown];
          queue.Done(item);
        case KeyItem(key) =>
          var r := Process(resource.scope, key, env);
          if r.Handled? {
            handled := handled + [CreatedOrUpdatedCall(r.obj)];
          }
          if r.Failed() {
            queue.Done(item);
            reports := reports + ["error syncing '" + key + "': " + ErrorText(key, r)];
          } else {
            queue.Forget(item);
            queue.Done(item);
          }
      }
      return true;
    }

    /** `run<Name>Worker`: call processNext until it returns false. */
    method RunWorker()
      requires ShutdownAhead(queue.answers)
      modifies this, queue
      ensures queue.answers == old(queue.answers)[FirstShutdown(old(queue.answers)) + 1..]
      ensures var run := WorkerRun(resource.scope, env, old(queue.answers));
        && queue.log == old(queue.log) + run.calls
        && handled == old(handled) + run.handled
        && reports == old(reports) + run.reports
    {
      ghost var start := queue.answers;
      ghost var log0, handled0, reports0 := queue.log, handled, reports;
      ghost var run := WorkerRun(resource.scope, env, start);
      ghost var acc: Step<O> := Step([], [], [], true);
      ghost var n := 0;
      ThenIdle(run);
      var more := true;
      while more
        invariant 0 <= n <= |start| && queue.answers == start[n..]
        invariant more ==> n <= FirstShutdown(start)
        invariant !more ==> n == FirstShutdown(start) + 1
        invariant queue.log == log0 + acc.calls
        invariant handled == handled0 + acc.handled
        invariant reports == reports0 + acc.reports
        invariant more ==> ShutdownAhead(queue.answers) && run == Then(acc, WorkerRun(resource.scope, env, queue.answers))
        invariant !more ==> acc == run
        decreases |start| - n, more
      {
        ghost var s := ProcessNextStep(resource.scope, env, start[n]);
        AdvanceRun(resource.scope, env, run, acc, queue.answers);
        assert queue.answers[0] == start[n];
        label before:
        more := ProcessNext();
        assert queue.answers == start[n + 1..];
        assert queue.log == old@before(queue.log) + s.calls;
        assert handled == old@before(handled) + s.handled;
        assert reports == old@before(reports) + s.reports;
        AppendAssoc(log0, acc.calls, s.calls);
        AppendAssoc(handled0, acc.handled, s.handled);
        AppendAssoc(reports0, acc.reports, s.reports);
        acc := Then(acc, s);
        n := n + 1;
      }
    }
  }
}
