/**
 * The context-propagating TaskDecorator: the snapshot is taken on the submitting
 * thread when a task is decorated; the decorated task, run on a pooled thread,
 * restores it, runs the original task, and clears every accessor in a finally block.
 */
module ExecutorConfig {
  import opened Wrappers
  import opened Platform
  import opened ThreadState
  import opened Accessors
  import opened PropagationManager
  import opened ContextParam
  import CustomContext

  /**
   * A submitted Runnable, code outside the core: what it does to the storage of the
   * thread that runs it, and whether it ends by throwing.
   */
  datatype Runnable = Runnable(effect: Locals -> Locals, throws: bool)

  /** The Runnable the decorator returns: the snapshot it captured and the task it wraps. */
  datatype DecoratedTask = DecoratedTask(capturedContext: Snapshot, runnable: Runnable)

  /** decorate: capture on the submitting thread, once, before the task can run. */
  method Decorate(accs: seq<Accessor>, submitter: ThreadLocals, runnable: Runnable) returns (d: DecoratedTask)
    ensures d.capturedContext == CaptureSpec(accs, submitter.View())
    ensures forall a :: a in accs ==> (Key(a) in d.capturedContext <==> Captured(a, submitter.View()))
    ensures d.runnable.effect == runnable.effect && d.runnable.throws == runnable.throws
  {
    var capturedContext := CaptureContext(accs, submitter);
    d := DecoratedTask(capturedContext, runnable);
  }

  /** The decorated task's run on a pooled thread: restore, run, then clear whatever happened. */
  method Run(accs: seq<Accessor>, d: DecoratedTask, worker: ThreadLocals) returns (o: Outcome<ContextError>)
    modifies worker
    ensures worker.View() == ClearSpec(accs, d.runnable.effect(RestoreSpec(accs, d.capturedContext, old(worker.View()))))
    ensures o == if d.runnable.throws then Fail(TaskFailure) else Pass
  {
    // try
    RestoreContext(accs, Some(d.capturedContext), worker);
    worker.Assign(d.runnable.effect(worker.View()));
    o := if d.runnable.throws then Fail(TaskFailure) else Pass;
    // finally; the task's exception then propagates unchanged
    ClearContext(accs, worker);
  }

  /**
   * The custom context crosses the pool boundary: a traffic type "live" held by the
   * submitting thread's custom accessor is what getObject(X_TRAFFIC_TYPE) returns
   * inside the task, because restoring the dt-context entry reinstalls the holder map.
   */
  lemma TrafficTypeReachesTask(accs: seq<Accessor>, submitter: Locals, worker: Locals, cm: CustomMap)
    requires CustomContextAccessor in accs
    requires Get(CustomContextAccessor, submitter) == Success(Some(CustomValues(cm)))
    requires X_TRAFFIC_TYPE in cm && cm[X_TRAFFIC_TYPE] == Str("live")
    ensures CustomContext.GetObject(RestoreSpec(accs, CaptureSpec(accs, submitter), worker), X_TRAFFIC_TYPE)
              == Success(Str("live"))
  {
    var snap := CaptureSpec(accs, submitter);
    CaptureIsExact(accs, submitter);
    RestoreInstalls(accs, snap, worker, CustomContextAccessor);
  }

  /**
   * Pool-boundary isolation: with all five accessors registered, a pooled thread is left
   * empty after any decorated task, whether it completed or threw and whatever it set.
   */
  lemma TaskLeavesThreadEmpty(accs: seq<Accessor>, d: DecoratedTask, worker: Locals)
    requires forall a :: a in accs
    ensures var after := ClearSpec(accs, d.runnable.effect(RestoreSpec(accs, d.capturedContext, worker)));
      && (forall a :: Slot(a, after) == None)
      && after.mdc.None? && after.localeHolder.None? && after.customHolder.None?
      && (after.requestHolderFault.None? ==> after.requestHolder.None?)
      && Get(HeaderContextAccessor, after) == Success(None)
      && Get(CustomContextAccessor, after) == Success(Some(CustomValues(map[])))
  {
    var during := d.runnable.effect(RestoreSpec(accs, d.capturedContext, worker));
    ClearSpecResult(accs, during);
    ClearedThreadIsEmpty(accs, during);
    assert MdcAccessor in accs && LocaleContextAccessor in accs;
    assert CustomContextAccessor in accs && RequestAttributesAccessor in accs;
  }
}
