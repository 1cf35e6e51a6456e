/*
 * `CommonEventBus`: a map from event class to the `HandlerGroup` of its
 * handles. A handler is a function from the event to the event as the
 * handler leaves it; a cancellable event exposes whether it is cancelled.
 */
module EventBus {
  import opened JavaLang
  import opened HandlerGroups

  /** A `Class` object, as far as the bus inspects it. */
  datatype EventClass = EventClass(name: string, isInterface: bool, extendsEvent: bool)

  /** `CommonEventHandle`: the event class, the consumer and whether it also runs on cancelled events. */
  datatype Handle<!E> = Handle(eventClass: EventClass, handler: E -> E, ignoreCancelled: bool)

  /**
   * Whether a handle runs on the event in its current state: always for an
   * event that is not `Cancellable` (`isCancelled` is `None`), otherwise when
   * it ignores cancellation or the event is not cancelled.
   */
  predicate ShouldRun<E>(h: Handle<E>, e: E, isCancelled: Option<E -> bool>) {
    isCancelled.None? || h.ignoreCancelled || !isCancelled.value(e)
  }

  /**
   * Running `hs` in order on `e`: the event as the last handler leaves it,
   * and the indices of the handles that ran.
   */
  function Dispatch<E>(hs: seq<Handle<E>>, e: E, isCancelled: Option<E -> bool>): (r: (E, seq<nat>))
    ensures forall j :: 0 <= j < |r.1| ==> r.1[j] < |hs|
    ensures |r.1| <= |hs|
  {
    if |hs| == 0 then (e, [])
    else
      var (e1, ran) := Dispatch(hs[..|hs| - 1], e, isCancelled);
      var h := hs[|hs| - 1];
      if ShouldRun(h, e1, isCancelled) then (h.handler(e1), ran + [|hs| - 1]) else (e1, ran)
  }

  /** Dispatching one more handle of a sequence extends the dispatch of the handles before it. */
  lemma DispatchPrefixStep<E>(hs: seq<Handle<E>>, k: nat, e: E, isCancelled: Option<E -> bool>)
    requires k < |hs|
    ensures var (e1, ran) := Dispatch(hs[..k], e, isCancelled);
            Dispatch(hs[..k + 1], e, isCancelled)
            == if ShouldRun(hs[k], e1, isCancelled) then (hs[k].handler(e1), ran + [k]) else (e1, ran)
  {
    assert hs[..k + 1][..k] == hs[..k];
  }

  /**
   * Handle `k` runs exactly when it should run on the event as the handles
   * before it have left it.
   */
  lemma {:induction false} DispatchRunsIff<E>(hs: seq<Handle<E>>, e: E, isCancelled: Option<E -> bool>, k: nat)
    requires k < |hs|
    ensures k in Dispatch(hs, e, isCancelled).1 <==> ShouldRun(hs[k], Dispatch(hs[..k], e, isCancelled).0, isCancelled)
    decreases |hs|
  {
    var init := hs[..|hs| - 1];
    var ran := Dispatch(init, e, isCancelled).1;
    if k == |hs| - 1 {
      assert init == hs[..k];
      assert k !in ran;
    } else {
      DispatchRunsIff(init, e, isCancelled, k);
      assert init[..k] == hs[..k];
    }
  }

  /** `0, 1, ..., n - 1`. */
  function Indices(n: nat): (r: seq<nat>)
    ensures |r| == n && forall j :: 0 <= j < n ==> r[j] == j
  {
    if n == 0 then [] else Indices(n - 1) + [n - 1]
  }

  /** An event that is not cancellable runs every handle, in group order. */
  lemma {:induction false} NonCancellableRunsAll<E>(hs: seq<Handle<E>>, e: E)
    ensures Dispatch(hs, e, None).1 == Indices(|hs|)
    decreases |hs|
  {
    if |hs| > 0 {
      NonCancellableRunsAll(hs[..|hs| - 1], e);
    }
  }

  /** The indices of the handles that ignore cancellation. */
  function IgnoringIndices<E>(hs: seq<Handle<E>>): seq<nat> {
    if |hs| == 0 then []
    else IgnoringIndices(hs[..|hs| - 1]) + (if hs[|hs| - 1].ignoreCancelled then [|hs| - 1] else [])
  }

  /** A handler that never lifts the cancellation of an event. */
  ghost predicate KeepsCancelled<E(!new)>(h: Handle<E>, isCancelled: E -> bool) {
    forall x :: isCancelled(x) ==> isCancelled(h.handler(x))
  }

  /**
   * On an event that is already cancelled, when no handler lifts the
   * cancellation, exactly the handles that ignore cancellation run.
   */
  lemma {:induction false} CancelledRunsOnlyIgnoring<E(!new)>(hs: seq<Handle<E>>, e: E, isCancelled: E -> bool)
    requires isCancelled(e)
    requires forall j :: 0 <= j < |hs| ==> KeepsCancelled(hs[j], isCancelled)
    ensures isCancelled(Dispatch(hs, e, Some(isCancelled)).0)
    ensures Dispatch(hs, e, Some(isCancelled)).1 == IgnoringIndices(hs)
    decreases |hs|
  {
    if |hs| > 0 {
      var init := hs[..|hs| - 1];
      assert forall j :: 0 <= j < |init| ==> init[j] == hs[j];
      CancelledRunsOnlyIgnoring(init, e, isCancelled);
      var e1 := Dispatch(init, e, Some(isCancelled)).0;
      assert KeepsCancelled(hs[|hs| - 1], isCancelled);
    }
  }

  class CommonEventBus<E> {
    var handlers: map<EventClass, HandlerGroup<Handle<E>>>

    /**
     * Every registered class is an interface extending the event type, every
     * group has its five buckets, and no two classes share a group.
     */
    ghost predicate Valid()
      reads this, handlers.Values
    {
      (forall c :: c in handlers ==> c.isInterface && c.extendsEvent && handlers[c].Valid())
      && (forall c1, c2 :: c1 in handlers && c2 in handlers && c1 != c2 ==> handlers[c1] != handlers[c2])
    }

    /** The buckets of a class; a class without a group has five empty ones. */
    ghost function Buckets(c: EventClass): seq<seq<Handle<E>>>
      reads this, handlers.Values
    {
      if c in handlers then handlers[c].priorityNodes else [[], [], [], [], []]
    }

    constructor ()
      ensures Valid() && handlers == map[]
    {
      handlers := map[];
    }

    /**
     * `addHandle(eventClass, handler, priority, ignoreCancelled)`: a null
     * argument throws NullPointerException, a class that is not an interface
     * extending the event type throws IllegalArgumentException, and otherwise
     * the handle heads the chain of its priority in the class's group, which
     * is created when the class has none. No other class's handles change.
     */
    method AddHandle(eventClass: Option<EventClass>, handler: Option<E -> E>, priority: Option<EventPriority>, ignoreCancelled: bool)
      returns (r: Outcome<()>)
      requires Valid()
      modifies this, handlers.Values
      ensures Valid()
      ensures eventClass.None? || handler.None? || priority.None? ==> r == Throws(NullPointerException)
      ensures eventClass.Some? && handler.Some? && priority.Some? && !(eventClass.value.isInterface && eventClass.value.extendsEvent) ==>
                r == Throws(IllegalArgumentException)
      ensures r.Throws? ==> handlers == old(handlers) && forall c :: Buckets(c) == old(Buckets(c))
      ensures r.Ok? <==> eventClass.Some? && handler.Some? && priority.Some? && eventClass.value.isInterface && eventClass.value.extendsEvent
      ensures r.Ok? ==>
                var c0, o := eventClass.value, Ordinal(priority.value);
                && handlers.Keys == old(handlers.Keys) + {c0}
                && Buckets(c0) == old(Buckets(c0))[o := [Handle(c0, handler.value, ignoreCancelled)] + old(Buckets(c0))[o]]
                && forall c :: c != c0 ==> Buckets(c) == old(Buckets(c))
    {
      if eventClass.None? || handler.None? || priority.None? {
        return Throws(NullPointerException);
      }
      var c0 := eventClass.value;
      if !c0.isInterface || !c0.extendsEvent {
        return Throws(IllegalArgumentException);
      }
      var eventHandle := Handle(c0, handler.value, ignoreCancelled);
      var handlerGroup: HandlerGroup<Handle<E>>;
      if c0 in handlers {
        handlerGroup := handlers[c0];
      } else {
        handlerGroup := new HandlerGroup<Handle<E>>();
        handlers := handlers[c0 := handlerGroup];
      }
      r := handlerGroup.AddHandle(eventHandle, priority.value);
    }

    /**
     * `addHandle` as written: a class without a group gets a group from the
     * as-written `HandlerGroup` constructor, which holds no bucket. That group
     * is stored first, and adding the handle to it then throws
     * IndexOutOfBoundsException. A group stored this way stays empty, so a
     * later registration for the same class throws too.
     */
    method AddHandleAsWritten(eventClass: Option<EventClass>, handler: Option<E -> E>, priority: Option<EventPriority>, ignoreCancelled: bool)
      returns (r: Outcome<()>)
      modifies this, handlers.Values
      ensures eventClass.None? || handler.None? || priority.None? ==> r == Throws(NullPointerException) && handlers == old(handlers)
      ensures eventClass.Some? && handler.Some? && priority.Some? && !(eventClass.value.isInterface && eventClass.value.extendsEvent) ==>
                r == Throws(IllegalArgumentException) && handlers == old(handlers)
      ensures eventClass.Some? && handler.Some? && priority.Some? && eventClass.value.isInterface && eventClass.value.extendsEvent
              && eventClass.value !in old(handlers) ==>
                var c0 := eventClass.value;
                && r == Throws(IndexOutOfBoundsException)
                && c0 in handlers && fresh(handlers[c0]) && handlers[c0].priorityNodes == []
                && handlers == old(handlers)[c0 := handlers[c0]]
      ensures eventClass.Some? && handler.Some? && priority.Some? && eventClass.value.isInterface && eventClass.value.extendsEvent
              && eventClass.value in old(handlers) && old(handlers[eventClass.value].priorityNodes) == [] ==>
                r == Throws(IndexOutOfBoundsException) && handlers == old(handlers)
                && handlers[eventClass.value].priorityNodes == []
    {
      if eventClass.None? || handler.None? || priority.None? {
        return Throws(NullPointerException);
      }
      var c0 := eventClass.value;
      if !c0.isInterface || !c0.extendsEvent {
        return Throws(IllegalArgumentException);
      }
      var eventHandle := Handle(c0, handler.value, ignoreCancelled);
      var handlerGroup: HandlerGroup<Handle<E>>;
      if c0 in handlers {
        handlerGroup := handlers[c0];
      } else {
        handlerGroup := new HandlerGroup<Handle<E>>.AsWritten();
        handlers := handlers[c0 := handlerGroup];
      }
      r := handlerGroup.AddHandle(eventHandle, priority.value);
    }

    /** `addHandle(eventClass, handler)`: priority NORMAL, not run on cancelled events. */
    method AddHandleNormal(eventClass: Option<EventClass>, handler: Option<E -> E>) returns (r: Outcome<()>)
      requires Valid()
      modifies this, handlers.Values
      ensures Valid()
      ensures r.Ok? <==> eventClass.Some? && handler.Some? && eventClass.value.isInterface && eventClass.value.extendsEvent
      ensures r.Throws? ==> handlers == old(handlers) && forall c :: Buckets(c) == old(Buckets(c))
      ensures r.Ok? ==>
                var c0, o := eventClass.value, Ordinal(NORMAL);
                && Buckets(c0) == old(Buckets(c0))[o := [Handle(c0, handler.value, false)] + old(Buckets(c0))[o]]
                && forall c :: c != c0 ==> Buckets(c) == old(Buckets(c))
    {
      r := AddHandleAt(eventClass, handler, Some(NORMAL));
    }

    /** `addHandle(eventClass, handler, priority)`: not run on cancelled events. */
    method AddHandleAt(eventClass: Option<EventClass>, handler: Option<E -> E>, priority: Option<EventPriority>) returns (r: Outcome<()>)
      requires Valid()
      modifies this, handlers.Values
      ensures Valid()
      ensures r.Ok? <==> eventClass.Some? && handler.Some? && priority.Some? && eventClass.value.isInterface && eventClass.value.extendsEvent
      ensures r.Throws? ==> handlers == old(handlers) && forall c :: Buckets(c) == old(Buckets(c))
      ensures r.Ok? ==>
                var c0, o := eventClass.value, Ordinal(priority.value);
                && Buckets(c0) == old(Buckets(c0))[o := [Handle(c0, handler.value, false)] + old(Buckets(c0))[o]]
                && forall c :: c != c0 ==> Buckets(c) == old(Buckets(c))
    {
      r := AddHandle(eventClass, handler, priority, false);
    }

    /** `getHandles`: the class's handles in group order; none for a class without a group. */
    method GetHandles(eventClass: EventClass) returns (hs: seq<Handle<E>>)
      requires Valid()
      ensures hs == Flatten(Buckets(eventClass))
      ensures eventClass !in handlers ==> hs == []
    {
      if eventClass !in handlers {
        FlattenFive(Buckets(eventClass));
        return [];
      }
      hs := handlers[eventClass].GetHandles();
    }

    /**
     * `call`: with no group for the event's class nothing runs; otherwise the
     * group is walked in order and each handle runs as `ShouldRun` says, on
     * the event as the earlier handlers left it.
     */
    method Call(event: E, eventClass: EventClass, isCancelled: Option<E -> bool>) returns (after: E, ran: seq<nat>)
      requires Valid()
      ensures eventClass !in handlers ==> after == event && ran == []
      ensures eventClass in handlers ==> (after, ran) == Dispatch(Flatten(Buckets(eventClass)), event, isCancelled)
    {
      after, ran := event, [];
      if eventClass !in handlers {
        return;
      }
      var hs := handlers[eventClass].ForEach();
      after, ran := RunHandles(hs, event, isCancelled);
    }

    /**
     * `call` as written, on a bus whose groups are either whole or hold no
     * bucket, as the as-written registration leaves them: the iterator of a
     * group without buckets asks for bucket 0 at its first `hasNext` and
     * throws IndexOutOfBoundsException; a whole group runs as `Call` says.
     */
    method CallAsWritten(event: E, eventClass: EventClass, isCancelled: Option<E -> bool>) returns (r: Outcome<(E, seq<nat>)>)
      requires eventClass in handlers ==> handlers[eventClass].priorityNodes == [] || handlers[eventClass].Valid()
      ensures eventClass !in handlers ==> r == Ok((event, []))
      ensures eventClass in handlers && handlers[eventClass].priorityNodes == [] ==> r == Throws(IndexOutOfBoundsException)
      ensures eventClass in handlers && handlers[eventClass].priorityNodes != [] ==>
                r == Ok(Dispatch(Flatten(Buckets(eventClass)), event, isCancelled))
    {
      if eventClass !in handlers {
        return Ok((event, []));
      }
      var group := handlers[eventClass];
      if group.priorityNodes == [] {
        return Throws(IndexOutOfBoundsException);
      }
      var hs := group.ForEach();
      var after, ran := RunHandles(hs, event, isCancelled);
      r := Ok((after, ran));
    }
  }

  /**
   * The loop of `call`: the handles run in order, each as `ShouldRun` says,
   * on the event as the earlier handlers left it.
   */
  method RunHandles<E>(hs: seq<Handle<E>>, event: E, isCancelled: Option<E -> bool>) returns (after: E, ran: seq<nat>)
    ensures (after, ran) == Dispatch(hs, event, isCancelled)
  {
    after, ran := event, [];
    var k := 0;
    if isCancelled.Some? {
      while k < |hs|
        invariant 0 <= k <= |hs|
        invariant (after, ran) == Dispatch(hs[..k], event, isCancelled)
      {
        DispatchPrefixStep(hs, k, event, isCancelled);
        var handle := hs[k];
        if handle.ignoreCancelled || !isCancelled.value(after) {
          after := handle.handler(after);
          ran := ran + [k];
        }
        k := k + 1;
      }
    } else {
      while k < |hs|
        invariant 0 <= k <= |hs|
        invariant (after, ran) == Dispatch(hs[..k], event, isCancelled)
      {
        DispatchPrefixStep(hs, k, event, isCancelled);
        after := hs[k].handler(after);
        ran := ran + [k];
        k := k + 1;
      }
    }
    assert hs[..k] == hs;
  }

  /**
   * As written, registering a handler on a new bus throws, and so does
   * registering it again: the class's group is stored but never receives a
   * bucket, so no handler is ever registered.
   */
  method AsWrittenBusRegistersNothing<E>(c: EventClass, handler: E -> E, priority: EventPriority)
    returns (first: Outcome<()>, second: Outcome<()>, buckets: seq<seq<Handle<E>>>)
    requires c.isInterface && c.extendsEvent
    ensures first == Throws(IndexOutOfBoundsException) && second == Throws(IndexOutOfBoundsException)
    ensures buckets == []
  {
    var bus := new CommonEventBus<E>();
    first := bus.AddHandleAsWritten(Some(c), Some(handler), Some(priority), false);
    second := bus.AddHandleAsWritten(Some(c), Some(handler), Some(priority), false);
    buckets := bus.handlers[c].priorityNodes;
  }

  /**
   * As written, once a registration has stored a group without buckets for a
   * class, an event of that class cannot be called: `call` throws
   * IndexOutOfBoundsException.
   */
  method AsWrittenCallThrows<E>(c: EventClass, handler: E -> E, priority: EventPriority, event: E)
    returns (registered: Outcome<()>, called: Outcome<(E, seq<nat>)>)
    requires c.isInterface && c.extendsEvent
    ensures registered == Throws(IndexOutOfBoundsException)
    ensures called == Throws(IndexOutOfBoundsException)
  {
    var bus := new CommonEventBus<E>();
    registered := bus.AddHandleAsWritten(Some(c), Some(handler), Some(priority), false);
    called := bus.CallAsWritten(event, c, None);
  }
}
