/**
 * The Kubernetes event watch of one namespace: the translation of a core/v1 Event into a
 * domain event, and the receive / re-watch / cancel loop, run over a trace of what the
 * loop's `select` observes.
 */
module KubeEvents {
  import opened Wrappers
  import opened GoTime
  import opened EventTypes
  import opened Seqs
  import opened Strings

  datatype ObjectReference = ObjectReference(kind: string, name: string)

  /** The fields of a core/v1 Event that the translation reads. */
  datatype CoreEvent = CoreEvent(
    uid: string,
    namespace: string,
    name: string,
    reason: string,
    message: string,
    eventType: string,
    involvedObject: ObjectReference,
    firstTimestamp: Time,
    count: int,
    deletionTimestamp: Option<Time>)

  /** The object carried by one watch notification: a core/v1 Event or anything else. */
  datatype WatchObject = EventObject(event: CoreEvent) | OtherObject(typeName: string)

  /** What one turn of the loop's `select` observes. */
  datatype Input =
    | Item(obj: WatchObject)  // a notification arrived on the current watcher's channel
    | Closed                  // the current watcher's channel was closed
    | Cancel                  // the context was cancelled

  /** An opaque watch handle. */
  type Watcher = nat

  /**
   * The two results of a Watch call. The watcher is None for Go's nil interface, which a failed
   * call may return beside its error.
   */
  datatype WatchReply = WatchReply(watcher: Option<Watcher>, err: Option<string>)

  /**
   * How the loop stands at the end of a trace: still receiving; returned after stopping the
   * watcher on cancellation; or panicked, because the `select` called `ResultChan` on a nil watcher.
   */
  datatype Outcome = Running | Stopped(watcher: Watcher) | Panicked

  /**
   * What a started watch did over a trace: the domain events it sent, the namespace of every
   * Watch call it made (the first one included), and how the loop stands afterwards.
   */
  datatype WatchRun = WatchRun(emitted: seq<Event>, watchCalls: seq<string>, outcome: Outcome)

  /** The translation of one core/v1 Event. */
  function Translate(e: CoreEvent): (r: Event)
    ensures r.involvedObject == e.involvedObject.kind + "/" + e.involvedObject.name
    ensures r.id == e.uid && r.namespace == e.namespace && r.name == e.name
    ensures r.reason == e.reason && r.message == e.message && r.eventType == e.eventType
    ensures r.firstTimestamp == e.firstTimestamp && r.count == e.count
    ensures r.lastTimestamp == e.deletionTimestamp.GetOr(ZeroTime)
  {
    var domainEvent := Event(e.uid, e.namespace, e.name, e.reason, e.message, e.eventType,
                             e.involvedObject.kind + "/" + e.involvedObject.name,
                             e.firstTimestamp, ZeroTime, e.count);
    if e.deletionTimestamp.Some? then domainEvent.(lastTimestamp := e.deletionTimestamp.value)
    else domainEvent
  }

  /** The involved object's kind and name can be read back from the flattened reference (kinds never hold '/'). */
  lemma InvolvedObjectReadsBack(e: CoreEvent)
    requires '/' !in e.involvedObject.kind
    ensures SplitAt(Translate(e).involvedObject, '/') == (e.involvedObject.kind, e.involvedObject.name)
  {
    assert Translate(e).involvedObject == e.involvedObject.kind + ['/'] + e.involvedObject.name;
    SplitAtOf(e.involvedObject.kind, '/', e.involvedObject.name);
  }

  /** The domain event an input yields: only a notification carrying a core/v1 Event yields one. */
  function EventOf(x: Input): Option<Event> {
    if x.Item? && x.obj.EventObject? then Some(Translate(x.obj.event)) else None
  }

  /** The events sent for the inputs of `s`, in order. */
  function Emitted(s: seq<Input>): seq<Event> {
    FilterMap(s, EventOf)
  }

  /** The inputs before the first cancellation. */
  function Live(t: seq<Input>): (r: seq<Input>)
    ensures |r| <= |t| && r == t[..|r|]
    ensures forall k :: 0 <= k < |r| ==> !r[k].Cancel?
    ensures |r| < |t| ==> t[|r|].Cancel?
    decreases |t|
  {
    if t == [] || t[0].Cancel? then [] else [t[0]] + Live(t[1..])
  }

  /** How many times the channel closed in `s`. */
  function Closures(s: seq<Input>): nat
    decreases |s|
  {
    if s == [] then 0 else Closures(s[..|s| - 1]) + (if s[|s| - 1].Closed? then 1 else 0)
  }

  /** The watcher the loop holds after the inputs of `p`: the one the last Watch call returned. */
  function Current(namespace: string, watch: (string, nat) -> WatchReply, p: seq<Input>): Option<Watcher> {
    watch(namespace, Closures(p)).watcher
  }

  /** Every Watch call up to the `n`-th re-watch returns some watcher, whether it reports an error or not. */
  predicate WatchersUpTo(namespace: string, watch: (string, nat) -> WatchReply, n: nat) {
    forall j :: 0 <= j <= n ==> watch(namespace, j).watcher.Some?
  }

  /**
   * How many inputs from the `i`-th on the loop handles: it leaves at a nil watcher (the `select`
   * evaluates `watcher.ResultChan()` before anything else), at a cancellation, or at the trace's end.
   */
  function Handled(namespace: string, watch: (string, nat) -> WatchReply, t: seq<Input>, i: nat): (n: nat)
    requires i <= |t|
    ensures i <= n <= |t|
    decreases |t| - i
  {
    if i == |t| || Current(namespace, watch, t[..i]).None? || t[i].Cancel? then i
    else Handled(namespace, watch, t, i + 1)
  }

  /**
   * The run a started watch makes over `t`: the events of the inputs it handles, one Watch call
   * for the namespace plus one per closure among them, and then a panic when the watcher it holds
   * is nil, a stop of that watcher when a cancellation ended the loop, or still running.
   */
  function ExpectedRun(namespace: string, watch: (string, nat) -> WatchReply, t: seq<Input>): WatchRun {
    var n := Handled(namespace, watch, t, 0);
    var handled := t[..n];
    WatchRun(Emitted(handled),
             seq(Closures(handled) + 1, _ => namespace),
             match Current(namespace, watch, handled)
             case None => Panicked
             case Some(w) => if n < |t| then Stopped(w) else Running)
  }

  /**
   * WatchEvents: a failed first Watch call is returned as the error and nothing runs; otherwise
   * the loop receives from the current watcher, translates and sends every core/v1 Event, skips
   * other objects, re-watches the same namespace when the channel closes (keeping whatever the
   * new call returned as the watcher, failed or not), panics once that watcher is nil, and on
   * cancellation stops the watcher and returns.
   */
  method WatchEvents(namespace: string, watch: (string, nat) -> WatchReply, trace: seq<Input>)
    returns (r: Result<WatchRun, string>)
    ensures watch(namespace, 0).err.Some? ==> r == Failure(watch(namespace, 0).err.value)
    ensures watch(namespace, 0).err.None? ==> r == Success(ExpectedRun(namespace, watch, trace))
  {
    var reply := watch(namespace, 0);
    if reply.err.Some? {
      return Failure(reply.err.value);
    }
    var watcher := reply.watcher;
    var emitted: seq<Event> := [];
    var calls: seq<string> := [namespace];
    var i := 0;
    assert trace[..0] == [];
    while i < |trace| && watcher.Some? && !trace[i].Cancel?
      invariant 0 <= i <= |trace|
      invariant Handled(namespace, watch, trace, i) == Handled(namespace, watch, trace, 0)
      invariant emitted == Emitted(trace[..i])
      invariant |calls| == Closures(trace[..i]) + 1
      invariant forall k :: 0 <= k < |calls| ==> calls[k] == namespace
      invariant watcher == Current(namespace, watch, trace[..i])
    {
      StepOfTrace(trace, i);
      if trace[i].Closed? {
        var next := watch(namespace, |calls|);
        calls := calls + [namespace];
        watcher := next.watcher;
      } else if trace[i].obj.EventObject? {
        emitted := emitted + [Translate(trace[i].obj.event)];
      }
      i := i + 1;
    }
    var outcome: Outcome;
    if watcher.None? {
      outcome := Panicked;
    } else if i < |trace| {
      outcome := Stopped(watcher.value);
    } else {
      outcome := Running;
    }
    assert calls == seq(Closures(trace[..i]) + 1, _ => namespace);
    return Success(WatchRun(emitted, calls, outcome));
  }

  /** One more input adds its own event and closure to those of the inputs before it. */
  lemma StepOfTrace(t: seq<Input>, i: nat)
    requires i < |t|
    ensures Emitted(t[..i + 1]) == Emitted(t[..i]) + (if EventOf(t[i]).Some? then [EventOf(t[i]).value] else [])
    ensures Closures(t[..i + 1]) == Closures(t[..i]) + (if t[i].Closed? then 1 else 0)
  {
    assert t[..i + 1][..i] == t[..i];
  }

  lemma LiveIsPrefixBeforeCancel(t: seq<Input>, i: nat, cancelled: bool)
    requires i <= |t|
    requires forall k :: 0 <= k < i ==> !t[k].Cancel?
    requires cancelled ==> i < |t| && t[i].Cancel?
    requires !cancelled ==> i == |t|
    ensures Live(t) == t[..i]
  {
  }

  /** A prefix has no more closures than the whole. */
  lemma ClosuresOfPrefix(t: seq<Input>, i: nat)
    requires i <= |t|
    ensures Closures(t[..i]) <= Closures(t)
  {
    assert t == t[..i] + t[i..];
    ClosuresAppend(t[..i], t[i..]);
  }

  /** Inputs that are neither a cancellation nor met with a nil watcher are handled and passed. */
  lemma {:induction false} HandledSkips(namespace: string, watch: (string, nat) -> WatchReply, t: seq<Input>, i: nat, m: nat)
    requires i <= m <= |t|
    requires forall k :: i <= k < m ==> !t[k].Cancel? && Current(namespace, watch, t[..k]).Some?
    ensures Handled(namespace, watch, t, i) == Handled(namespace, watch, t, m)
    decreases m - i
  {
    if i < m {
      HandledSkips(namespace, watch, t, i + 1, m);
    }
  }

  /**
   * While every Watch call returns a watcher, the loop handles exactly the inputs before the
   * first cancellation.
   */
  lemma HandledIsLive(namespace: string, watch: (string, nat) -> WatchReply, t: seq<Input>)
    requires WatchersUpTo(namespace, watch, Closures(Live(t)))
    ensures Handled(namespace, watch, t, 0) == |Live(t)|
  {
    var live := Live(t);
    forall k | 0 <= k <= |live|
      ensures Current(namespace, watch, t[..k]).Some?
    {
      assert t[..k] == live[..k];
      ClosuresOfPrefix(live, k);
    }
    HandledSkips(namespace, watch, t, 0, |live|);
  }

  /** Events are sent in arrival order: the events of a concatenation are those of its parts, concatenated. */
  lemma EmittedInOrder(a: seq<Input>, b: seq<Input>)
    ensures Emitted(a + b) == Emitted(a) + Emitted(b)
  {
    FilterMapAppend(a, b, EventOf);
  }

  /** An event is sent exactly when some notification in the trace carried a core/v1 Event translating to it. */
  lemma EmittedExactly(s: seq<Input>, e: Event)
    ensures e in Emitted(s) <==>
      exists i :: 0 <= i < |s| && s[i].Item? && s[i].obj.EventObject? && Translate(s[i].obj.event) == e
  {
    FilterMapMember(s, EventOf, e);
  }

  /** A closure, a cancellation and an object of another type send nothing; a core/v1 Event sends exactly one event. */
  lemma OneEventPerCoreEvent(x: Input)
    ensures |Emitted([x])| == (if x.Item? && x.obj.EventObject? then 1 else 0)
    ensures x.Item? && x.obj.EventObject? ==> Emitted([x]) == [Translate(x.obj.event)]
  {
    assert [x][..0] == [];
  }

  /** Nothing is sent after the cancellation: whatever follows it is never read, and the watcher held is stopped. */
  lemma NothingAfterCancel(namespace: string, watch: (string, nat) -> WatchReply, before: seq<Input>, after: seq<Input>)
    requires forall k :: 0 <= k < |before| ==> !before[k].Cancel?
    requires WatchersUpTo(namespace, watch, Closures(before))
    ensures Live(before + [Cancel] + after) == before
    ensures var run := ExpectedRun(namespace, watch, before + [Cancel] + after);
            run.emitted == Emitted(before)
            && run.outcome == Stopped(watch(namespace, Closures(before)).watcher.value)
  {
    var t := before + [Cancel] + after;
    LiveIsPrefixBeforeCancel(t, |before|, true);
    assert t[..|before|] == before;
    HandledIsLive(namespace, watch, t);
  }

  /** With no cancellation, and a watcher from every Watch call, the loop keeps running and sends every event. */
  lemma RunsUntilCancelled(namespace: string, watch: (string, nat) -> WatchReply, t: seq<Input>)
    requires forall k :: 0 <= k < |t| ==> !t[k].Cancel?
    requires WatchersUpTo(namespace, watch, Closures(t))
    ensures ExpectedRun(namespace, watch, t).emitted == Emitted(t)
    ensures ExpectedRun(namespace, watch, t).outcome == Running
    ensures ExpectedRun(namespace, watch, t).watchCalls == seq(Closures(t) + 1, _ => namespace)
  {
    LiveIsPrefixBeforeCancel(t, |t|, false);
    assert t[..|t|] == t;
    HandledIsLive(namespace, watch, t);
  }

  /**
   * Reconnect resilience: after a closure the same namespace is watched again and, as long as the
   * re-watch returns a watcher (with an error or without), the next notifications are still
   * translated and sent.
   */
  lemma ReconnectContinues(namespace: string, watch: (string, nat) -> WatchReply, before: seq<Input>, after: seq<Input>)
    requires forall k :: 0 <= k < |before| ==> !before[k].Cancel?
    requires forall k :: 0 <= k < |after| ==> !after[k].Cancel?
    requires WatchersUpTo(namespace, watch, Closures(before) + Closures(after) + 1)
    ensures ExpectedRun(namespace, watch, before + [Closed] + after).emitted == Emitted(before) + Emitted(after)
    ensures ExpectedRun(namespace, watch, before + [Closed] + after).outcome == Running
    ensures var calls := ExpectedRun(namespace, watch, before + [Closed] + after).watchCalls;
            |calls| == Closures(before) + Closures(after) + 2 && forall k :: 0 <= k < |calls| ==> calls[k] == namespace
  {
    var t := before + [Closed] + after;
    AcrossClosure(before, after);
    RunsUntilCancelled(namespace, watch, t);
  }

  /** A closure between two cancel-free stretches: the events and closures of each add up, and no cancellation. */
  lemma AcrossClosure(before: seq<Input>, after: seq<Input>)
    requires forall k :: 0 <= k < |before| ==> !before[k].Cancel?
    requires forall k :: 0 <= k < |after| ==> !after[k].Cancel?
    ensures var t := before + [Closed] + after;
            && Closures(t) == Closures(before) + Closures(after) + 1
            && Emitted(t) == Emitted(before) + Emitted(after)
            && forall k :: 0 <= k < |t| ==> !t[k].Cancel?
  {
    ClosuresAppend(before + [Closed], after);
    ClosuresAppend(before, [Closed]);
    EmittedInOrder(before + [Closed], after);
    EmittedInOrder(before, [Closed]);
    assert [Closed][..0] == [];
    NoCancelAcross(before, after);
  }

  lemma NoCancelAcross(before: seq<Input>, after: seq<Input>)
    requires forall k :: 0 <= k < |before| ==> !before[k].Cancel?
    requires forall k :: 0 <= k < |after| ==> !after[k].Cancel?
    ensures forall k :: 0 <= k < |before + [Closed] + after| ==> !(before + [Closed] + after)[k].Cancel?
  {
  }

  /**
   * A re-watch that returns no watcher ends the loop: the next `select` panics on the nil watcher,
   * so nothing after the closure is read, not even a cancellation.
   */
  lemma FailedRewatchPanics(namespace: string, watch: (string, nat) -> WatchReply, before: seq<Input>, after: seq<Input>)
    requires forall k :: 0 <= k < |before| ==> !before[k].Cancel?
    requires WatchersUpTo(namespace, watch, Closures(before))
    requires watch(namespace, Closures(before) + 1).watcher.None?
    ensures var run := ExpectedRun(namespace, watch, before + [Closed] + after);
            run.emitted == Emitted(before) && run.outcome == Panicked && |run.watchCalls| == Closures(before) + 2
  {
    var t := before + [Closed] + after;
    var m := |before| + 1;
    forall k | 0 <= k <= |before|
      ensures t[..k] == before[..k] && Current(namespace, watch, t[..k]).Some?
    {
      assert t[..k] == before[..k];
      ClosuresOfPrefix(before, k);
    }
    HandledSkips(namespace, watch, t, 0, m);
    assert t[..m] == before + [Closed];
    ClosuresAppend(before, [Closed]);
    assert Closures([Closed]) == 1 by { assert [Closed][..0] == []; }
    EmittedInOrder(before, [Closed]);
    assert Emitted([Closed]) == [] by { assert [Closed][..0] == []; }
  }

  lemma {:induction false} ClosuresAppend(a: seq<Input>, b: seq<Input>)
    ensures Closures(a + b) == Closures(a) + Closures(b)
    decreases |b|
  {
    if b == [] {
      assert a + b == a;
    } else {
      assert (a + b)[..|a + b| - 1] == a + b[..|b| - 1];
      ClosuresAppend(a, b[..|b| - 1]);
    }
  }
  /**
   * A worked trace: a core/v1 Event, a channel closure, a second event, the cancellation and
   * a third event that is never read. The first two are sent, in order, the namespace is
   * watched twice, and the second watcher is the one stopped.
   */
  lemma OrderAcrossReconnect(namespace: string, watch: (string, nat) -> WatchReply,
                             e1: CoreEvent, e2: CoreEvent, e3: CoreEvent)
    requires watch(namespace, 0).watcher.Some? && watch(namespace, 1).watcher.Some?
    ensures var run := ExpectedRun(namespace, watch,
                                   [Item(EventObject(e1)), Closed, Item(EventObject(e2)), Cancel, Item(EventObject(e3))]);
            run.emitted == [Translate(e1), Translate(e2)]
            && run.watchCalls == [namespace, namespace]
            && run.outcome == Stopped(watch(namespace, 1).watcher.value)
  {
    var x1, x2 := Item(EventObject(e1)), Item(EventObject(e2));
    var before := [x1, Closed, x2];
    assert [x1, Closed, x2, Cancel, Item(EventObject(e3))] == before + [Cancel] + [Item(EventObject(e3))];
    assert before[..2] == [x1, Closed] && [x1, Closed][..1] == [x1] && [x1][..0] == [];
    assert Emitted([x1]) == [Translate(e1)] && Closures([x1]) == 0;
    assert Emitted([x1, Closed]) == [Translate(e1)] && Closures([x1, Closed]) == 1;
    assert Emitted(before) == [Translate(e1), Translate(e2)] && Closures(before) == 1;
    NothingAfterCancel(namespace, watch, before, [Item(EventObject(e3))]);
  }
}
