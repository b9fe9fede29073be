/** The event service: the forwarding loop that stores every watched event, and the query pass-through. */
module Events {
  import opened Wrappers
  import opened EventTypes
  import opened KubeEvents
  import opened EventStore

  /**
   * The rows a sequence of SaveEvent calls adds: call `i` stores `events[i]` unless the
   * database reports `saveErr(i)` for it.
   */
  function Stored(events: seq<Event>, saveErr: nat -> Option<string>): (r: seq<Event>)
    ensures |r| <= |events|
    decreases |events|
  {
    if events == [] then []
    else
      var n := |events| - 1;
      Stored(events[..n], saveErr) + (if saveErr(n).None? then [events[n]] else [])
  }

  /** When every save succeeds, exactly the forwarded events are stored, in order. */
  lemma {:induction false} StoredAllWhenNoErrors(events: seq<Event>, saveErr: nat -> Option<string>)
    requires forall i :: 0 <= i < |events| ==> saveErr(i).None?
    ensures Stored(events, saveErr) == events
    decreases |events|
  {
    if events != [] {
      var n := |events| - 1;
      StoredAllWhenNoErrors(events[..n], saveErr);
      assert events == events[..n] + [events[n]];
    }
  }

  /** Nothing is stored when every save fails. */
  lemma {:induction false} StoredNoneWhenAllFail(events: seq<Event>, saveErr: nat -> Option<string>)
    requires forall i :: 0 <= i < |events| ==> saveErr(i).Some?
    ensures Stored(events, saveErr) == []
    decreases |events|
  {
    if events != [] {
      StoredNoneWhenAllFail(events[..|events| - 1], saveErr);
    }
  }

  /** A failed save loses only its own event: an event is stored exactly when some call saving it succeeded. */
  lemma {:induction false} StoredExactly(events: seq<Event>, saveErr: nat -> Option<string>, e: Event)
    ensures e in Stored(events, saveErr) <==> exists i :: 0 <= i < |events| && events[i] == e && saveErr(i).None?
    decreases |events|
  {
    if events != [] {
      var n := |events| - 1;
      var front := events[..n];
      StoredExactly(front, saveErr, e);
      if e in Stored(front, saveErr) {
        var i :| 0 <= i < |front| && front[i] == e && saveErr(i).None?;
        assert events[i] == e;
      }
      if exists i :: 0 <= i < |events| && events[i] == e && saveErr(i).None? {
        var i :| 0 <= i < |events| && events[i] == e && saveErr(i).None?;
        if i < n {
          assert front[i] == e;
        }
      }
    }
  }

  class EventService {
    const repository: EventTable

    constructor (repository: EventTable)
      ensures this.repository == repository
    {
      this.repository := repository;
    }

    /**
     * StartWatching: a failed WatchEvents is returned as is and nothing is forwarded; otherwise
     * every event the watch sends is passed to SaveEvent once, in order, a failed save is
     * only logged, and the call reports no error.
     */
    method StartWatching(namespace: string, watch: (string, nat) -> WatchReply, trace: seq<Input>,
                         saveErr: nat -> Option<string>)
      returns (err: Option<string>, saveCalls: seq<Event>)
      modifies repository
      ensures watch(namespace, 0).err.Some? ==>
                err == watch(namespace, 0).err && saveCalls == [] && repository.rows == old(repository.rows)
      ensures watch(namespace, 0).err.None? ==>
                && err.None?
                && saveCalls == ExpectedRun(namespace, watch, trace).emitted
                && repository.rows == old(repository.rows) + Stored(saveCalls, saveErr)
    {
      var watched := WatchEvents(namespace, watch, trace);
      if watched.Failure? {
        return Some(watched.error), [];
      }
      var events := watched.value.emitted;
      saveCalls := [];
      var i := 0;
      while i < |events|
        invariant 0 <= i <= |events|
        invariant saveCalls == events[..i]
        invariant repository.rows == old(repository.rows) + Stored(events[..i], saveErr)
      {
        var saveError := repository.SaveEvent(events[i], saveErr(i));
        // a failed save is only logged
        assert events[..i + 1][..i] == events[..i];
        saveCalls := saveCalls + [events[i]];
        i := i + 1;
      }
      assert events[..i] == events;
      return None, saveCalls;
    }

    /** GetEvents: exactly the repository's answer for the same namespace and limit. */
    method GetEvents(namespace: string, limit: int, dbErr: Option<string>) returns (r: Result<seq<Event>, StoreError>)
      ensures r == Select(repository.rows, namespace, limit, dbErr)
    {
      r := repository.GetEvents(namespace, limit, dbErr);
    }
  }
}
