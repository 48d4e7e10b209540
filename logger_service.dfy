// The application log (services/loggerService.ts): an append-only list of
// entries, cleared on demand, and a list of listeners each of which is called
// with the whole list after every change. Listeners are foreign callbacks; the
// model names them by an identifier and records every call made to them, in
// order, as a delivery of the log as it stood at that moment.

module LoggerService {

  import opened Types
  import opened Seqs

  /** A listener, named by an identifier; two subscriptions of the same callback share one. */
  type ListenerId = nat

  /** One call of a listener with the log list it was given. */
  datatype Delivery = Delivery(listener: ListenerId, logs: seq<LogEntry>)

  /**
   * createEntry: the timestamp the clock gave, the level, source and message
   * as given, and the metadata in serialised form when it is present.
   */
  function CreateEntry(level: LogLevel, source: string, message: string, meta: Option<string>, now: string): (e: LogEntry)
    ensures e.timestamp == now && e.level == level && e.source == source && e.message == message
    ensures e.meta == meta
  {
    LogEntry(now, level, source, message, meta)
  }

  /** The calls notifyListeners makes: every current listener, in subscription order, with the same list. */
  function Notifications(listeners: seq<ListenerId>, logs: seq<LogEntry>): (ds: seq<Delivery>)
    ensures |ds| == |listeners|
    ensures forall i :: 0 <= i < |ds| ==> ds[i].listener == listeners[i] && ds[i].logs == logs
  {
    seq(|listeners|, i requires 0 <= i < |listeners| => Delivery(listeners[i], logs))
  }

  /** Subscribing a listener that was not subscribed and then calling the returned function restores the list. */
  lemma UnsubscribeUndoesSubscribe(listeners: seq<ListenerId>, l: ListenerId)
    requires l !in listeners
    ensures RemoveAll(listeners + [l], l) == listeners
  {
    RemoveAllAppend(listeners, [l], l);
    RemoveAllAbsent(listeners, l);
    assert RemoveAll([l], l) == [];
  }

  class LoggerService {
    var logs: seq<LogEntry>
    var listeners: seq<ListenerId>
    /** Every listener call made so far, oldest first. */
    var deliveries: seq<Delivery>

    constructor()
      ensures logs == [] && listeners == [] && deliveries == []
    {
      logs := [];
      listeners := [];
      deliveries := [];
    }

    /** notifyListeners: calls every listener, in order, with the current list. */
    method NotifyListeners()
      modifies this
      ensures logs == old(logs) && listeners == old(listeners)
      ensures deliveries == old(deliveries) + Notifications(listeners, logs)
    {
      var i := 0;
      while i < |listeners|
        invariant 0 <= i <= |listeners|
        invariant logs == old(logs) && listeners == old(listeners)
        invariant deliveries == old(deliveries) + Notifications(listeners[..i], logs)
      {
        deliveries := deliveries + [Delivery(listeners[i], logs)];
        assert Notifications(listeners[..i + 1], logs) == Notifications(listeners[..i], logs) + [Delivery(listeners[i], logs)];
        i := i + 1;
      }
      assert listeners[..i] == listeners;
    }

    /** log: appends exactly one entry at the end, then notifies every listener. */
    method Log(level: LogLevel, source: string, message: string, meta: Option<string>, now: string)
      modifies this
      ensures logs == old(logs) + [CreateEntry(level, source, message, meta, now)]
      ensures listeners == old(listeners)
      ensures deliveries == old(deliveries) + Notifications(listeners, logs)
    {
      logs := logs + [CreateEntry(level, source, message, meta, now)];
      NotifyListeners();
    }

    method Info(source: string, message: string, meta: Option<string>, now: string)
      modifies this
      ensures logs == old(logs) + [LogEntry(now, INFO, source, message, meta)]
      ensures listeners == old(listeners)
      ensures deliveries == old(deliveries) + Notifications(listeners, logs)
    {
      Log(INFO, source, message, meta, now);
    }

    method Warn(source: string, message: string, meta: Option<string>, now: string)
      modifies this
      ensures logs == old(logs) + [LogEntry(now, WARN, source, message, meta)]
      ensures listeners == old(listeners)
      ensures deliveries == old(deliveries) + Notifications(listeners, logs)
    {
      Log(WARN, source, message, meta, now);
    }

    method Error(source: string, message: string, meta: Option<string>, now: string)
      modifies this
      ensures logs == old(logs) + [LogEntry(now, ERROR, source, message, meta)]
      ensures listeners == old(listeners)
      ensures deliveries == old(deliveries) + Notifications(listeners, logs)
    {
      Log(ERROR, source, message, meta, now);
    }

    /** getLogs: the current list; reading it changes nothing. */
    function GetLogs(): (r: seq<LogEntry>)
      reads this
      ensures r == logs
    {
      logs
    }

    /** clear: empties the list, then notifies every listener with the empty list. */
    method Clear()
      modifies this
      ensures logs == [] && listeners == old(listeners)
      ensures deliveries == old(deliveries) + Notifications(listeners, [])
    {
      logs := [];
      NotifyListeners();
    }

    /** subscribe: appends the listener; the log and past deliveries are untouched. */
    method Subscribe(l: ListenerId)
      modifies this
      ensures listeners == old(listeners) + [l]
      ensures logs == old(logs) && deliveries == old(deliveries)
    {
      listeners := listeners + [l];
    }

    /** The function subscribe returns: removes every occurrence of the listener, keeping the others in order. */
    method Unsubscribe(l: ListenerId)
      modifies this
      ensures listeners == RemoveAll(old(listeners), l)
      ensures l !in listeners
      ensures logs == old(logs) && deliveries == old(deliveries)
    {
      listeners := RemoveAll(listeners, l);
    }
  }
}
