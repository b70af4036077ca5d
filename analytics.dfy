/**
 * `src/lib/analytics.ts`: the local event log. Events live in one storage
 * slot as a JSON array; every read tolerates a missing or unreadable slot,
 * and every write keeps only the newest `MAX_EVENTS` entries.
 */
module Analytics {
  import opened Wrappers

  const MAX_EVENTS := 200
  const STORAGE_KEY := "mr_events"

  /** A payload value: the call sites pass numbers and strings. */
  datatype Value = Num(n: int) | Text(s: string)

  /** `AnalyticsEvent`: the name, the clock reading when it was logged, the optional payload. */
  datatype Event = Event(event: string, ts: int, payload: Option<seq<(string, Value)>>)

  /**
   * What `localStorage.getItem(STORAGE_KEY)` holds: nothing (or the empty
   * string), text `JSON.parse` rejects, or a parsed array of events.
   */
  datatype Slot = Absent | Unparsable | Parsed(events: seq<Event>)

  /** `safeGetEvents`: a missing or unparsable slot reads as no events. */
  function SafeGetEvents(slot: Slot): (r: seq<Event>)
    ensures slot.Parsed? ==> r == slot.events
    ensures !slot.Parsed? ==> r == []
  {
    match slot
    case Absent => []
    case Unparsable => []
    case Parsed(events) => events
  }

  /** `events.slice(-n)` for `n > 0`: the last `n` elements, or all of them when there are fewer. */
  function LastN<T>(s: seq<T>, n: nat): (r: seq<T>)
    requires n > 0
  {
    if |s| <= n then s else s[|s| - n..]
  }

  /** `LastN` keeps a suffix of length `min(|s|, n)`, in order. */
  lemma LastNShape<T>(s: seq<T>, n: nat)
    requires n > 0
    ensures |LastN(s, n)| == (if |s| <= n then |s| else n)
    ensures LastN(s, n) == s[|s| - |LastN(s, n)|..]
    ensures s != [] ==> LastN(s, n)[|LastN(s, n)| - 1] == s[|s| - 1]
  {
  }

  /** Truncating to the last `n` and then appending one keeps the same last `n` as appending first. */
  lemma {:induction false} LastNAppend<T>(s: seq<T>, x: T, n: nat)
    requires n > 0
    ensures LastN(LastN(s, n) + [x], n) == LastN(s + [x], n)
  {
    var t := LastN(s, n);
    assert t == s[|s| - |t|..];
    if |s| > n {
      assert |t| == n;
      assert (t + [x])[1..] == s[|s| - n + 1..] + [x];
      assert (s + [x])[|s| + 1 - n..] == s[|s| - n + 1..] + [x];
    }
  }

  /** The browser storage slot the log lives in. */
  class EventLog {
    var slot: Slot

    constructor (initial: Slot)
      ensures slot == initial
    {
      slot := initial;
    }

    /** The events a read of the slot returns right now. */
    function Events(): seq<Event>
      reads this
    {
      SafeGetEvents(slot)
    }

    /** `safeSetEvents(events)`: store the newest `MAX_EVENTS` of them. */
    method SafeSetEvents(events: seq<Event>)
      modifies this
      ensures slot == Parsed(LastN(events, MAX_EVENTS))
      ensures |Events()| <= MAX_EVENTS
    {
      slot := Parsed(LastN(events, MAX_EVENTS));
    }

    /**
     * `logEvent(event, payload)` at the clock reading `now`: read, append,
     * write back the newest `MAX_EVENTS`.
     */
    method LogEvent(event: string, payload: Option<seq<(string, Value)>>, now: int)
      modifies this
      ensures Events() == LastN(old(Events()) + [Event(event, now, payload)], MAX_EVENTS)
      ensures |Events()| == (if |old(Events())| < MAX_EVENTS then |old(Events())| + 1 else MAX_EVENTS)
      ensures Events()[|Events()| - 1] == Event(event, now, payload)
      ensures Events()[..|Events()| - 1] == old(Events())[|old(Events())| + 1 - |Events()|..]
    {
      var events := SafeGetEvents(slot);
      events := events + [Event(event, now, payload)];
      SafeSetEvents(events);
      LastNShape(events, MAX_EVENTS);
      assert Events()[..|Events()| - 1] == events[|events| - |Events()|..|events| - 1];
    }

    /** `getEvents()` */
    method GetEvents() returns (r: seq<Event>)
      ensures r == Events()
      ensures slot.Parsed? ==> r == slot.events
      ensures !slot.Parsed? ==> r == []
    {
      r := SafeGetEvents(slot);
    }

    /** `clearEvents()`: remove the slot; the next read is empty. */
    method ClearEvents()
      modifies this
      ensures slot == Absent
      ensures Events() == []
    {
      slot := Absent;
    }
  }

  /** The stored list after logging each of `es` in turn, starting from the list `s`. */
  function AfterLogs(s: seq<Event>, es: seq<Event>): seq<Event>
    decreases |es|
  {
    if es == [] then s else AfterLogs(LastN(s + [es[0]], MAX_EVENTS), es[1..])
  }

  /**
   * Truncating on every write loses nothing a single truncation would keep:
   * after at least one log the store holds the newest `MAX_EVENTS` of the
   * whole history.
   */
  lemma {:induction false} AfterLogsKeepsNewest(s: seq<Event>, es: seq<Event>)
    requires es != []
    ensures AfterLogs(s, es) == LastN(s + es, MAX_EVENTS)
    decreases |es|
  {
    var t := LastN(s + [es[0]], MAX_EVENTS);
    if |es| == 1 {
      assert s + es == s + [es[0]];
    } else {
      AfterLogsKeepsNewest(t, es[1..]);
      LastNConcat(s + [es[0]], es[1..], MAX_EVENTS);
      assert s + [es[0]] + es[1..] == s + es;
    }
  }

  /** Truncating before appending a non-empty tail keeps the same newest `n`. */
  lemma {:induction false} LastNConcat<T>(s: seq<T>, u: seq<T>, n: nat)
    requires n > 0 && u != []
    ensures LastN(LastN(s, n) + u, n) == LastN(s + u, n)
    decreases |u|
  {
    if |u| == 1 {
      assert u == [u[0]];
      LastNAppend(s, u[0], n);
    } else {
      var init := u[..|u| - 1];
      var x := u[|u| - 1];
      assert u == init + [x];
      LastNConcat(s, init, n);
      LastNAppend(LastN(s, n) + init, x, n);
      LastNAppend(s + init, x, n);
      assert LastN(s, n) + u == LastN(s, n) + init + [x];
      assert s + u == s + init + [x];
    }
  }
}
