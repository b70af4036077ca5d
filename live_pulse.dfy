/**
 * `src/components/LivePulse.tsx`: the activity ticker. It turns the newest
 * logged events of the last half hour into short sentences, falls back to a
 * fixed list when fewer than two remain, and cycles through the list.
 */
module LivePulse {
  import opened Wrappers
  import opened Strings
  import opened Analytics

  const STATIC_FALLBACK: seq<string> := [
    "Someone is checking Malad West options",
    "A visitor is reading the neighbourhood guide",
    "Someone just opened the affordability calculator",
    "A visitor is filling the shortlist form",
    "Someone is comparing Kandivali vs Borivali"
  ]

  /** `30 * 60 * 1000`: the age, in milliseconds, below which an event counts as recent. */
  const RECENT_MS := 1800000
  const MAX_SHOWN := 5
  const MIN_REAL := 2

  /** The sentence for an event name, or nothing for a name the ticker does not know. */
  function Label(event: string): Option<string> {
    if event == "view_form_step" then Some("Someone opened the shortlist form")
    else if event == "completed_step" then Some("A visitor completed a form step")
    else if event == "whatsapp_click" then Some("Someone clicked WhatsApp")
    else if event == "hero_primary_click" then Some("A visitor clicked 'Get shortlist'")
    else if event == "hero_miniform_continue" then Some("Someone pre-filled their preferences")
    else if event == "submit_success" then Some("A lead was just submitted ✓")
    else None
  }

  /** An event logged less than half an hour before `now`. */
  predicate IsRecent(e: Event, now: int) {
    now - e.ts < RECENT_MS
  }

  /** `events.filter(e => Date.now() - e.ts < 30 min)` */
  function Recent(events: seq<Event>, now: int): (r: seq<Event>)
    ensures |r| <= |events|
    ensures forall i :: 0 <= i < |r| ==> IsRecent(r[i], now) && r[i] in events
    ensures forall e :: e in events && IsRecent(e, now) ==> e in r
  {
    if events == [] then []
    else (if IsRecent(events[0], now) then [events[0]] else []) + Recent(events[1..], now)
  }

  /** `reverse()` */
  function Reverse<T>(s: seq<T>): (r: seq<T>)
    ensures |r| == |s|
    ensures forall i :: 0 <= i < |s| ==> r[i] == s[|s| - 1 - i]
  {
    if s == [] then [] else Reverse(s[1..]) + [s[0]]
  }

  /** `.map(label).filter(Boolean)`: the sentences of the known events, in order. */
  function Labels(events: seq<Event>): (r: seq<string>)
    ensures |r| <= |events|
    ensures forall i :: 0 <= i < |r| ==> exists j :: 0 <= j < |events| && Label(events[j].event) == Some(r[i])
  {
    if events == [] then []
    else
      var rest := Labels(events[1..]);
      assert forall i :: 0 <= i < |rest| ==> exists j :: 0 <= j < |events[1..]| && Label(events[1..][j].event) == Some(rest[i]);
      assert forall j :: 0 <= j < |events[1..]| ==> events[1..][j] == events[j + 1];
      match Label(events[0].event)
      case Some(s) => [s] + rest
      case None => rest
  }

  /** The recency filter keeps the order: filtering a concatenation filters each part. */
  lemma {:induction false} RecentAppend(a: seq<Event>, b: seq<Event>, now: int)
    ensures Recent(a + b, now) == Recent(a, now) + Recent(b, now)
  {
    if a == [] {
      assert a + b == b;
    } else {
      assert (a + b)[0] == a[0];
      assert (a + b)[1..] == a[1..] + b;
      RecentAppend(a[1..], b, now);
    }
  }

  /** One event passes the filter exactly when it is recent. */
  lemma RecentSingleton(e: Event, now: int)
    ensures Recent([e], now) == if IsRecent(e, now) then [e] else []
  {
    assert [e][1..] == [];
  }

  /** Labelling keeps the order: the sentences of a concatenation are those of each part. */
  lemma {:induction false} LabelsAppend(a: seq<Event>, b: seq<Event>)
    ensures Labels(a + b) == Labels(a) + Labels(b)
  {
    if a == [] {
      assert a + b == b;
    } else {
      assert (a + b)[0] == a[0];
      assert (a + b)[1..] == a[1..] + b;
      LabelsAppend(a[1..], b);
    }
  }

  /** One event gives its sentence, or nothing when the ticker does not know its name. */
  lemma LabelsSingleton(e: Event)
    ensures Labels([e]) == if Label(e.event).Some? then [Label(e.event).value] else []
  {
    assert [e][1..] == [];
  }

  /** The five newest recent events, newest first. */
  function Newest(events: seq<Event>, now: int): seq<Event> {
    Take(Reverse(Recent(events, now)), MAX_SHOWN)
  }

  /** `getRecentActivity()` on the storage slot, at the clock reading `now`. */
  function GetRecentActivity(slot: Slot, now: int): (r: seq<string>)
    ensures MIN_REAL <= |r| <= MAX_SHOWN
    ensures !slot.Parsed? ==> r == STATIC_FALLBACK
    ensures slot.Parsed? && |Labels(Newest(slot.events, now))| >= MIN_REAL ==> r == Labels(Newest(slot.events, now))
    ensures slot.Parsed? && |Labels(Newest(slot.events, now))| < MIN_REAL ==> r == STATIC_FALLBACK
    ensures r != STATIC_FALLBACK ==>
      slot.Parsed? && forall i :: 0 <= i < |r| ==>
        exists e :: e in Newest(slot.events, now) && Label(e.event) == Some(r[i])
  {
    match slot
    case Parsed(events) =>
      var newest := Newest(events, now);
      var recent := Labels(newest);
      if |recent| >= MIN_REAL then recent else STATIC_FALLBACK
    case _ => STATIC_FALLBACK
  }

  /** The newest events are recent, logged, at most five, newest first. */
  lemma NewestShape(events: seq<Event>, now: int)
    ensures var n := Newest(events, now);
            |n| <= MAX_SHOWN &&
            (forall e :: e in n ==> IsRecent(e, now) && e in events) &&
            (Recent(events, now) != [] ==> n[0] == Recent(events, now)[|Recent(events, now)| - 1])
  {
    var r := Reverse(Recent(events, now));
    forall e | e in Newest(events, now) ensures IsRecent(e, now) && e in events {
      var i :| 0 <= i < |Newest(events, now)| && Newest(events, now)[i] == e;
      assert e == r[i];
    }
  }

  /** A list of events none of which the ticker can name gives no sentences. */
  lemma {:induction false} LabelsOfUnknown(events: seq<Event>)
    requires forall i :: 0 <= i < |events| ==> Label(events[i].event).None?
    ensures Labels(events) == []
  {
    if events != [] {
      LabelsOfUnknown(events[1..]);
    }
  }

  /**
   * Unknown events still take slots among the five: when the five newest
   * recent events are all unknown, the fixed list shows, however many known
   * events were logged before them.
   */
  lemma UnknownEventsTakeSlots(events: seq<Event>, now: int)
    requires forall i :: 0 <= i < |Newest(events, now)| ==> Label(Newest(events, now)[i].event).None?
    ensures GetRecentActivity(Parsed(events), now) == STATIC_FALLBACK
  {
    LabelsOfUnknown(Newest(events, now));
  }

  /** Two recent events both pass the filter, in their order. */
  lemma RecentOfTwo(e1: Event, e2: Event, now: int)
    requires IsRecent(e1, now) && IsRecent(e2, now)
    ensures Recent([e1, e2], now) == [e1, e2]
  {
    RecentAppend([e1], [e2], now);
    RecentSingleton(e1, now);
    RecentSingleton(e2, now);
    assert [e1] + [e2] == [e1, e2];
  }

  /** Two events with known names give their two sentences, in their order. */
  lemma LabelsOfTwo(e1: Event, e2: Event)
    requires Label(e1.event).Some? && Label(e2.event).Some?
    ensures Labels([e1, e2]) == [Label(e1.event).value, Label(e2.event).value]
  {
    LabelsAppend([e1], [e2]);
    LabelsSingleton(e1);
    LabelsSingleton(e2);
    assert [e1] + [e2] == [e1, e2];
  }

  /**
   * Two recent events with known names, logged in that order, are shown
   * newest first.
   */
  lemma TwoKnownShownNewestFirst(e1: Event, e2: Event, now: int)
    requires IsRecent(e1, now) && IsRecent(e2, now)
    requires Label(e1.event).Some? && Label(e2.event).Some?
    ensures GetRecentActivity(Parsed([e1, e2]), now) == [Label(e2.event).value, Label(e1.event).value]
  {
    RecentOfTwo(e1, e2, now);
    assert Reverse([e1, e2]) == [e2, e1];
    LabelsOfTwo(e2, e1);
  }

  /** The ticker: the list it shows and the position it has reached. */
  class Ticker {
    var activities: seq<string>
    var idx: nat

    /** A list the ticker can always index. */
    predicate Valid()
      reads this
    {
      |activities| >= MIN_REAL
    }

    /** `useState(1)`, `useState(0)`, `useState(STATIC_FALLBACK)` */
    constructor ()
      ensures Valid() && activities == STATIC_FALLBACK && idx == 0
    {
      activities := STATIC_FALLBACK;
      idx := 0;
    }

    /** The sentence on screen: `activities[idx % activities.length]`. */
    function Shown(): string
      requires Valid()
      reads this
    {
      activities[idx % |activities|]
    }

    /** The ten-second refresh from the log; the position is kept. */
    method Refresh(slot: Slot, now: int)
      requires Valid()
      modifies this
      ensures Valid()
      ensures activities == GetRecentActivity(slot, now) && idx == old(idx)
    {
      activities := GetRecentActivity(slot, now);
    }

    /** The five-second step: `setIdx(i => (i + 1) % activities.length)`. */
    method Tick()
      requires Valid()
      modifies this
      ensures Valid() && activities == old(activities)
      ensures idx == (old(idx) + 1) % |activities| && idx < |activities|
      ensures Shown() == activities[(old(idx) + 1) % |activities|]
    {
      var n := |activities|;
      var j := (idx + 1) % n;
      assert 0 <= j < n;
      assert j % n == j;
      idx := j;
    }
  }
}
