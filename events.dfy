/** Per-day special-event resolution. The generator scans the calendar in
    declaration order and, inside each event, its (month, day) pairs; a match
    records the event's name and leaves only the inner scan, so the outer scan
    goes on and a later matching event replaces an earlier one. */
module Events {
  import opened Tables

  /** The specification: the name of the LAST event in declaration order whose
      list holds (month, day), or NoEvent when none does. */
  function EventOn(cal: seq<Event>, month: int, day: int): string
  {
    if cal == [] then NoEvent
    else if (month, day) in cal[|cal| - 1].dates then cal[|cal| - 1].name
    else EventOn(cal[..|cal| - 1], month, day)
  }

  /** A reference reading: the FIRST event in declaration order that matches. */
  function FirstEventOn(cal: seq<Event>, month: int, day: int): string
  {
    if cal == [] then NoEvent
    else if (month, day) in cal[0].dates then cal[0].name
    else FirstEventOn(cal[1..], month, day)
  }

  predicate NoEventNamedNone(cal: seq<Event>) {
    forall k :: 0 <= k < |cal| ==> cal[k].name != NoEvent
  }

  /** No (month, day) pair is listed under two different events. */
  predicate DisjointDates(cal: seq<Event>) {
    forall i, j, p :: 0 <= i < j < |cal| && p in cal[i].dates ==> p !in cal[j].dates
  }

  /** The source's nested scan with its inner `break`. */
  method LookupEvent(cal: seq<Event>, month: int, day: int) returns (evento: string)
    ensures evento == EventOn(cal, month, day)
  {
    evento := NoEvent;
    var i := 0;
    while i < |cal|
      invariant 0 <= i <= |cal|
      invariant evento == EventOn(cal[..i], month, day)
    {
      var fechas := cal[i].dates;
      var j := 0;
      while j < |fechas|
        invariant 0 <= j <= |fechas|
        invariant evento == EventOn(cal[..i], month, day)
        invariant (month, day) !in fechas[..j]
      {
        if month == fechas[j].0 && day == fechas[j].1 {
          evento := cal[i].name;
          break;
        }
        j := j + 1;
      }
      assert cal[..i + 1][..i] == cal[..i];
      i := i + 1;
    }
    assert cal[..|cal|] == cal;
  }

  /** The day is tagged NoEvent exactly when no event lists it (given that no
      event is itself called NoEvent). */
  lemma {:induction false} NoEventIff(cal: seq<Event>, month: int, day: int)
    requires NoEventNamedNone(cal)
    ensures EventOn(cal, month, day) == NoEvent
        <==> forall k :: 0 <= k < |cal| ==> (month, day) !in cal[k].dates
  {
    if cal != [] {
      var init := cal[..|cal| - 1];
      NoEventIff(init, month, day);
      assert forall k :: 0 <= k < |init| ==> init[k] == cal[k];
    }
  }

  /** The recorded event is the last one in declaration order that lists the day. */
  lemma {:induction false} LastMatchWins(cal: seq<Event>, month: int, day: int, k: int)
    requires 0 <= k < |cal| && (month, day) in cal[k].dates
    requires forall j :: k < j < |cal| ==> (month, day) !in cal[j].dates
    ensures EventOn(cal, month, day) == cal[k].name
  {
    if k < |cal| - 1 {
      var init := cal[..|cal| - 1];
      assert init[k] == cal[k];
      LastMatchWins(init, month, day, k);
    }
  }

  /** Whatever the scan records other than NoEvent is the name of an event that
      lists the day. */
  lemma {:induction false} RecordedEventMatches(cal: seq<Event>, month: int, day: int)
    requires EventOn(cal, month, day) != NoEvent
    ensures exists k :: 0 <= k < |cal| && cal[k].name == EventOn(cal, month, day)
                        && (month, day) in cal[k].dates
  {
    var last := |cal| - 1;
    if (month, day) !in cal[last].dates {
      var init := cal[..last];
      RecordedEventMatches(init, month, day);
      var k :| 0 <= k < |init| && init[k].name == EventOn(init, month, day)
                && (month, day) in init[k].dates;
      assert cal[k] == init[k];
    }
  }

  /** The first event that lists the day, as the reference reading picks it. */
  lemma {:induction false} FirstMatchWins(cal: seq<Event>, month: int, day: int, k: int)
    requires 0 <= k < |cal| && (month, day) in cal[k].dates
    requires forall j :: 0 <= j < k ==> (month, day) !in cal[j].dates
    ensures FirstEventOn(cal, month, day) == cal[k].name
  {
    if k > 0 {
      FirstMatchWins(cal[1..], month, day, k - 1);
    }
  }

  /** When no day is listed twice, first-match and last-match agree. */
  lemma {:induction false} FirstAndLastAgree(cal: seq<Event>, month: int, day: int)
    requires DisjointDates(cal)
    ensures FirstEventOn(cal, month, day) == EventOn(cal, month, day)
  {
    if exists k :: 0 <= k < |cal| && (month, day) in cal[k].dates {
      var k :| 0 <= k < |cal| && (month, day) in cal[k].dates;
      FirstMatchWins(cal, month, day, k);
      LastMatchWins(cal, month, day, k);
    } else {
      NoMatchGivesNone(cal, month, day);
    }
  }

  lemma {:induction false} NoMatchGivesNone(cal: seq<Event>, month: int, day: int)
    requires forall k :: 0 <= k < |cal| ==> (month, day) !in cal[k].dates
    ensures FirstEventOn(cal, month, day) == NoEvent && EventOn(cal, month, day) == NoEvent
  {
    if cal != [] {
      NoMatchGivesNone(cal[1..], month, day);
      NoMatchGivesNone(cal[..|cal| - 1], month, day);
    }
  }

  /** The shipped calendar lists every day at most once and has no event called
      NoEvent, so its lookup is unambiguous and the scan order does not matter. */
  lemma CalendarIsUnambiguous()
    ensures DisjointDates(EventCalendar())
    ensures NoEventNamedNone(EventCalendar())
  {
    var cal := EventCalendar();
    forall i, j, p | 0 <= i < j < |cal| && p in cal[i].dates
      ensures p !in cal[j].dates
    {
    }
  }

  /** On the shipped calendar the lookup tags a day with the unique event that
      lists it, under either reading. */
  lemma CalendarLookup(month: int, day: int, k: int)
    requires 0 <= k < |EventCalendar()| && (month, day) in EventCalendar()[k].dates
    ensures EventOn(EventCalendar(), month, day) == EventCalendar()[k].name
    ensures FirstEventOn(EventCalendar(), month, day) == EventCalendar()[k].name
  {
    var cal := EventCalendar();
    CalendarIsUnambiguous();
    FirstMatchWins(cal, month, day, k);
    FirstAndLastAgree(cal, month, day);
  }
}
