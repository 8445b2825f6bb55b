/** The reminder scanner and the per-cycle driver: which stored events are due
    a reminder at a given day, which kind of reminder each gets, and the cycle
    that hands each of them to the notification service. */
module Scheduler {
  import opened Wrappers
  import opened Calendar
  import opened Models
  import opened Notifications

  datatype ReminderKind = DayBefore | SameDay

  /** The reminder type text the dispatcher receives. */
  function KindName(k: ReminderKind): (s: string)
    ensures s == DAY_BEFORE || s == SAME_DAY
    ensures s == DAY_BEFORE <==> k == DayBefore
  {
    match k
    case DayBefore => DAY_BEFORE
    case SameDay => SAME_DAY
  }

  /** The three-field comparison of Year, Month and Day the scanner makes. */
  predicate SameCalendarDay(a: Date, b: Date) {
    a.year == b.year && a.month == b.month && a.day == b.day
  }

  predicate DueDayBefore(e: Event, now: Date) {
    e.reminderDayBefore && SameCalendarDay(e.date, NextDay(now))
  }

  predicate DueSameDay(e: Event, now: Date) {
    e.reminderDay && SameCalendarDay(e.date, now)
  }

  /** `shouldSendNotification`: a day-before reminder for an event dated
      tomorrow, or a same-day reminder for an event dated today. An event
      dated on any other day is never selected, whatever its flags. */
  predicate ShouldSendNotification(e: Event, now: Date)
    ensures ShouldSendNotification(e, now) <==>
      (e.reminderDayBefore && e.date == NextDay(now)) || (e.reminderDay && e.date == now)
    ensures ShouldSendNotification(e, now) ==> e.date == now || e.date == NextDay(now)
  {
    DueDayBefore(e, now) || DueSameDay(e, now)
  }

  /** The reminder kind chosen in `processEventNotification`: day-before takes
      precedence, then same-day, else nothing is sent. The two cases never
      both apply, since tomorrow is not today. */
  function ChooseKind(e: Event, now: Date): (k: Option<ReminderKind>)
    ensures k == Some(DayBefore) <==> e.reminderDayBefore && e.date == NextDay(now)
    ensures k == Some(SameDay) <==> e.reminderDay && e.date == now
    ensures k.Some? <==> ShouldSendNotification(e, now)
  {
    NextDayDiffers(now);
    if DueDayBefore(e, now) then Some(DayBefore)
    else if DueSameDay(e, now) then Some(SameDay)
    else None
  }

  /** The filter of `getEventsForNotification`, in fetch order. */
  function DueEvents(all: seq<Event>, now: Date): seq<Event> {
    if all == [] then []
    else
      var last := all[|all| - 1];
      DueEvents(all[..|all| - 1], now) + (if ShouldSendNotification(last, now) then [last] else [])
  }

  /** The event store's range query over `[start, end)`. */
  type EventQuery = (Instant, Instant) -> Result<seq<Event>, string>

  datatype ScanError = DayBeforeQueryFailed(cause: string) | SameDayQueryFailed(cause: string)

  /** `getEventsForNotification` at day `now`: query tomorrow's window, then
      today's; fail if either query fails; otherwise keep the due events of
      the two results joined, tomorrow's first. */
  function Scan(query: EventQuery, now: Date): Result<seq<Event>, ScanError> {
    var dayBefore := DayWindow(NextDay(now));
    var sameDay := DayWindow(now);
    match query(dayBefore.start, dayBefore.end)
    case Err(cause) => Err(DayBeforeQueryFailed(cause))
    case Ok(eventsDayBefore) =>
      match query(sameDay.start, sameDay.end)
      case Err(cause) => Err(SameDayQueryFailed(cause))
      case Ok(eventsSameDay) => Ok(DueEvents(eventsDayBefore + eventsSameDay, now))
  }

  /** The dispatch a cycle makes for one scanned event: its reminder type, or
      nothing when no kind applies. */
  function Dispatch(e: Event, now: Date): seq<(Event, string)> {
    match ChooseKind(e, now)
    case None => []
    case Some(k) => [(e, KindName(k))]
  }

  function Dispatches(events: seq<Event>, now: Date): seq<(Event, string)> {
    if events == [] then []
    else Dispatches(events[..|events| - 1], now) + Dispatch(events[|events| - 1], now)
  }

  /** The deliveries of one `SendNotification` call. */
  function CallSends(cfg: Config, json: Decoders): ((Event, string)) -> seq<Delivery> {
    (call: (Event, string)) => NotificationSends(cfg, json, call.0, call.1)
  }

  /** All deliveries of a sequence of `SendNotification` calls, call after call. */
  function DispatchSends(cfg: Config, json: Decoders, calls: seq<(Event, string)>): seq<Delivery> {
    Flatten(CallSends(cfg, json), calls)
  }

  // ---------------------------------------------------------------------
  // Properties of the scan

  /** The due events are exactly the fetched events that should be notified,
      kept in fetch order, each as many times as it was fetched. */
  lemma {:induction false} DueEventsSpec(all: seq<Event>, now: Date)
    ensures forall e :: e in DueEvents(all, now) <==> e in all && ShouldSendNotification(e, now)
    ensures IsSubsequence(DueEvents(all, now), all)
    ensures forall x :: multiset(DueEvents(all, now))[x] == if ShouldSendNotification(x, now) then multiset(all)[x] else 0
  {
    DueEventsOrder(all, now);
    forall x {
      DueEventsCount(all, now, x);
    }
  }

  lemma {:induction false} DueEventsOrder(all: seq<Event>, now: Date)
    ensures forall e :: e in DueEvents(all, now) <==> e in all && ShouldSendNotification(e, now)
    ensures IsSubsequence(DueEvents(all, now), all)
  {
    if all != [] {
      var init, last := all[..|all| - 1], all[|all| - 1];
      DueEventsOrder(init, now);
      assert all == init + [last];
      var due := DueEvents(all, now);
      if ShouldSendNotification(last, now) {
        assert due[..|due| - 1] == DueEvents(init, now);
      } else {
        assert due == DueEvents(init, now);
      }
    }
  }

  lemma {:induction false} DueEventsCount(all: seq<Event>, now: Date, x: Event)
    ensures multiset(DueEvents(all, now))[x] == if ShouldSendNotification(x, now) then multiset(all)[x] else 0
  {
    if all != [] {
      var init, last := all[..|all| - 1], all[|all| - 1];
      DueEventsCount(init, now, x);
      Snoc(all);
      var kept, tail := DueEvents(init, now), if ShouldSendNotification(last, now) then [last] else [];
      assert DueEvents(all, now) == kept + tail;
      assert multiset(DueEvents(all, now)) == multiset(kept) + multiset(tail);
    }
  }

  lemma {:induction false} DueEventsAppend(a: seq<Event>, b: seq<Event>, now: Date)
    ensures DueEvents(a + b, now) == DueEvents(a, now) + DueEvents(b, now)
    decreases |b|
  {
    if b != [] {
      var init, last := b[..|b| - 1], b[|b| - 1];
      assert (a + b)[..|a + b| - 1] == a + init;
      DueEventsAppend(a, init, now);
    } else {
      assert a + b == a;
    }
  }

  /** If either query fails the scan reports it and yields no events; when
      both succeed the result is an order-preserving subsequence of the two
      fetches joined, and every event in it gets a reminder kind. */
  lemma ScanSpec(query: EventQuery, now: Date)
    ensures var w1, w2 := DayWindow(NextDay(now)), DayWindow(now);
      match Scan(query, now)
      case Err(DayBeforeQueryFailed(_)) => query(w1.start, w1.end).Err?
      case Err(SameDayQueryFailed(_)) => query(w1.start, w1.end).Ok? && query(w2.start, w2.end).Err?
      case Ok(events) =>
        query(w1.start, w1.end).Ok? && query(w2.start, w2.end).Ok?
        && IsSubsequence(events, query(w1.start, w1.end).value + query(w2.start, w2.end).value)
        && forall e :: e in events ==> ChooseKind(e, now).Some?
  {
    var w1, w2 := DayWindow(NextDay(now)), DayWindow(now);
    if query(w1.start, w1.end).Ok? && query(w2.start, w2.end).Ok? {
      DueEventsSpec(query(w1.start, w1.end).value + query(w2.start, w2.end).value, now);
    }
  }

  /** A cycle makes exactly one dispatch per scanned event, in scan order,
      with the event's own reminder kind. */
  lemma {:induction false} DispatchesOfDueEvents(events: seq<Event>, now: Date)
    requires forall e :: e in events ==> ShouldSendNotification(e, now)
    ensures |Dispatches(events, now)| == |events|
    ensures forall i :: 0 <= i < |events| ==>
      Dispatches(events, now)[i] == (events[i], KindName(ChooseKind(events[i], now).value))
  {
    if events != [] {
      var init, last := events[..|events| - 1], events[|events| - 1];
      FrontIn(events);
      DispatchesOfDueEvents(init, now);
      DispatchOfDue(last, now);
      assert Dispatches(events, now) == Dispatches(init, now) + Dispatch(last, now);
    }
  }

  lemma DispatchOfDue(e: Event, now: Date)
    requires ShouldSendNotification(e, now)
    ensures Dispatch(e, now) == [(e, KindName(ChooseKind(e, now).value))]
  {
  }

  // ---------------------------------------------------------------------
  // A store that answers range queries faithfully

  /** The stored events whose day falls in `[start, end)`, in storage order. */
  function EventsIn(rows: seq<Event>, start: Instant, end: Instant): seq<Event> {
    if rows == [] then []
    else
      var last := rows[|rows| - 1];
      EventsIn(rows[..|rows| - 1], start, end) + (if Contains(Window(start, end), Midnight(last.date)) then [last] else [])
  }

  function FaithfulStore(rows: seq<Event>): EventQuery {
    (start: Instant, end: Instant) => Ok(EventsIn(rows, start, end))
  }

  function DueTomorrow(rows: seq<Event>, now: Date): seq<Event> {
    if rows == [] then []
    else
      var last := rows[|rows| - 1];
      DueTomorrow(rows[..|rows| - 1], now) + (if last.reminderDayBefore && last.date == NextDay(now) then [last] else [])
  }

  function DueToday(rows: seq<Event>, now: Date): seq<Event> {
    if rows == [] then []
    else
      var last := rows[|rows| - 1];
      DueToday(rows[..|rows| - 1], now) + (if last.reminderDay && last.date == now then [last] else [])
  }

  lemma {:induction false} DueInTomorrowWindow(rows: seq<Event>, now: Date)
    ensures var w := DayWindow(NextDay(now));
      DueEvents(EventsIn(rows, w.start, w.end), now) == DueTomorrow(rows, now)
  {
    var w := DayWindow(NextDay(now));
    if rows != [] {
      var init, last := rows[..|rows| - 1], rows[|rows| - 1];
      DueInTomorrowWindow(init, now);
      NextDayDiffers(now);
      DueEventsAppend(EventsIn(init, w.start, w.end),
                      if Contains(w, Midnight(last.date)) then [last] else [], now);
      assert Contains(w, Midnight(last.date)) <==> last.date == NextDay(now);
    }
  }

  lemma {:induction false} DueInTodayWindow(rows: seq<Event>, now: Date)
    ensures var w := DayWindow(now);
      DueEvents(EventsIn(rows, w.start, w.end), now) == DueToday(rows, now)
  {
    var w := DayWindow(now);
    if rows != [] {
      var init, last := rows[..|rows| - 1], rows[|rows| - 1];
      DueInTodayWindow(init, now);
      NextDayDiffers(now);
      DueEventsAppend(EventsIn(init, w.start, w.end),
                      if Contains(w, Midnight(last.date)) then [last] else [], now);
      assert Contains(w, Midnight(last.date)) <==> last.date == now;
    }
  }

  /** Against a faithful store the scan returns the events due a day-before
      reminder, then those due a same-day reminder, each in storage order. */
  lemma FaithfulScan(rows: seq<Event>, now: Date)
    ensures Scan(FaithfulStore(rows), now) == Ok(DueTomorrow(rows, now) + DueToday(rows, now))
  {
    var w1, w2 := DayWindow(NextDay(now)), DayWindow(now);
    var q := FaithfulStore(rows);
    assert q(w1.start, w1.end) == Ok(EventsIn(rows, w1.start, w1.end));
    assert q(w2.start, w2.end) == Ok(EventsIn(rows, w2.start, w2.end));
    DueEventsAppend(EventsIn(rows, w1.start, w1.end), EventsIn(rows, w2.start, w2.end), now);
    DueInTomorrowWindow(rows, now);
    DueInTodayWindow(rows, now);
  }

  lemma {:induction false} DueTomorrowCount(rows: seq<Event>, now: Date, x: Event)
    ensures multiset(DueTomorrow(rows, now))[x] == if x.reminderDayBefore && x.date == NextDay(now) then multiset(rows)[x] else 0
  {
    if rows != [] {
      var init, last := rows[..|rows| - 1], rows[|rows| - 1];
      DueTomorrowCount(init, now, x);
      Snoc(rows);
      var kept, tail := DueTomorrow(init, now), if last.reminderDayBefore && last.date == NextDay(now) then [last] else [];
      assert DueTomorrow(rows, now) == kept + tail;
      assert multiset(DueTomorrow(rows, now)) == multiset(kept) + multiset(tail);
    }
  }

  lemma {:induction false} DueTodayCount(rows: seq<Event>, now: Date, x: Event)
    ensures multiset(DueToday(rows, now))[x] == if x.reminderDay && x.date == now then multiset(rows)[x] else 0
  {
    if rows != [] {
      var init, last := rows[..|rows| - 1], rows[|rows| - 1];
      DueTodayCount(init, now, x);
      Snoc(rows);
      var kept, tail := DueToday(init, now), if last.reminderDay && last.date == now then [last] else [];
      assert DueToday(rows, now) == kept + tail;
      assert multiset(DueToday(rows, now)) == multiset(kept) + multiset(tail);
    }
  }

  /** Against a faithful store an event stored once is scanned exactly once
      if it is due a reminder, and not at all otherwise. */
  lemma FaithfulScanCounts(rows: seq<Event>, now: Date, x: Event)
    requires multiset(rows)[x] == 1
    ensures Scan(FaithfulStore(rows), now).Ok?
    ensures multiset(Scan(FaithfulStore(rows), now).value)[x] == if ShouldSendNotification(x, now) then 1 else 0
  {
    FaithfulScan(rows, now);
    DueTomorrowCount(rows, now, x);
    DueTodayCount(rows, now, x);
    NextDayDiffers(now);
  }

  // ---------------------------------------------------------------------
  // The scheduler

  class NotificationScheduler {
    const eventRepo: EventQuery
    const notificationService: NotificationService

    constructor(eventRepo: EventQuery, notificationService: NotificationService)
      ensures this.eventRepo == eventRepo && this.notificationService == notificationService
    {
      this.eventRepo := eventRepo;
      this.notificationService := notificationService;
    }

    /** `getEventsForNotification` at day `now`. */
    method GetEventsForNotification(now: Date) returns (events: seq<Event>, err: Option<ScanError>)
      ensures err.None? ==> Scan(eventRepo, now) == Ok(events)
      ensures err.Some? ==> Scan(eventRepo, now) == Err(err.value) && events == []
    {
      var tomorrow := NextDay(now);
      var dayBeforeStart := Midnight(tomorrow);
      var dayBeforeEnd := Add24Hours(dayBeforeStart);
      var sameDayStart := Midnight(now);
      var sameDayEnd := Add24Hours(sameDayStart);

      var eventsDayBefore := eventRepo(dayBeforeStart, dayBeforeEnd);
      if eventsDayBefore.Err? {
        return [], Some(DayBeforeQueryFailed(eventsDayBefore.error));
      }
      var eventsSameDay := eventRepo(sameDayStart, sameDayEnd);
      if eventsSameDay.Err? {
        return [], Some(SameDayQueryFailed(eventsSameDay.error));
      }

      var allEvents := eventsDayBefore.value + eventsSameDay.value;
      events := [];
      var i := 0;
      while i < |allEvents|
        invariant 0 <= i <= |allEvents|
        invariant events == DueEvents(allEvents[..i], now)
      {
        assert allEvents[..i + 1][..i] == allEvents[..i];
        if ShouldSendNotification(allEvents[i], now) {
          events := events + [allEvents[i]];
        }
        i := i + 1;
      }
      assert allEvents[..|allEvents|] == allEvents;
      err := None;
    }

    /** `processEventNotification`: choose the kind and, if there is one,
        hand the event to the notification service. */
    method ProcessEventNotification(e: Event, now: Date)
      modifies notificationService, notificationService.gateway
      ensures notificationService.dispatched == old(notificationService.dispatched) + Dispatch(e, now)
      ensures notificationService.gateway.sent == old(notificationService.gateway.sent)
        + DispatchSends(notificationService.cfg, notificationService.json, Dispatch(e, now))
    {
      var kind := ChooseKind(e, now);
      if kind.None? {
        return;
      }
      var calls := Dispatch(e, now);
      assert calls == [(e, KindName(kind.value))];
      ghost var f := CallSends(notificationService.cfg, notificationService.json);
      assert calls[..0] == [];
      assert Flatten(f, calls) == Flatten(f, calls[..0]) + f(calls[0]);
      assert DispatchSends(notificationService.cfg, notificationService.json, calls)
        == NotificationSends(notificationService.cfg, notificationService.json, e, KindName(kind.value));
      var _ := notificationService.SendNotification(e, KindName(kind.value));
    }

    /** `checkAndSendNotifications`: one scan and, unless it fails, one
        dispatch per scanned event, in order. */
    method CheckAndSendNotifications(now: Date)
      modifies notificationService, notificationService.gateway
      ensures Scan(eventRepo, now).Err? ==>
        notificationService.dispatched == old(notificationService.dispatched)
        && notificationService.gateway.sent == old(notificationService.gateway.sent)
      ensures Scan(eventRepo, now).Ok? ==>
        var calls := Dispatches(Scan(eventRepo, now).value, now);
        && notificationService.dispatched == old(notificationService.dispatched) + calls
        && notificationService.gateway.sent == old(notificationService.gateway.sent)
             + DispatchSends(notificationService.cfg, notificationService.json, calls)
    {
      var events, err := GetEventsForNotification(now);
      if err.Some? {
        return;
      }
      if |events| == 0 {
        return;
      }
      ghost var calls0, sent0 := notificationService.dispatched, notificationService.gateway.sent;
      var i := 0;
      while i < |events|
        invariant 0 <= i <= |events|
        invariant notificationService.dispatched == calls0 + Dispatches(events[..i], now)
        invariant notificationService.gateway.sent
          == sent0 + DispatchSends(notificationService.cfg, notificationService.json, Dispatches(events[..i], now))
      {
        ghost var d0, s0 := notificationService.dispatched, notificationService.gateway.sent;
        ProcessEventNotification(events[i], now);
        StepLogs(notificationService.cfg, notificationService.json, events, i, now, calls0, sent0,
                 d0, s0, notificationService.dispatched, notificationService.gateway.sent);
        i := i + 1;
      }
      assert events[..i] == events;
    }

    /** The manual trigger: exactly one cycle. */
    method CheckNotificationsNow(now: Date)
      modifies notificationService, notificationService.gateway
      ensures Scan(eventRepo, now).Err? ==>
        notificationService.dispatched == old(notificationService.dispatched)
        && notificationService.gateway.sent == old(notificationService.gateway.sent)
      ensures Scan(eventRepo, now).Ok? ==>
        var calls := Dispatches(Scan(eventRepo, now).value, now);
        && notificationService.dispatched == old(notificationService.dispatched) + calls
        && notificationService.gateway.sent == old(notificationService.gateway.sent)
             + DispatchSends(notificationService.cfg, notificationService.json, calls)
    {
      CheckAndSendNotifications(now);
    }
  }

  /** One more event processed: its dispatch and deliveries follow the earlier ones. */
  lemma DispatchStep(cfg: Config, json: Decoders, events: seq<Event>, i: nat, now: Date)
    requires i < |events|
    ensures Dispatches(events[..i + 1], now) == Dispatches(events[..i], now) + Dispatch(events[i], now)
    ensures DispatchSends(cfg, json, Dispatches(events[..i + 1], now))
      == DispatchSends(cfg, json, Dispatches(events[..i], now)) + DispatchSends(cfg, json, Dispatch(events[i], now))
  {
    assert events[..i + 1][..i] == events[..i];
    DispatchSendsAppend(cfg, json, Dispatches(events[..i], now), Dispatch(events[i], now));
  }

  /** The two logs after one more event, given the logs before it. */
  lemma StepLogs(cfg: Config, json: Decoders, events: seq<Event>, i: nat, now: Date,
                 calls0: seq<(Event, string)>, sent0: seq<Delivery>,
                 d0: seq<(Event, string)>, s0: seq<Delivery>, d1: seq<(Event, string)>, s1: seq<Delivery>)
    requires i < |events|
    requires d0 == calls0 + Dispatches(events[..i], now) && d1 == d0 + Dispatch(events[i], now)
    requires s0 == sent0 + DispatchSends(cfg, json, Dispatches(events[..i], now))
    requires s1 == s0 + DispatchSends(cfg, json, Dispatch(events[i], now))
    ensures d1 == calls0 + Dispatches(events[..i + 1], now)
    ensures s1 == sent0 + DispatchSends(cfg, json, Dispatches(events[..i + 1], now))
  {
    var done, step := Dispatches(events[..i], now), Dispatch(events[i], now);
    DispatchStep(cfg, json, events, i, now);
    AppendAssoc(calls0, done, step);
    AppendAssoc(sent0, DispatchSends(cfg, json, done), DispatchSends(cfg, json, step));
  }


  lemma DispatchSendsAppend(cfg: Config, json: Decoders, a: seq<(Event, string)>, b: seq<(Event, string)>)
    ensures DispatchSends(cfg, json, a + b) == DispatchSends(cfg, json, a) + DispatchSends(cfg, json, b)
  {
    FlattenAppend(CallSends(cfg, json), a, b);
  }
}
