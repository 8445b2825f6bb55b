# Family calendar reminder engine, in Dafny

This project models the reminder engine of a family calendar backend written
in Go. It covers three parts:

- **The reminder scanner.** It runs every few minutes. It asks the event store
  for events dated tomorrow and today, one 24-hour window each, tomorrow
  first. It keeps the events whose flags ask for a reminder on that day and
  chooses each one's reminder type (`day_before` before `same_day`). Then it
  hands each event to the dispatcher in scan order.
- **The dispatcher.** For one event and reminder type it tries the primary
  contact's email (SendGrid), then the primary contact's WhatsApp (Twilio).
  Then, if the event asks for it, it contacts family members. It decodes the
  event's member and selected-children lists, selects the "papa" and/or "mama"
  members, and tries email and WhatsApp for each one. A channel without
  credentials is skipped. A failed delivery is logged and the next one is
  still tried. Malformed lists stop only the family step. The dispatcher always
  reports success.
- **The event record.** This includes the `SelectedChildren` text the
  dispatcher reads, and its response projection for mobile clients, with the
  date rendered as an RFC 3339 `full-date` (`YYYY-MM-DD`).

Modules, one per file:

- `Wrappers` (wrappers.dfy): Option and Result, and the order-preserving
  subsequence relation.
- `Calendar` (calendar.dfy): Gregorian dates, `NextDay` (`AddDate(0, 0, 1)`),
  instants within a day, and half-open day windows.
- `DateFormat` (date_format.dfy): Go's "2006-01-02" and "02/01/2006" layouts.
  The first has an inverse parse; for the second the day, month and year
  fields are proved to read back.
- `Models` (event.go's records; event.dfy).
- `Notifications` (notification_service.go; notification_service.dfy).
- `Scheduler` (notification_scheduler.go; notification_scheduler.dfy).

Notifications is specified in two layers:

- **Pure plan functions** (`NotificationSends`, `FamilyPlan`, `FamilySends`,
  `RecipientSends`) say which deliveries a reminder produces. They do not
  depend on whether any delivery succeeds.
- **Imperative classes** (`Gateway`, `NotificationService`) perform the
  attempts one by one. They prove that the gateway's log grows by exactly that
  plan. So the outcome of one client call can never change which later
  deliveries are attempted.

The scheduler class is proved the same way against `Scan` and `Dispatches`.
Its `CheckAndSendNotifications` ends with both logs extended:

- the service's log of `SendNotification` calls grows by `Dispatches(Scan(..))`;
- the gateway's log grows by the deliveries of those calls.

On a failed query, neither log changes.

Two behaviours of the dispatcher are easy to overlook:

- **Primary contact with empty email or phone.** The code attempts the primary
  email and the primary WhatsApp whenever the channel is configured. It does so
  even when the event's email or phone is empty, because there is no check on
  them. `Notifications.PrimaryContactsFirst` states this.
- **Bare numbers for primary WhatsApp.** The primary WhatsApp message goes to
  the bare event phone, from the bare Twilio number. Family messages use
  `whatsapp:`-prefixed numbers. `Notifications.WhatsAppAddressing` states this.

## Model

| member | source | states |
|---|---|---|
| Calendar.NextDay | backend-go/services/notification_scheduler.go:88 | `now.AddDate(0, 0, 1)` is the immediate successor day: strictly later, and no calendar day lies between the two |
| Calendar.NextDayDiffers | backend-go/services/notification_scheduler.go:159-168 | tomorrow is never today, which keeps the two reminder kinds apart |
| Calendar.Add24Hours | backend-go/services/notification_scheduler.go:90 | adding 24 hours gives a strictly later instant: the same second of the day, on the immediately following calendar day |
| Calendar.DayWindow | backend-go/services/notification_scheduler.go:88-94 | each query window starts at midnight of its day and, being half-open, contains exactly the instants of that day |
| Calendar.DayWindowsAdjacent | backend-go/services/notification_scheduler.go:88-94 | today's window ends where tomorrow's starts, and no instant lies in both |
| DateFormat.FormatISODate | backend-go/models/event.go:114 | for years 0 to 9999 the rendered date has the `full-date` shape: four digits, dash, two digits, dash, two digits |
| DateFormat.ISODateRoundTrip | backend-go/models/event.go:114 | parsing the rendered date gives back the date, so the rendering loses nothing |
| DateFormat.ParseParts | backend-go/models/event.go:114 | a year, a dash, two digits, a dash and two digits parse as the calendar day they spell |
| DateFormat.FormatDayMonthYear | backend-go/services/notification_service.go:61 | the "02/01/2006" rendering has slashes at positions 2 and 5, the day in the first two digits, the month in the next two and the year after the second slash; ten characters for years 0 to 9999 |
| DateFormat.TwoDigits | backend-go/models/event.go:114 | month and day are written as exactly two digits that read back as the number |
| Models.ToResponse | backend-go/models/event.go:109-133 | every shared field is copied unchanged, and the date text parses back to the event's date and is a `full-date` |
| Models.ResponseRoundTrip | backend-go/models/event.go:109-133 | the response together with `SelectedChildren` and `DeletedAt` rebuilds the event: nothing else is dropped |
| Models.ResponseDeterminesEvent | backend-go/models/event.go:109-133 | two events with equal responses differ at most in `SelectedChildren` and `DeletedAt` |
| Notifications.LocationLine | backend-go/services/notification_service.go:62-67 | the "Ubicación" line is present exactly when the event has a location |
| Notifications.ReminderBodyFor | backend-go/services/notification_service.go:47-87 | a body is composed exactly for the two known reminder types; it carries the addressee, "mañana" for day-before and "hoy" for same-day, the event's title and time, the "Ubicación" line and the given children suffix, and a date line in "02/01/2006" form exactly for day-before reminders |
| Notifications.SubjectsDistinguishAudience | backend-go/services/notification_service.go:253-275 | subjects are non-empty exactly for known reminder types, and a family subject never equals a primary subject |
| Notifications.PrimaryWhatsAppTextSpec | backend-go/services/notification_service.go:113-123 | the primary text is the "Mañana" or "Hoy" template with title and time, followed by " en <location>" exactly when there is a location |
| Notifications.PrimaryTextsDistinguishKinds | backend-go/services/notification_service.go:114-119 | no day-before primary text equals a same-day one, whatever the events |
| Notifications.ChildrenInfo | backend-go/services/notification_service.go:248-251 | the "Este evento es para:" suffix is present exactly when children are selected, and then lists them as `%v` does |
| Notifications.EmailBodiesSpec | backend-go/services/notification_service.go:47-87 | both reminder emails carry "mañana" or "hoy", the "Ubicación" line exactly when the event has a location, and the date line for day-before reminders; only the family email (lines 248-251, 264 and 283) carries the children suffix, exactly when children are selected |
| Notifications.FamilyWhatsAppTextSpec | backend-go/services/notification_service.go:319-332 | a family text is a lead and a tail that do not depend on the children, with the children suffix between them; so two texts for the same event and recipient differ exactly when their children suffixes differ |
| Notifications.RecipientSendsSpec | backend-go/services/notification_service.go:215-229 | a recipient gets an email iff they have an address and email is configured, a WhatsApp iff they have a phone and WhatsApp is configured, each addressed to them |
| Notifications.AppendMembersWithRole | backend-go/services/notification_service.go:196-212 | a selection loop appends the members with the given role, in list order |
| Notifications.MembersWithRoleSpec | backend-go/services/notification_service.go:196-212 | the members selected for a role are exactly the list's members with that role, as an order-preserving subsequence, each as many times as it is listed |
| Notifications.RecipientsSpec | backend-go/services/notification_service.go:193-212 | a member is a recipient iff it is a "papa" and NotifyPapa holds or a "mama" and NotifyMama holds; no other role is ever selected |
| Notifications.FamilySendsSpec | backend-go/services/notification_service.go:214-229 | every family delivery belongs to some recipient and every recipient's deliveries are all made |
| Notifications.PrimaryContactsFirst | backend-go/services/notification_service.go:140-150 | the primary email comes first and the primary WhatsApp next, whenever their channels are configured, addressed to the event's email and phone even if empty |
| Notifications.FamilyDisabled | backend-go/services/notification_service.go:170-173 | with NotifyFamily off no family member is contacted, whatever NotifyPapa and NotifyMama say |
| Notifications.EmptyMemberList | backend-go/services/notification_service.go:175-182 | an empty member list text yields no family deliveries |
| Notifications.MalformedFamilyData | backend-go/services/notification_service.go:175-191 | malformed member or children data fails the family step before any family delivery, and the primary deliveries are still made |
| Notifications.FamilyPlanContents | backend-go/services/notification_service.go:193-229 | with well-formed lists, the family deliveries are exactly those of the members selected by role |
| Notifications.UnconfiguredChannelsSendNothing | backend-go/services/notification_service.go:36-39 | without a SendGrid key no email is sent at all, primary or family; without both Twilio credentials no WhatsApp is sent at all |
| Notifications.FamilyWhatsAppPrefixed | backend-go/services/notification_service.go:334-336 | every family WhatsApp message goes from and to `whatsapp:`-prefixed numbers |
| Notifications.WhatsAppAddressing | backend-go/services/notification_service.go:334-336 | primary WhatsApp uses the bare event phone and Twilio number; family WhatsApp uses `whatsapp:`-prefixed numbers on both ends |
| Notifications.Gateway.Deliver | backend-go/services/notification_service.go:89-98 | each hand-off to a client is logged once, and its outcome is whether the client call returned without an error; the response status is not looked at |
| Notifications.NotificationService.constructor | backend-go/services/notification_service.go:20-32 | the service starts with the given configuration and no dispatches |
| Notifications.NotificationService.SendEmailNotification | backend-go/services/notification_service.go:35-99 | the primary email is handed over iff a SendGrid key is set; an unconfigured channel is a silent success; it fails iff the SendGrid client call returns an error, whatever status a response carries |
| Notifications.NotificationService.SendWhatsAppNotification | backend-go/services/notification_service.go:102-137 | the primary WhatsApp is handed over iff both Twilio credentials are set, and fails iff the Twilio client call returns an error |
| Notifications.NotificationService.SendFamilyEmailNotification | backend-go/services/notification_service.go:235-305 | a family email is handed over iff a SendGrid key is set, and fails iff the SendGrid client call returns an error, whatever status a response carries |
| Notifications.NotificationService.SendFamilyWhatsAppNotification | backend-go/services/notification_service.go:308-346 | a family WhatsApp is handed over iff both Twilio credentials are set, and fails iff the Twilio client call returns an error |
| Notifications.NotificationService.SendToRecipient | backend-go/services/notification_service.go:216-228 | one recipient gets the email if they have an address, then the WhatsApp if they have a phone, each only when its channel is configured |
| Notifications.FamilySendsStep | backend-go/services/notification_service.go:215-229 | after one more recipient the log holds the earlier recipients' deliveries followed by that recipient's |
| Notifications.NotificationService.SendToRecipients | backend-go/services/notification_service.go:214-229 | the send loop makes every recipient's deliveries in order, whatever the client calls return |
| Notifications.NotificationService.SendFamilyNotifications | backend-go/services/notification_service.go:169-232 | the family step makes exactly the planned deliveries and reports no error, or makes none and reports the decoding error |
| Notifications.NotificationService.SendNotification | backend-go/services/notification_service.go:140-157 | email, WhatsApp and family deliveries are all attempted in that order whatever fails, the call is recorded, and it always reports success |
| Scheduler.KindName | backend-go/services/notification_scheduler.go:158-169 | the two reminder kinds map to "day_before" and "same_day", one each |
| Scheduler.ShouldSendNotification | backend-go/services/notification_scheduler.go:125-148 | true iff the event asks for a day-before reminder and is dated tomorrow, or asks for a same-day reminder and is dated today; any other date is never selected |
| Scheduler.ChooseKind | backend-go/services/notification_scheduler.go:158-174 | day-before iff day-before eligible, same-day iff same-day eligible, and some kind iff the event should be notified |
| Scheduler.DueEventsSpec | backend-go/services/notification_scheduler.go:113-121 | the filter keeps exactly the events that should be notified, in fetch order, each as many times as it was fetched |
| Scheduler.DueEventsAppend | backend-go/services/notification_scheduler.go:109-121 | filtering the joined fetches equals joining the filtered fetches |
| Scheduler.ScanSpec | backend-go/services/notification_scheduler.go:84-122 | a failing query fails the scan, and the first failure is reported; otherwise the result is an order-preserving subsequence of tomorrow's fetch then today's, and every event in it gets a reminder kind |
| Scheduler.DueInTomorrowWindow | backend-go/services/notification_scheduler.go:88-97 | against a store answering honestly, tomorrow's window yields exactly the stored events due a day-before reminder |
| Scheduler.DueInTodayWindow | backend-go/services/notification_scheduler.go:93-103 | against a store answering honestly, today's window yields exactly the stored events due a same-day reminder |
| Scheduler.FaithfulScan | backend-go/services/notification_scheduler.go:84-122 | against an honest store, the scan gives the day-before events then the same-day events, each in storage order |
| Scheduler.DueTomorrowCount | backend-go/services/notification_scheduler.go:88-97 | each stored event due a day-before reminder appears in tomorrow's due list as often as it is stored |
| Scheduler.DueTodayCount | backend-go/services/notification_scheduler.go:93-103 | each stored event due a same-day reminder appears in today's due list as often as it is stored |
| Scheduler.FaithfulScanCounts | backend-go/services/notification_scheduler.go:84-122 | against an honest store an event stored once is scanned exactly once if due, and not at all otherwise |
| Scheduler.DispatchesOfDueEvents | backend-go/services/notification_scheduler.go:77-80 | a cycle dispatches each scanned event exactly once, in scan order, with its own reminder kind |
| Scheduler.DispatchSendsAppend | backend-go/services/notification_scheduler.go:77-80 | the deliveries of consecutive dispatches are the deliveries of each, in order |
| Scheduler.DispatchStep | backend-go/services/notification_scheduler.go:78-80 | one more event processed adds its dispatch and its deliveries after the earlier ones |
| Scheduler.StepLogs | backend-go/services/notification_scheduler.go:78-80 | both logs after one more loop iteration equal the logs for one more event |
| Scheduler.NotificationScheduler.constructor | backend-go/services/notification_scheduler.go:18-24 | the scheduler holds the given store and dispatcher |
| Scheduler.NotificationScheduler.GetEventsForNotification | backend-go/services/notification_scheduler.go:84-122 | returns the scan's events, or the scan's error and no events |
| Scheduler.NotificationScheduler.ProcessEventNotification | backend-go/services/notification_scheduler.go:151-184 | the dispatcher is called once with the chosen kind, or not at all when no kind applies |
| Scheduler.NotificationScheduler.CheckAndSendNotifications | backend-go/services/notification_scheduler.go:60-81 | a failed scan changes nothing; otherwise exactly one dispatch per scanned event, in scan order, and exactly their deliveries |
| Scheduler.NotificationScheduler.CheckNotificationsNow | backend-go/services/notification_scheduler.go:187-190 | the manual trigger runs exactly one cycle |

## Left out

- Scheduler.NotificationScheduler.ProcessEventNotification: the source reads the clock again before choosing the kind. The model uses the same day `now` as the scan, so a cycle that crosses midnight is not modelled.
- `Start`, `Stop`, the five-minute ticker, the goroutines and the `done` channel are not modelled. They concern concurrency and wall-clock timing. A manual check overlapping a ticker cycle is concurrency too.
- `time.Now()`, time zones and daylight saving are not modelled. The current day is a parameter, and every day is 24 hours long.
- The time of day of an event's stored date is not modelled. An event is kept only as its calendar day, which is what both the windows and the eligibility test look at.
- The event store (`GetEventsByDateRange`) is a function from a window to events or an error. `FaithfulStore` is one store that answers honestly. The repository code is not part of this model.
- The SendGrid and Twilio clients are not modelled. They are one gateway that logs each hand-off and reports, by a fixed function of the delivery, whether the client call returned an error. A client whose outcome varies between identical deliveries is not captured. The logs and plans proved here do not depend on those outcomes; only the error results of the four send methods do.
- `encoding/json` decoding is not modelled. It is a pair of functions returning a list or a decoding error.
- Notifications.ReminderBodyFor: email bodies are modelled by which parts they contain, not by their exact whitespace and line layout.
- Logging is not modelled, and neither are the response status and message SID that appear only in log lines.
- Configuration loading from the environment (`NewNotificationService`) is not modelled. The configuration is a constructor argument.
- Go strings are modelled as sequences of characters rather than bytes.
- Models.ToResponse: `CreatedAt` and `UpdatedAt` are opaque numbers that are only copied, and `DeletedAt` is an optional number.
- DateFormat.FormatISODate: the `full-date` shape is proved only for years 0 to 9999, the range where Go writes exactly four digits.
- The HTTP handlers, routes, CORS, database ping, request DTOs and GORM tags and defaults are not part of this model. They are plumbing without reminder logic.
