/** The notification dispatcher: which deliveries a reminder for one event
    produces (primary email, primary WhatsApp, then the family members the
    event selects), and the service that attempts them one by one through a
    gateway that may fail any of them. */
module Notifications {
  import opened Wrappers
  import opened Calendar
  import opened DateFormat
  import opened Models

  /** Channel credentials; an empty text means the channel is not configured. */
  datatype Config = Config(
    sendGridApiKey: string,
    fromEmail: string,
    twilioAccountSid: string,
    twilioAuthToken: string,
    twilioPhoneNumber: string)

  predicate EmailConfigured(cfg: Config) {
    cfg.sendGridApiKey != ""
  }

  predicate WhatsAppConfigured(cfg: Config) {
    cfg.twilioAccountSid != "" && cfg.twilioAuthToken != ""
  }

  /** One entry of an event's family-member list. */
  datatype FamilyMember = FamilyMember(id: string, name: string, email: string, phone: string, role: string)

  /** The JSON decoding of the two list fields; `None` is a decoding error. */
  datatype Decoders = Decoders(
    members: string -> Option<seq<FamilyMember>>,
    children: string -> Option<seq<string>>)

  const DAY_BEFORE := "day_before"
  const SAME_DAY := "same_day"

  /** The parts of a reminder email body: whom it greets (nobody by name for
      the primary contact), "mañana" or "hoy", the event title, the date line
      (day-before reminders only), the time, the "Ubicación" line (empty
      without a location) and the children line (family emails only). An
      unknown reminder type leaves the body empty. */
  datatype MailBody =
    | EmptyBody
    | ReminderBody(
        addressee: Option<string>,
        when: string,
        title: string,
        dateLine: Option<string>,
        time: string,
        locationLine: string,
        childrenInfo: string)

  /** One message handed to SendGrid or Twilio. */
  datatype Delivery =
    | Email(fromName: string, fromAddress: string, toName: string, toAddress: string, subject: string, body: MailBody)
    | WhatsApp(from: string, to: string, text: string)

  // ---------------------------------------------------------------------
  // Message composition

  function LocationLine(e: Event): (s: string)
    ensures s == "" <==> e.location == ""
  {
    if e.location != "" then "Ubicación: " + e.location else ""
  }

  function ReminderBodyFor(e: Event, addressee: Option<string>, childrenInfo: string, reminderType: string): (b: MailBody)
    ensures b.ReminderBody? <==> reminderType == DAY_BEFORE || reminderType == SAME_DAY
    ensures b.ReminderBody? ==> b.title == e.title && b.time == e.time && b.addressee == addressee
    ensures b.ReminderBody? ==> (b.dateLine.Some? <==> reminderType == DAY_BEFORE)
    ensures b.ReminderBody? ==> b.when == (if reminderType == DAY_BEFORE then "mañana" else "hoy")
    ensures b.ReminderBody? ==> b.locationLine == LocationLine(e) && b.childrenInfo == childrenInfo
    ensures reminderType == DAY_BEFORE ==> b.dateLine == Some(FormatDayMonthYear(e.date))
  {
    if reminderType == DAY_BEFORE then
      ReminderBody(addressee, "mañana", e.title, Some(FormatDayMonthYear(e.date)), e.time, LocationLine(e), childrenInfo)
    else if reminderType == SAME_DAY then
      ReminderBody(addressee, "hoy", e.title, None, e.time, LocationLine(e), childrenInfo)
    else EmptyBody
  }

  function PrimarySubject(e: Event, reminderType: string): string {
    if reminderType == DAY_BEFORE then "Recordatorio: " + e.title + " mañana"
    else if reminderType == SAME_DAY then "Recordatorio: " + e.title + " hoy"
    else ""
  }

  function FamilySubject(e: Event, reminderType: string): string {
    if reminderType == DAY_BEFORE then "Recordatorio familiar: " + e.title + " mañana"
    else if reminderType == SAME_DAY then "Recordatorio familiar: " + e.title + " hoy"
    else ""
  }

  /** The primary WhatsApp text: the day's template, then " en <location>"
      when the event has a location. */
  function PrimaryWhatsAppText(e: Event, reminderType: string): string {
    var lead :=
      if reminderType == DAY_BEFORE then "Recordatorio: Mañana tienes '" + e.title + "' a las " + e.time
      else if reminderType == SAME_DAY then "Recordatorio: Hoy tienes '" + e.title + "' a las " + e.time
      else "";
    if e.location != "" then lead + " en " + e.location else lead
  }

  function JoinWithSpaces(xs: seq<string>): string {
    if xs == [] then ""
    else if |xs| == 1 then xs[0]
    else JoinWithSpaces(xs[..|xs| - 1]) + " " + xs[|xs| - 1]
  }

  /** `fmt.Sprintf("%v", children)` for a slice of strings: `[a b c]`. */
  function SliceText(xs: seq<string>): string {
    "[" + JoinWithSpaces(xs) + "]"
  }

  const CHILDREN_PREFIX := "\n\nEste evento es para: "

  /** The suffix naming the children; present exactly when there are any. */
  function ChildrenInfo(children: seq<string>): (s: string)
    ensures s == "" <==> children == []
    ensures children != [] ==> s == CHILDREN_PREFIX + SliceText(children)
  {
    if |children| > 0 then CHILDREN_PREFIX + SliceText(children) else ""
  }

  function FamilyWhatsAppText(e: Event, r: FamilyMember, children: seq<string>, reminderType: string): string {
    if reminderType == DAY_BEFORE then
      "Hola " + r.name + "! Te recordamos que mañana tenés: " + e.title + " el " + FormatDayMonthYear(e.date)
        + " a las " + e.time + ChildrenInfo(children) + ". ¡No te lo pierdas!"
    else if reminderType == SAME_DAY then
      "Hola " + r.name + "! Te recordamos que hoy tenés: " + e.title + " a las " + e.time
        + ChildrenInfo(children) + ". ¡Que tengas un buen día!"
    else ""
  }

  /** A primary WhatsApp text tells which reminder it is: no day-before text
      equals a same-day text, whatever the two events. */
  lemma PrimaryTextsDistinguishKinds(e1: Event, e2: Event)
    ensures PrimaryWhatsAppText(e1, DAY_BEFORE) != PrimaryWhatsAppText(e2, SAME_DAY)
  {
    var t1, t2 := PrimaryWhatsAppText(e1, DAY_BEFORE), PrimaryWhatsAppText(e2, SAME_DAY);
    assert t1[14] == 'M';
    assert t2[14] == 'H';
  }

  /** The primary WhatsApp text is the day's template, followed by
      " en <location>" exactly when the event has a location. */
  lemma PrimaryWhatsAppTextSpec(e: Event, reminderType: string)
    ensures var bare := PrimaryWhatsAppText(e.(location := ""), reminderType);
      && PrimaryWhatsAppText(e, reminderType) == bare + (if e.location != "" then " en " + e.location else "")
      && (reminderType == DAY_BEFORE ==> bare == "Recordatorio: Mañana tienes '" + e.title + "' a las " + e.time)
      && (reminderType == SAME_DAY ==> bare == "Recordatorio: Hoy tienes '" + e.title + "' a las " + e.time)
      && (reminderType != DAY_BEFORE && reminderType != SAME_DAY ==> bare == "")
  {
  }

  /** For a known reminder type a family subject never equals a primary
      subject, whatever the two events; an unknown type gives empty subjects. */
  lemma SubjectsDistinguishAudience(e1: Event, e2: Event, t1: string, t2: string)
    ensures (t1 == DAY_BEFORE || t1 == SAME_DAY) <==> PrimarySubject(e1, t1) != ""
    ensures (t2 == DAY_BEFORE || t2 == SAME_DAY) <==> FamilySubject(e2, t2) != ""
    ensures (t1 == DAY_BEFORE || t1 == SAME_DAY) && (t2 == DAY_BEFORE || t2 == SAME_DAY) ==>
      PrimarySubject(e1, t1) != FamilySubject(e2, t2)
  {
    if (t1 == DAY_BEFORE || t1 == SAME_DAY) && (t2 == DAY_BEFORE || t2 == SAME_DAY) {
      assert PrimarySubject(e1, t1)[12] == ':';
      assert FamilySubject(e2, t2)[12] == ' ';
    }
  }

  /** The part of a family WhatsApp text before the children suffix; it does
      not depend on the children. */
  function FamilyWhatsAppLead(e: Event, r: FamilyMember, reminderType: string): string {
    if reminderType == DAY_BEFORE
    then "Hola " + r.name + "! Te recordamos que mañana tenés: " + e.title + " el " + FormatDayMonthYear(e.date) + " a las " + e.time
    else "Hola " + r.name + "! Te recordamos que hoy tenés: " + e.title + " a las " + e.time
  }

  /** The part of a family WhatsApp text after the children suffix. */
  function FamilyWhatsAppTail(reminderType: string): string {
    if reminderType == DAY_BEFORE then ". ¡No te lo pierdas!" else ". ¡Que tengas un buen día!"
  }

  /** A family WhatsApp text is a lead and a tail that do not depend on the
      children, with the children suffix between them; so two texts for the
      same event and recipient differ exactly when their children suffixes do. */
  lemma FamilyWhatsAppTextSpec(e: Event, r: FamilyMember, c1: seq<string>, c2: seq<string>, reminderType: string)
    requires reminderType == DAY_BEFORE || reminderType == SAME_DAY
    ensures FamilyWhatsAppText(e, r, c1, reminderType)
      == FamilyWhatsAppLead(e, r, reminderType) + ChildrenInfo(c1) + FamilyWhatsAppTail(reminderType)
    ensures FamilyWhatsAppText(e, r, c1, reminderType) == FamilyWhatsAppText(e, r, c2, reminderType)
      <==> ChildrenInfo(c1) == ChildrenInfo(c2)
  {
    var lead := FamilyWhatsAppLead(e, r, reminderType);
    var tail := FamilyWhatsAppTail(reminderType);
    var t1, t2 := FamilyWhatsAppText(e, r, c1, reminderType), FamilyWhatsAppText(e, r, c2, reminderType);
    assert t1 == lead + ChildrenInfo(c1) + tail;
    assert t2 == lead + ChildrenInfo(c2) + tail;
    if t1 == t2 {
      SuffixCancel(lead, ChildrenInfo(c1), ChildrenInfo(c2), tail);
    }
  }

  /** Both reminder emails carry the day's word, the "Ubicación" line exactly
      when the event has a location, and the date line for day-before
      reminders; the family email alone carries the children suffix, and
      carries it exactly when children are selected. */
  lemma EmailBodiesSpec(cfg: Config, e: Event, r: FamilyMember, children: seq<string>, reminderType: string)
    requires reminderType == DAY_BEFORE || reminderType == SAME_DAY
    ensures var p, f := PrimaryEmail(cfg, e, reminderType).body, FamilyEmail(cfg, e, r, children, reminderType).body;
      && p.ReminderBody? && f.ReminderBody?
      && p.when == f.when == (if reminderType == DAY_BEFORE then "mañana" else "hoy")
      && (p.locationLine == "" <==> e.location == "") && f.locationLine == p.locationLine
      && (e.location != "" ==> p.locationLine == "Ubicación: " + e.location)
      && (reminderType == DAY_BEFORE ==> p.dateLine == f.dateLine == Some(FormatDayMonthYear(e.date)))
      && p.childrenInfo == ""
      && f.childrenInfo == ChildrenInfo(children)
      && (f.childrenInfo == "" <==> children == [])
  {
  }

  /** The middle of `a + x + b` is determined by the whole. */
  lemma SuffixCancel(a: string, x: string, y: string, b: string)
    requires a + x + b == a + y + b
    ensures x == y
  {
    var t := a + x + b;
    assert x == t[|a|..|t| - |b|];
    assert y == t[|a|..|t| - |b|];
  }

  // ---------------------------------------------------------------------
  // Deliveries

  const FROM_NAME := "Calendar Reminder"
  const WHATSAPP_PREFIX := "whatsapp:"

  function PrimaryEmail(cfg: Config, e: Event, reminderType: string): Delivery {
    Email(FROM_NAME, cfg.fromEmail, "User", e.email, PrimarySubject(e, reminderType), ReminderBodyFor(e, None, "", reminderType))
  }

  function PrimaryWhatsApp(cfg: Config, e: Event, reminderType: string): Delivery {
    WhatsApp(cfg.twilioPhoneNumber, e.phone, PrimaryWhatsAppText(e, reminderType))
  }

  function FamilyEmail(cfg: Config, e: Event, r: FamilyMember, children: seq<string>, reminderType: string): Delivery {
    Email(FROM_NAME, cfg.fromEmail, r.name, r.email, FamilySubject(e, reminderType),
          ReminderBodyFor(e, Some(r.name), ChildrenInfo(children), reminderType))
  }

  function FamilyWhatsApp(cfg: Config, e: Event, r: FamilyMember, children: seq<string>, reminderType: string): Delivery {
    WhatsApp(WHATSAPP_PREFIX + cfg.twilioPhoneNumber, WHATSAPP_PREFIX + r.phone, FamilyWhatsAppText(e, r, children, reminderType))
  }

  /** What `SendEmailNotification` hands to SendGrid: nothing without an API key. */
  function PrimaryEmailSends(cfg: Config, e: Event, reminderType: string): seq<Delivery> {
    if EmailConfigured(cfg) then [PrimaryEmail(cfg, e, reminderType)] else []
  }

  /** What `SendWhatsAppNotification` hands to Twilio: nothing without both credentials. */
  function PrimaryWhatsAppSends(cfg: Config, e: Event, reminderType: string): seq<Delivery> {
    if WhatsAppConfigured(cfg) then [PrimaryWhatsApp(cfg, e, reminderType)] else []
  }

  /** One family recipient's deliveries: email if they have an address,
      then WhatsApp if they have a phone, each only when its channel is configured. */
  function RecipientSends(cfg: Config, e: Event, r: FamilyMember, children: seq<string>, reminderType: string): seq<Delivery> {
    (if r.email != "" && EmailConfigured(cfg) then [FamilyEmail(cfg, e, r, children, reminderType)] else [])
    + (if r.phone != "" && WhatsAppConfigured(cfg) then [FamilyWhatsApp(cfg, e, r, children, reminderType)] else [])
  }

  /** A recipient gets an email iff they have an address and email is
      configured, and a WhatsApp message iff they have a phone and WhatsApp is
      configured; each is addressed to them. */
  lemma RecipientSendsSpec(cfg: Config, e: Event, r: FamilyMember, children: seq<string>, reminderType: string)
    ensures var ds := RecipientSends(cfg, e, r, children, reminderType);
      (exists d :: d in ds && d.Email?) <==> r.email != "" && EmailConfigured(cfg)
    ensures var ds := RecipientSends(cfg, e, r, children, reminderType);
      (exists d :: d in ds && d.WhatsApp?) <==> r.phone != "" && WhatsAppConfigured(cfg)
    ensures forall d :: d in RecipientSends(cfg, e, r, children, reminderType) && d.Email? ==>
      d.toAddress == r.email && d.toName == r.name
    ensures forall d :: d in RecipientSends(cfg, e, r, children, reminderType) && d.WhatsApp? ==>
      d.to == WHATSAPP_PREFIX + r.phone && d.from == WHATSAPP_PREFIX + cfg.twilioPhoneNumber
  {
    var email, whatsApp := FamilyEmail(cfg, e, r, children, reminderType), FamilyWhatsApp(cfg, e, r, children, reminderType);
    OptionalPair(email, whatsApp, r.email != "" && EmailConfigured(cfg), r.phone != "" && WhatsAppConfigured(cfg));
  }

  /** An optional email followed by an optional WhatsApp message holds an
      email iff the first is present, a WhatsApp message iff the second is,
      and nothing else. */
  lemma OptionalPair(email: Delivery, whatsApp: Delivery, withEmail: bool, withWhatsApp: bool)
    requires email.Email? && whatsApp.WhatsApp?
    ensures var ds := (if withEmail then [email] else []) + (if withWhatsApp then [whatsApp] else []);
      && ((exists d :: d in ds && d.Email?) <==> withEmail)
      && ((exists d :: d in ds && d.WhatsApp?) <==> withWhatsApp)
      && (forall d :: d in ds ==> d == email || d == whatsApp)
  {
    var mail := if withEmail then [email] else [];
    var chat := if withWhatsApp then [whatsApp] else [];
    var ds := mail + chat;
    assert forall d :: d in ds <==> d in mail || d in chat;
    if withEmail {
      assert email in ds;
    }
    if withWhatsApp {
      assert whatsApp in ds;
    }
  }

  /** The deliveries for a list of recipients, recipient after recipient. */
  function FamilySends(cfg: Config, e: Event, rs: seq<FamilyMember>, children: seq<string>, reminderType: string): seq<Delivery> {
    if rs == [] then []
    else FamilySends(cfg, e, rs[..|rs| - 1], children, reminderType) + RecipientSends(cfg, e, rs[|rs| - 1], children, reminderType)
  }

  /** The members with a given role, in list order. */
  function MembersWithRole(ms: seq<FamilyMember>, role: string): seq<FamilyMember> {
    if ms == [] then []
    else MembersWithRole(ms[..|ms| - 1], role) + (if ms[|ms| - 1].role == role then [ms[|ms| - 1]] else [])
  }

  const PAPA := "papa"
  const MAMA := "mama"

  /** The family recipients: the "papa" members if NotifyPapa, then the "mama"
      members if NotifyMama. */
  function Recipients(ms: seq<FamilyMember>, notifyPapa: bool, notifyMama: bool): seq<FamilyMember> {
    (if notifyPapa then MembersWithRole(ms, PAPA) else []) + (if notifyMama then MembersWithRole(ms, MAMA) else [])
  }

  /** One of the two selection loops of `SendFamilyNotifications`: appends
      the members with `role`, in list order, to `acc`. */
  method AppendMembersWithRole(acc: seq<FamilyMember>, members: seq<FamilyMember>, role: string)
    returns (out: seq<FamilyMember>)
    ensures out == acc + MembersWithRole(members, role)
  {
    out := acc;
    var i := 0;
    while i < |members|
      invariant 0 <= i <= |members|
      invariant out == acc + MembersWithRole(members[..i], role)
    {
      assert members[..i + 1][..i] == members[..i];
      if members[i].role == role {
        out := out + [members[i]];
      }
      i := i + 1;
    }
    assert members[..|members|] == members;
  }

  datatype FamilyError = MalformedFamilyMembers | MalformedSelectedChildren

  /** What `SendFamilyNotifications` attempts, or the decoding error that stops
      it before any family delivery. An empty list text decodes to no entries. */
  function FamilyPlan(cfg: Config, json: Decoders, e: Event, reminderType: string): Result<seq<Delivery>, FamilyError> {
    if !e.notifyFamily then Ok([])
    else
      var members := if e.familyMembers == "" then Some([]) else json.members(e.familyMembers);
      var children := if e.selectedChildren == "" then Some([]) else json.children(e.selectedChildren);
      if members.None? then Err(MalformedFamilyMembers)
      else if children.None? then Err(MalformedSelectedChildren)
      else Ok(FamilySends(cfg, e, Recipients(members.value, e.notifyPapa, e.notifyMama), children.value, reminderType))
  }

  /** Everything `SendNotification` attempts, in order: primary email, primary
      WhatsApp, then the family deliveries (none when the family step fails). */
  function NotificationSends(cfg: Config, json: Decoders, e: Event, reminderType: string): seq<Delivery> {
    PrimaryEmailSends(cfg, e, reminderType) + PrimaryWhatsAppSends(cfg, e, reminderType)
    + (match FamilyPlan(cfg, json, e, reminderType) case Ok(ds) => ds case Err(_) => [])
  }

  // ---------------------------------------------------------------------
  // Properties of recipient selection and of the plan

  /** The members with a role are exactly the list's members with that role,
      in list order, each as many times as it is listed. */
  lemma {:induction false} MembersWithRoleSpec(ms: seq<FamilyMember>, role: string)
    ensures forall m :: m in MembersWithRole(ms, role) <==> m in ms && m.role == role
    ensures IsSubsequence(MembersWithRole(ms, role), ms)
    ensures forall m :: multiset(MembersWithRole(ms, role))[m] == if m.role == role then multiset(ms)[m] else 0
  {
    MembersWithRoleOrder(ms, role);
    forall m {
      MembersWithRoleCount(ms, role, m);
    }
  }

  lemma {:induction false} MembersWithRoleOrder(ms: seq<FamilyMember>, role: string)
    ensures forall m :: m in MembersWithRole(ms, role) <==> m in ms && m.role == role
    ensures IsSubsequence(MembersWithRole(ms, role), ms)
  {
    if ms != [] {
      var init, last := ms[..|ms| - 1], ms[|ms| - 1];
      MembersWithRoleOrder(init, role);
      assert ms == init + [last];
      var sub := MembersWithRole(ms, role);
      if last.role == role {
        assert sub[..|sub| - 1] == MembersWithRole(init, role);
      } else {
        assert sub == MembersWithRole(init, role);
      }
    }
  }

  lemma {:induction false} MembersWithRoleCount(ms: seq<FamilyMember>, role: string, m: FamilyMember)
    ensures multiset(MembersWithRole(ms, role))[m] == if m.role == role then multiset(ms)[m] else 0
  {
    if ms != [] {
      var init, last := ms[..|ms| - 1], ms[|ms| - 1];
      MembersWithRoleCount(init, role, m);
      Snoc(ms);
      var kept, tail := MembersWithRole(init, role), if last.role == role then [last] else [];
      assert MembersWithRole(ms, role) == kept + tail;
      assert multiset(MembersWithRole(ms, role)) == multiset(kept) + multiset(tail);
    }
  }

  /** A member is a recipient iff it is a "papa" and NotifyPapa holds, or a
      "mama" and NotifyMama holds; no other role is ever included. */
  lemma RecipientsSpec(ms: seq<FamilyMember>, notifyPapa: bool, notifyMama: bool)
    ensures forall m :: m in Recipients(ms, notifyPapa, notifyMama) <==>
      m in ms && ((notifyPapa && m.role == PAPA) || (notifyMama && m.role == MAMA))
  {
    MembersWithRoleSpec(ms, PAPA);
    MembersWithRoleSpec(ms, MAMA);
  }

  /** Every family delivery belongs to some recipient, and every delivery of
      every recipient is made. */
  lemma {:induction false} FamilySendsSpec(cfg: Config, e: Event, rs: seq<FamilyMember>, children: seq<string>, reminderType: string)
    ensures forall d :: d in FamilySends(cfg, e, rs, children, reminderType) <==>
      exists r :: r in rs && d in RecipientSends(cfg, e, r, children, reminderType)
  {
    if rs != [] {
      var init, last := rs[..|rs| - 1], rs[|rs| - 1];
      FamilySendsSpec(cfg, e, init, children, reminderType);
      assert rs == init + [last];
      assert FamilySends(cfg, e, rs, children, reminderType)
        == FamilySends(cfg, e, init, children, reminderType) + RecipientSends(cfg, e, last, children, reminderType);
      forall d | d in FamilySends(cfg, e, rs, children, reminderType)
        ensures exists r :: r in rs && d in RecipientSends(cfg, e, r, children, reminderType)
      {
        if d !in RecipientSends(cfg, e, last, children, reminderType) {
          assert d in FamilySends(cfg, e, init, children, reminderType);
          var r :| r in init && d in RecipientSends(cfg, e, r, children, reminderType);
          assert r in rs;
        }
      }
    }
  }

  /** The primary deliveries come first, email before WhatsApp, each made
      whenever its channel is configured and addressed to the event's own
      email or phone, even when that text is empty. */
  lemma PrimaryContactsFirst(cfg: Config, json: Decoders, e: Event, reminderType: string)
    ensures var ds := NotificationSends(cfg, json, e, reminderType);
      EmailConfigured(cfg) ==>
        |ds| > 0 && ds[0].Email? && ds[0].toAddress == e.email && ds[0].subject == PrimarySubject(e, reminderType)
    ensures var ds, k := NotificationSends(cfg, json, e, reminderType), if EmailConfigured(cfg) then 1 else 0;
      WhatsAppConfigured(cfg) ==>
        |ds| > k && ds[k].WhatsApp? && ds[k].to == e.phone && ds[k].text == PrimaryWhatsAppText(e, reminderType)
  {
  }

  /** With NotifyFamily off no family member is contacted, whatever NotifyPapa
      and NotifyMama say. */
  lemma FamilyDisabled(cfg: Config, json: Decoders, e: Event, reminderType: string)
    requires !e.notifyFamily
    ensures FamilyPlan(cfg, json, e, reminderType) == Ok([])
    ensures NotificationSends(cfg, json, e, reminderType)
      == PrimaryEmailSends(cfg, e, reminderType) + PrimaryWhatsAppSends(cfg, e, reminderType)
  {
  }

  /** An empty member list text decodes to no members: no family member is
      contacted, and the family step fails only if the children list is malformed. */
  lemma EmptyMemberList(cfg: Config, json: Decoders, e: Event, reminderType: string)
    requires e.familyMembers == ""
    ensures FamilyPlan(cfg, json, e, reminderType).Ok? ==> FamilyPlan(cfg, json, e, reminderType).value == []
    ensures FamilyPlan(cfg, json, e, reminderType).Err? ==>
      FamilyPlan(cfg, json, e, reminderType) == Err(MalformedSelectedChildren)
  {
  }

  /** A malformed member or children list fails only the family step: the
      primary deliveries are still made, and no family delivery is. */
  lemma MalformedFamilyData(cfg: Config, json: Decoders, e: Event, reminderType: string)
    requires e.notifyFamily
    requires (e.familyMembers != "" && json.members(e.familyMembers).None?)
          || (e.selectedChildren != "" && json.children(e.selectedChildren).None?)
    ensures FamilyPlan(cfg, json, e, reminderType).Err?
    ensures NotificationSends(cfg, json, e, reminderType)
      == PrimaryEmailSends(cfg, e, reminderType) + PrimaryWhatsAppSends(cfg, e, reminderType)
  {
  }

  /** A family member receives deliveries iff they are a recipient, and then
      email iff they have an address and WhatsApp iff they have a phone. */
  lemma FamilyPlanContents(cfg: Config, json: Decoders, e: Event, reminderType: string,
                           ms: seq<FamilyMember>, children: seq<string>)
    requires e.notifyFamily
    requires (if e.familyMembers == "" then Some([]) else json.members(e.familyMembers)) == Some(ms)
    requires (if e.selectedChildren == "" then Some([]) else json.children(e.selectedChildren)) == Some(children)
    ensures FamilyPlan(cfg, json, e, reminderType).Ok?
    ensures forall d :: d in FamilyPlan(cfg, json, e, reminderType).value <==>
      exists r :: r in ms && ((e.notifyPapa && r.role == PAPA) || (e.notifyMama && r.role == MAMA))
                && d in RecipientSends(cfg, e, r, children, reminderType)
  {
    var rs := Recipients(ms, e.notifyPapa, e.notifyMama);
    RecipientsSpec(ms, e.notifyPapa, e.notifyMama);
    FamilySendsSpec(cfg, e, rs, children, reminderType);
  }

  /** An empty SendGrid key means no email at all, primary or family; an
      incomplete Twilio configuration means no WhatsApp message at all. */
  lemma UnconfiguredChannelsSendNothing(cfg: Config, json: Decoders, e: Event, reminderType: string)
    ensures !EmailConfigured(cfg) ==> forall d :: d in NotificationSends(cfg, json, e, reminderType) ==> d.WhatsApp?
    ensures !WhatsAppConfigured(cfg) ==> forall d :: d in NotificationSends(cfg, json, e, reminderType) ==> d.Email?
  {
    match FamilyPlan(cfg, json, e, reminderType)
    case Err(_) =>
    case Ok(_) =>
      if e.notifyFamily {
        var ms := if e.familyMembers == "" then Some([]) else json.members(e.familyMembers);
        var cs := if e.selectedChildren == "" then Some([]) else json.children(e.selectedChildren);
        FamilySendsSpec(cfg, e, Recipients(ms.value, e.notifyPapa, e.notifyMama), cs.value, reminderType);
        forall r: FamilyMember {
          RecipientSendsSpec(cfg, e, r, cs.value, reminderType);
        }
      }
  }

  /** Every family WhatsApp message is sent from and to `whatsapp:` numbers. */
  lemma {:induction false} FamilyWhatsAppPrefixed(cfg: Config, e: Event, rs: seq<FamilyMember>, children: seq<string>, reminderType: string)
    ensures forall d :: d in FamilySends(cfg, e, rs, children, reminderType) && d.WhatsApp? ==>
      d.from == WHATSAPP_PREFIX + cfg.twilioPhoneNumber
      && |WHATSAPP_PREFIX| <= |d.to| && d.to[..|WHATSAPP_PREFIX|] == WHATSAPP_PREFIX
  {
    if rs != [] {
      var init, last := rs[..|rs| - 1], rs[|rs| - 1];
      FamilyWhatsAppPrefixed(cfg, e, init, children, reminderType);
      RecipientSendsSpec(cfg, e, last, children, reminderType);
      assert FamilySends(cfg, e, rs, children, reminderType)
        == FamilySends(cfg, e, init, children, reminderType) + RecipientSends(cfg, e, last, children, reminderType);
      assert (WHATSAPP_PREFIX + last.phone)[..|WHATSAPP_PREFIX|] == WHATSAPP_PREFIX;
    }
  }

  /** Primary WhatsApp goes to the bare event phone; family WhatsApp goes to
      `whatsapp:`-prefixed numbers. */
  lemma WhatsAppAddressing(cfg: Config, json: Decoders, e: Event, reminderType: string)
    ensures forall d :: d in PrimaryWhatsAppSends(cfg, e, reminderType) ==>
      d.from == cfg.twilioPhoneNumber && d.to == e.phone
    ensures FamilyPlan(cfg, json, e, reminderType).Ok? ==>
      forall d :: d in FamilyPlan(cfg, json, e, reminderType).value && d.WhatsApp? ==>
        d.from == WHATSAPP_PREFIX + cfg.twilioPhoneNumber
        && |WHATSAPP_PREFIX| <= |d.to| && d.to[..|WHATSAPP_PREFIX|] == WHATSAPP_PREFIX
  {
    if FamilyPlan(cfg, json, e, reminderType).Ok? && e.notifyFamily {
      var ms := if e.familyMembers == "" then Some([]) else json.members(e.familyMembers);
      var cs := if e.selectedChildren == "" then Some([]) else json.children(e.selectedChildren);
      FamilyWhatsAppPrefixed(cfg, e, Recipients(ms.value, e.notifyPapa, e.notifyMama), cs.value, reminderType);
    }
  }

  /** The log after one more recipient, given the log before it. */
  lemma FamilySendsStep(cfg: Config, e: Event, rs: seq<FamilyMember>, i: nat, children: seq<string>, reminderType: string,
                        sent0: seq<Delivery>, before: seq<Delivery>, after: seq<Delivery>)
    requires i < |rs|
    requires before == sent0 + FamilySends(cfg, e, rs[..i], children, reminderType)
    requires after == before + RecipientSends(cfg, e, rs[i], children, reminderType)
    ensures after == sent0 + FamilySends(cfg, e, rs[..i + 1], children, reminderType)
  {
    assert rs[..i + 1][..i] == rs[..i];
    AppendAssoc(sent0, FamilySends(cfg, e, rs[..i], children, reminderType), RecipientSends(cfg, e, rs[i], children, reminderType));
  }

  // ---------------------------------------------------------------------
  // The service

  /** The SendGrid and Twilio client calls together: records every delivery
      handed to them and answers whether the call returned without an error.
      The email path never looks at the response status, so an email the
      provider answers with an error status still counts as sent. */
  class Gateway {
    ghost var sent: seq<Delivery>
    const callSucceeds: Delivery -> bool

    constructor(callSucceeds: Delivery -> bool)
      ensures sent == [] && this.callSucceeds == callSucceeds
    {
      sent := [];
      this.callSucceeds := callSucceeds;
    }

    method Deliver(d: Delivery) returns (ok: bool)
      modifies this
      ensures sent == old(sent) + [d]
      ensures ok == callSucceeds(d)
    {
      sent := sent + [d];
      ok := callSucceeds(d);
    }
  }

  datatype SendError = EmailFailed | WhatsAppFailed | FamilyEmailFailed | FamilyWhatsAppFailed

  class NotificationService {
    const cfg: Config
    const json: Decoders
    const gateway: Gateway
    /** Every `SendNotification` call, with its event and reminder type. */
    ghost var dispatched: seq<(Event, string)>

    constructor(cfg: Config, json: Decoders, gateway: Gateway)
      ensures this.cfg == cfg && this.json == json && this.gateway == gateway
      ensures dispatched == []
    {
      this.cfg := cfg;
      this.json := json;
      this.gateway := gateway;
      dispatched := [];
    }

    method SendEmailNotification(e: Event, reminderType: string) returns (err: Option<SendError>)
      modifies gateway
      ensures gateway.sent == old(gateway.sent) + PrimaryEmailSends(cfg, e, reminderType)
      ensures err == if EmailConfigured(cfg) && !gateway.callSucceeds(PrimaryEmail(cfg, e, reminderType))
                     then Some(EmailFailed) else None
    {
      if cfg.sendGridApiKey == "" {
        return None;
      }
      var ok := gateway.Deliver(PrimaryEmail(cfg, e, reminderType));
      err := if ok then None else Some(EmailFailed);
    }

    method SendWhatsAppNotification(e: Event, reminderType: string) returns (err: Option<SendError>)
      modifies gateway
      ensures gateway.sent == old(gateway.sent) + PrimaryWhatsAppSends(cfg, e, reminderType)
      ensures err == if WhatsAppConfigured(cfg) && !gateway.callSucceeds(PrimaryWhatsApp(cfg, e, reminderType))
                     then Some(WhatsAppFailed) else None
    {
      if cfg.twilioAccountSid == "" || cfg.twilioAuthToken == "" {
        return None;
      }
      var ok := gateway.Deliver(PrimaryWhatsApp(cfg, e, reminderType));
      err := if ok then None else Some(WhatsAppFailed);
    }

    method SendFamilyEmailNotification(e: Event, r: FamilyMember, children: seq<string>, reminderType: string)
      returns (err: Option<SendError>)
      modifies gateway
      ensures gateway.sent == old(gateway.sent)
        + (if EmailConfigured(cfg) then [FamilyEmail(cfg, e, r, children, reminderType)] else [])
      ensures err.Some? <==> EmailConfigured(cfg) && !gateway.callSucceeds(FamilyEmail(cfg, e, r, children, reminderType))
    {
      if cfg.sendGridApiKey == "" {
        return None;
      }
      var ok := gateway.Deliver(FamilyEmail(cfg, e, r, children, reminderType));
      err := if ok then None else Some(FamilyEmailFailed);
    }

    method SendFamilyWhatsAppNotification(e: Event, r: FamilyMember, children: seq<string>, reminderType: string)
      returns (err: Option<SendError>)
      modifies gateway
      ensures gateway.sent == old(gateway.sent)
        + (if WhatsAppConfigured(cfg) then [FamilyWhatsApp(cfg, e, r, children, reminderType)] else [])
      ensures err.Some? <==> WhatsAppConfigured(cfg) && !gateway.callSucceeds(FamilyWhatsApp(cfg, e, r, children, reminderType))
    {
      if cfg.twilioAccountSid == "" || cfg.twilioAuthToken == "" {
        return None;
      }
      var ok := gateway.Deliver(FamilyWhatsApp(cfg, e, r, children, reminderType));
      err := if ok then None else Some(FamilyWhatsAppFailed);
    }

    /** One iteration of the send loop: email if the recipient has an
        address, then WhatsApp if they have a phone. */
    method SendToRecipient(e: Event, r: FamilyMember, children: seq<string>, reminderType: string)
      modifies gateway
      ensures gateway.sent == old(gateway.sent) + RecipientSends(cfg, e, r, children, reminderType)
    {
      if r.email != "" {
        var _ := SendFamilyEmailNotification(e, r, children, reminderType);
      }
      if r.phone != "" {
        var _ := SendFamilyWhatsAppNotification(e, r, children, reminderType);
      }
    }

    /** The send loop of `SendFamilyNotifications`: each recipient's email,
        then WhatsApp, whatever became of earlier deliveries. */
    method SendToRecipients(e: Event, recipients: seq<FamilyMember>, children: seq<string>, reminderType: string)
      modifies gateway
      ensures gateway.sent == old(gateway.sent) + FamilySends(cfg, e, recipients, children, reminderType)
    {
      ghost var sent0 := gateway.sent;
      var i := 0;
      while i < |recipients|
        invariant 0 <= i <= |recipients|
        invariant gateway.sent == sent0 + FamilySends(cfg, e, recipients[..i], children, reminderType)
      {
        ghost var before := gateway.sent;
        SendToRecipient(e, recipients[i], children, reminderType);
        FamilySendsStep(cfg, e, recipients, i, children, reminderType, sent0, before, gateway.sent);
        i := i + 1;
      }
      assert recipients[..|recipients|] == recipients;
    }

    /** Decodes the lists, selects the recipients and attempts each one's
        channels; a failed delivery is only logged and the loop goes on. */
    method SendFamilyNotifications(e: Event, reminderType: string) returns (err: Option<FamilyError>)
      modifies gateway
      ensures FamilyPlan(cfg, json, e, reminderType).Ok? ==>
        err == None && gateway.sent == old(gateway.sent) + FamilyPlan(cfg, json, e, reminderType).value
      ensures FamilyPlan(cfg, json, e, reminderType).Err? ==>
        err == Some(FamilyPlan(cfg, json, e, reminderType).error) && gateway.sent == old(gateway.sent)
    {
      if !e.notifyFamily {
        return None;
      }

      var members: seq<FamilyMember> := [];
      if e.familyMembers != "" {
        var decoded := json.members(e.familyMembers);
        if decoded.None? {
          return Some(MalformedFamilyMembers);
        }
        members := decoded.value;
      }

      var children: seq<string> := [];
      if e.selectedChildren != "" {
        var decoded := json.children(e.selectedChildren);
        if decoded.None? {
          return Some(MalformedSelectedChildren);
        }
        children := decoded.value;
      }

      var recipients: seq<FamilyMember> := [];
      if e.notifyPapa {
        recipients := AppendMembersWithRole(recipients, members, PAPA);
      }
      if e.notifyMama {
        recipients := AppendMembersWithRole(recipients, members, MAMA);
      }
      assert recipients == Recipients(members, e.notifyPapa, e.notifyMama);
      assert FamilyPlan(cfg, json, e, reminderType) == Ok(FamilySends(cfg, e, recipients, children, reminderType));
      SendToRecipients(e, recipients, children, reminderType);
      return None;
    }

    /** Primary email, then primary WhatsApp, then the family step; every
        error is swallowed and the call reports success. */
    method SendNotification(e: Event, reminderType: string) returns (err: Option<SendError>)
      modifies this, gateway
      ensures err == None
      ensures gateway.sent == old(gateway.sent) + NotificationSends(cfg, json, e, reminderType)
      ensures dispatched == old(dispatched) + [(e, reminderType)]
    {
      dispatched := dispatched + [(e, reminderType)];
      ghost var s0 := gateway.sent;
      var emailErr := SendEmailNotification(e, reminderType);
      ghost var s1 := gateway.sent;
      var whatsAppErr := SendWhatsAppNotification(e, reminderType);
      ghost var s2 := gateway.sent;
      var familyErr := SendFamilyNotifications(e, reminderType);
      ghost var family := match FamilyPlan(cfg, json, e, reminderType) case Ok(ds) => ds case Err(_) => [];
      assert gateway.sent == s2 + family;
      AppendAssoc(s0, PrimaryEmailSends(cfg, e, reminderType), PrimaryWhatsAppSends(cfg, e, reminderType));
      AppendAssoc(s0, PrimaryEmailSends(cfg, e, reminderType) + PrimaryWhatsAppSends(cfg, e, reminderType), family);
      return None;
    }
  }
}
