/** `icsGenerator.js`: the calendar invite (`METHOD:REQUEST`) and the cancellation
    (`METHOD:CANCEL`) sent with the appointment e-mails. The clock reading and the
    random UUID used when the appointment has no identifier are parameters. */
module IcsGenerator {
  import opened Text
  import opened IcsEscape
  import opened IcsDate

  datatype Client = Client(firstName: string, lastName: string, email: string)

  /** `appointment.location`: a `type` tag and the optional fields the tags use. */
  datatype Location = Location(kind: string, meetingLink: Option<string>, address: Option<string>, details: Option<string>)

  /** `appointment` (its `type` is `kind` here). */
  datatype Appointment = Appointment(
    title: string,
    kind: string,
    description: Option<string>,
    duration: int,
    startTime: Timestamp,
    endTime: Timestamp,
    location: Option<Location>)

  /** `project`: both fields optional. */
  datatype Project = Project(kind: Option<string>, description: Option<string>)

  /** The record both builders receive (`_id` is `id` here). */
  datatype AppointmentData = AppointmentData(id: Option<string>, client: Client, appointment: Appointment, project: Option<Project>)

  /** The calendar texts can be built: every `Date` the builders format holds a valid time. */
  predicate ValidDates(data: AppointmentData, now: Timestamp)
  {
    ValidTimestamp(now) && ValidTimestamp(data.appointment.startTime) && ValidTimestamp(data.appointment.endTime)
  }

  const UidDomain: string := "@leonceouattara.com"

  /** The escaped line break inside the `DESCRIPTION` value: two characters, a backslash and `n`. */
  const EscapedNewline: string := "\\n"

  const OfficeAddress: string := "Bureau Leonce Ouattara Studio, Abidjan, Côte d'Ivoire"
  const ContactLine: string := "Contact: leonce.ouattara@outlook.fr"
  const PhoneLine: string := "Téléphone: +225 05 45 13 07 39"
  /** Written in two pieces, like `ProductId` and the 15-minute reminder text: the verifier does
      not see the characters of one string literal this long, and the proofs need them. */
  const Organizer: string := "ORGANIZER;CN=Leonce Ouattara:" + "mailto:leonce.ouattara@outlook.fr"
  /** The product identifier, a formal public identifier: owner, then product, then language. */
  const ProductId: string := "PRODID:" + "-//Leonce Ouattara Studio" + "//Appointment System//FR"

  /** `${appointmentData._id || uuidv4()}@leonceouattara.com`. */
  function Uid(id: Option<string>, freshUuid: string): (r: string)
    ensures Truthy(id) ==> r == id.value + UidDomain
    ensures !Truthy(id) ==> r == freshUuid + UidDomain
  {
    OrElse(id, freshUuid) + UidDomain
  }

  /** The logical lines of the event description, before they are joined with the escaped line break. */
  function DescriptionLines(appointment: Appointment, project: Option<Project>): seq<string>
  {
    DescriptionHead(appointment) + OptionalLines(appointment, project) + DescriptionTail(appointment)
  }

  /** The greeting, a blank line and the appointment type. */
  function DescriptionHead(appointment: Appointment): seq<string>
  {
    ["Rendez-vous avec Leonce Ouattara", "", "Type: " + appointment.kind]
  }

  /** A blank line and the duration, a blank line, then the contact and telephone lines. */
  function DescriptionTail(appointment: Appointment): seq<string>
  {
    ["", "Durée: " + IntToDecimal(appointment.duration) + " minutes", "", ContactLine, PhoneLine]
  }

  /** The `DESCRIPTION` value. */
  function Description(appointment: Appointment, project: Option<Project>): string
  {
    Join(DescriptionLines(appointment, project), EscapedNewline)
  }

  /** The location switch: total over every location tag, empty only when there is no location. */
  function ResolveLocation(location: Option<Location>): (r: string)
    ensures r == "" <==> location.None?
  {
    match location
    case None => ""
    case Some(loc) =>
      if loc.kind == "online" then OrElse(loc.meetingLink, "Visioconférence (lien à venir)")
      else if loc.kind == "office" then OfficeAddress
      else if loc.kind == "client-office" then OrElse(loc.address, "Bureau client")
      else if loc.kind == "phone" then "Appel téléphonique"
      else OrElse(loc.details, "À définir")
  }

  /** The location field each tag reads, if any. */
  function NamedField(loc: Location): Option<string>
  {
    match loc.kind
    case "online" => loc.meetingLink
    case "client-office" => loc.address
    case "office" => None
    case "phone" => None
    case _ => loc.details
  }

  /** The text each tag falls back to when its field is missing or empty. */
  function Fallback(kind: string): string
  {
    match kind
    case "online" => "Visioconférence (lien à venir)"
    case "client-office" => "Bureau client"
    case "office" => OfficeAddress
    case "phone" => "Appel téléphonique"
    case _ => "À définir"
  }

  /** Reference reading of the switch: a given location yields the field its tag names when
      that field is present and non-empty, and the tag's fallback text otherwise. */
  lemma LocationByField(loc: Location)
    ensures ResolveLocation(Some(loc)) == OrElse(NamedField(loc), Fallback(loc.kind))
    ensures Truthy(NamedField(loc)) ==> ResolveLocation(Some(loc)) == NamedField(loc).value
    ensures !Truthy(NamedField(loc)) ==> ResolveLocation(Some(loc)) == Fallback(loc.kind)
  {
  }

  /** Summer time in Europe/Paris: UTC+2 from the last Sunday of March. */
  const DaylightLines: seq<string> := [
    "BEGIN:DAYLIGHT",
    "TZOFFSETFROM:+0100",
    "TZOFFSETTO:+0200",
    "TZNAME:CEST",
    "DTSTART:19700329T020000",
    "RRULE:FREQ=YEARLY;BYMONTH=3;BYDAY=-1SU",
    "END:DAYLIGHT"
  ]

  /** Winter time in Europe/Paris: UTC+1 from the last Sunday of October. */
  const StandardLines: seq<string> := [
    "BEGIN:STANDARD",
    "TZOFFSETFROM:+0200",
    "TZOFFSETTO:+0100",
    "TZNAME:CET",
    "DTSTART:19701025T030000",
    "RRULE:FREQ=YEARLY;BYMONTH=10;BYDAY=-1SU",
    "END:STANDARD"
  ]

  /** The static `VTIMEZONE` block for Europe/Paris. */
  const VTimezoneLines: seq<string> :=
    ["BEGIN:VTIMEZONE", "TZID:Europe/Paris"] + DaylightLines + StandardLines + ["END:VTIMEZONE"]

  function AttendeeName(client: Client): string
  {
    EscapeIcsValue(Some(client.firstName + " " + client.lastName))
  }

  /** The values both documents substitute into their event lines. */
  datatype EventFields = EventFields(
    uid: string,
    stamp: string,
    start: string,
    end: string,
    summary: string,
    attendeeName: string,
    email: string)

  /** `uid`, `formatICSDate(now)`, the start and end digits with the final `Z` sliced off,
      the escaped title, the escaped full name and the raw e-mail address. */
  function EventFieldsOf(data: AppointmentData, now: Timestamp, freshUuid: string): EventFields
    requires ValidDates(data, now)
  {
    EventFields(
      Uid(data.id, freshUuid),
      FormatIcsDate(now),
      LocalIcsDate(data.appointment.startTime),
      LocalIcsDate(data.appointment.endTime),
      EscapeIcsValue(Some(data.appointment.title)),
      AttendeeName(data.client),
      data.client.email)
  }

  /** The invite's event properties, `UID` to `TRANSP`, in the order of the array literal. */
  function InviteEventProperties(f: EventFields, description: string, location: string): seq<string>
  {
    ["UID:" + f.uid,
     "DTSTAMP:" + f.stamp,
     "DTSTART;TZID=Europe/Paris:" + f.start,
     "DTEND;TZID=Europe/Paris:" + f.end,
     "SUMMARY:" + f.summary,
     "DESCRIPTION:" + description,
     "LOCATION:" + location,
     Organizer,
     "ATTENDEE;CN=" + f.attendeeName + ";RSVP=TRUE:mailto:" + f.email,
     "STATUS:CONFIRMED",
     "SEQUENCE:0",
     "PRIORITY:5",
     "CLASS:PUBLIC",
     "TRANSP:OPAQUE"]
  }

  /** The two reminders of the invite, 15 minutes and 1 hour before the start. */
  const ReminderLines: seq<string> := [
    "BEGIN:VALARM",
    "TRIGGER:-PT15M",
    "ACTION:DISPLAY",
    "DESCRIPTION:" + "Rappel: Rendez-vous dans 15 minutes",
    "END:VALARM",
    "BEGIN:VALARM",
    "TRIGGER:-PT1H",
    "ACTION:DISPLAY",
    "DESCRIPTION:" + "Rappel: Rendez-vous dans 1 heure",
    "END:VALARM"
  ]

  /** The array literal of the invite, in its three runs: the calendar header with the time
      zone, the event properties, the reminders and the closing lines. `location` is the
      already escaped location text. */
  function InviteContent(f: EventFields, description: string, location: string): seq<string>
  {
    ["BEGIN:VCALENDAR",
     "VERSION:2.0",
     ProductId,
     "CALSCALE:GREGORIAN",
     "METHOD:REQUEST"]
    + VTimezoneLines
    + ["BEGIN:VEVENT"]
    + InviteEventProperties(f, description, location)
    + ReminderLines
    + ["END:VEVENT",
       "END:VCALENDAR"]
  }

  /** The lines of the invite `generateICSFile` returns. */
  function InviteLines(data: AppointmentData, now: Timestamp, freshUuid: string): seq<string>
    requires ValidDates(data, now)
  {
    InviteContent(EventFieldsOf(data, now, freshUuid), Description(data.appointment, data.project),
                  EscapeIcsValue(Some(ResolveLocation(data.appointment.location))))
  }

  /** `generateICSFile`: builds the description, picks the location, then joins the lines with CRLF. */
  method GenerateIcsFile(data: AppointmentData, now: Timestamp, freshUuid: string) returns (ics: string)
    requires ValidDates(data, now)
    ensures ics == Join(InviteLines(data, now, freshUuid), Crlf)
  {
    var uid := OrElse(data.id, freshUuid) + UidDomain;
    var description := BuildDescription(data.appointment, data.project);
    var location := PickLocation(data.appointment.location);
    var fields := EventFields(uid, FormatIcsDate(now), LocalIcsDate(data.appointment.startTime),
      LocalIcsDate(data.appointment.endTime), EscapeIcsValue(Some(data.appointment.title)),
      AttendeeName(data.client), data.client.email);
    ics := Join(InviteContent(fields, description, EscapeIcsValue(Some(location))), Crlf);
  }

  /** The description as `generateICSFile` builds it: an initial text extended by `+=` appends,
      three of them conditional on the optional fields. */
  method BuildDescription(appointment: Appointment, project: Option<Project>) returns (description: string)
    ensures description == Join(DescriptionLines(appointment, project), EscapedNewline)
  {
    ghost var head := DescriptionHead(appointment);
    description := "Rendez-vous avec Leonce Ouattara" + EscapedNewline + EscapedNewline;
    description := description + "Type: " + appointment.kind + EscapedNewline;
    HeadText(appointment.kind);
    description := AppendOptionalLines(description, head, appointment, project);
    ghost var optional := OptionalLines(appointment, project);
    ghost var before := description;
    var duration := "Durée: " + IntToDecimal(appointment.duration) + " minutes";
    description := description + EscapedNewline + duration + EscapedNewline;
    description := description + EscapedNewline + ContactLine + EscapedNewline;
    description := description + PhoneLine;
    TailText(before, head + optional, duration);
    ghost var lines := head + optional + ["", duration] + ["", ContactLine] + [PhoneLine];
    assert description == Join(lines, EscapedNewline);
    DescriptionLinesShape(appointment, project, head, optional, duration);
    assert lines == DescriptionLines(appointment, project);
  }

  /** The three conditional appends: the escaped appointment description, the project type
      and the escaped project description, each only when present and non-empty. */
  method AppendOptionalLines(d: string, ghost head: seq<string>, appointment: Appointment, project: Option<Project>)
    returns (description: string)
    requires |head| > 0 && d == Join(head, EscapedNewline) + EscapedNewline
    ensures description == Join(head + OptionalLines(appointment, project), EscapedNewline) + EscapedNewline
  {
    description := d;
    ghost var optional: seq<string> := [];
    assert head + optional == head;
    if Truthy(appointment.description) {
      var line := "Description: " + EscapeIcsValue(appointment.description);
      AppendOptional(description, head, optional, line);
      description := description + line + EscapedNewline;
      optional := optional + [line];
    }
    assert optional == OptionalDescription(appointment);
    if project.Some? && Truthy(project.value.kind) {
      var line := "Projet: " + project.value.kind.value;
      AppendOptional(description, head, optional, line);
      description := description + line + EscapedNewline;
      optional := optional + [line];
    }
    assert optional == OptionalDescription(appointment) + OptionalKind(project);
    if project.Some? && Truthy(project.value.description) {
      var line := "Détails projet: " + EscapeIcsValue(project.value.description);
      AppendOptional(description, head, optional, line);
      description := description + line + EscapedNewline;
      optional := optional + [line];
    }
    assert optional == OptionalLines(appointment, project);
  }

  /** The opening appends: the greeting, a blank line and the type, each followed by a break. */
  lemma HeadText(kind: string)
    ensures "Rendez-vous avec Leonce Ouattara" + EscapedNewline + EscapedNewline + "Type: " + kind + EscapedNewline
      == Join(["Rendez-vous avec Leonce Ouattara", "", "Type: " + kind], EscapedNewline) + EscapedNewline
  {
    var g, nl := "Rendez-vous avec Leonce Ouattara", EscapedNewline;
    AppendLine(g + nl, [g], "");
    assert g + nl + "" == g + nl;
    AppendLine(g + nl + nl, [g, ""], "Type: " + kind);
  }

  /** The closing appends: a blank line and the duration, a blank line and the contact line,
      then the telephone line with no break after it. */
  lemma TailText(d: string, lines: seq<string>, duration: string)
    requires |lines| > 0 && d == Join(lines, EscapedNewline) + EscapedNewline
    ensures d + EscapedNewline + duration + EscapedNewline + EscapedNewline + ContactLine + EscapedNewline + PhoneLine
      == Join(lines + ["", duration] + ["", ContactLine] + [PhoneLine], EscapedNewline)
  {
    AppendBlankAndLine(d, lines, duration);
    var d2 := d + EscapedNewline + duration + EscapedNewline;
    AppendBlankAndLine(d2, lines + ["", duration], ContactLine);
    JoinSnoc(lines + ["", duration] + ["", ContactLine], PhoneLine, EscapedNewline);
  }

  /** The lines the three conditional appends add. */
  function OptionalLines(appointment: Appointment, project: Option<Project>): seq<string>
  {
    OptionalDescription(appointment) + OptionalKind(project) + OptionalDetails(project)
  }

  function OptionalDescription(appointment: Appointment): seq<string>
  {
    if Truthy(appointment.description) then ["Description: " + EscapeIcsValue(appointment.description)] else []
  }

  function OptionalKind(project: Option<Project>): seq<string>
  {
    if project.Some? && Truthy(project.value.kind) then ["Projet: " + project.value.kind.value] else []
  }

  function OptionalDetails(project: Option<Project>): seq<string>
  {
    if project.Some? && Truthy(project.value.description)
    then ["Détails projet: " + EscapeIcsValue(project.value.description)] else []
  }

  /** One `+=` of a line followed by the escaped line break keeps the text equal to the
      joined lines plus a trailing break. */
  lemma AppendLine(d: string, lines: seq<string>, line: string)
    requires |lines| > 0 && d == Join(lines, EscapedNewline) + EscapedNewline
    ensures d + line + EscapedNewline == Join(lines + [line], EscapedNewline) + EscapedNewline
  {
    JoinSnoc(lines, line, EscapedNewline);
  }

  /** The same, for the optional lines that follow the fixed head of the description. */
  lemma AppendOptional(d: string, head: seq<string>, optional: seq<string>, line: string)
    requires |head| > 0 && d == Join(head + optional, EscapedNewline) + EscapedNewline
    ensures d + line + EscapedNewline == Join(head + (optional + [line]), EscapedNewline) + EscapedNewline
  {
    AppendLine(d, head + optional, line);
    assert head + optional + [line] == head + (optional + [line]);
  }

  /** An append that starts with a break adds an empty line before the new one. */
  lemma AppendBlankAndLine(d: string, lines: seq<string>, line: string)
    requires |lines| > 0 && d == Join(lines, EscapedNewline) + EscapedNewline
    ensures d + EscapedNewline + line + EscapedNewline == Join(lines + ["", line], EscapedNewline) + EscapedNewline
  {
    AppendLine(d, lines, "");
    assert d + "" == d;
    AppendLine(d + EscapedNewline, lines + [""], line);
    assert lines + [""] + [line] == lines + ["", line];
  }

  /** The line list the appends produce is the description's line list. */
  lemma DescriptionLinesShape(appointment: Appointment, project: Option<Project>, head: seq<string>, optional: seq<string>, duration: string)
    requires head == DescriptionHead(appointment)
    requires optional == OptionalLines(appointment, project)
    requires duration == "Durée: " + IntToDecimal(appointment.duration) + " minutes"
    ensures head + optional + ["", duration] + ["", ContactLine] + [PhoneLine] == DescriptionLines(appointment, project)
  {
    var x := head + optional;
    assert x + ["", duration] + ["", ContactLine] + [PhoneLine] == x + ["", duration, "", ContactLine, PhoneLine];
  }

  /** The location as `generateICSFile` picks it: empty unless a location is given, then a
      `switch` on its tag. */
  method PickLocation(location: Option<Location>) returns (text: string)
    ensures text == ResolveLocation(location)
  {
    text := "";
    if location.Some? {
      var loc := location.value;
      if loc.kind == "online" {
        text := OrElse(loc.meetingLink, "Visioconférence (lien à venir)");
      } else if loc.kind == "office" {
        text := OfficeAddress;
      } else if loc.kind == "client-office" {
        text := OrElse(loc.address, "Bureau client");
      } else if loc.kind == "phone" {
        text := "Appel téléphonique";
      } else {
        text := OrElse(loc.details, "À définir");
      }
    }
  }

  /** The cancellation's event properties, `UID` to `SEQUENCE`, in the order of the array literal. */
  function CancellationEventProperties(f: EventFields): seq<string>
  {
    ["UID:" + f.uid,
     "DTSTAMP:" + f.stamp,
     "DTSTART;TZID=Europe/Paris:" + f.start,
     "DTEND;TZ ID=Europe/Paris:" + f.end,
     "SUMMARY:ANNULÉ: " + f.summary,
     Organizer,
     "ATTENDEE;CN=" + f.attendeeName + ":mailto:" + f.email,
     "STATUS:CANCELLED",
     "SEQUENCE:1"]
  }

  /** The array literal of the cancellation. */
  function CancellationContent(f: EventFields): seq<string>
  {
    ["BEGIN:VCALENDAR",
     "VERSION:2.0",
     ProductId,
     "CALSCALE:GREGORIAN",
     "METHOD:CANCEL",
     "BEGIN:VEVENT"]
    + CancellationEventProperties(f)
    + ["END:VEVENT",
       "END:VCALENDAR"]
  }

  /** The lines of the cancellation `generateCancellationICS` returns. */
  function CancellationLines(data: AppointmentData, now: Timestamp, freshUuid: string): seq<string>
    requires ValidDates(data, now)
  {
    CancellationContent(EventFieldsOf(data, now, freshUuid))
  }

  /** `generateCancellationICS`. */
  function GenerateCancellationIcs(data: AppointmentData, now: Timestamp, freshUuid: string): (ics: string)
    requires ValidDates(data, now)
    ensures ics == Join(CancellationLines(data, now, freshUuid), Crlf)
    ensures StartsWith(ics, "BEGIN:VCALENDAR" + Crlf) && EndsWith(ics, Crlf + "END:VCALENDAR")
  {
    CancellationFrame(EventFieldsOf(data, now, freshUuid));
    Join(CancellationLines(data, now, freshUuid), Crlf)
  }

  /** The cancellation's first line opens the calendar and its last line closes it. */
  lemma CancellationFrame(f: EventFields)
    ensures StartsWith(Join(CancellationContent(f), Crlf), "BEGIN:VCALENDAR" + Crlf)
    ensures EndsWith(Join(CancellationContent(f), Crlf), Crlf + "END:VCALENDAR")
  {
    JoinFrame(CancellationContent(f), Crlf);
  }
}
