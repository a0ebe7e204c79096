/** Properties of the two calendar documents of `icsGenerator.js`: each flat line list is
    the rendering of a component tree, hence balanced, with the expected number of each
    component; the fields sit on the expected lines; the lines survive the CRLF join. */
module IcsDocuments {
  import opened Text
  import opened IcsEscape
  import opened IcsDate
  import opened IcsStructure
  import opened IcsGenerator

  // ---------------------------------------------------------------------------------------
  // The invite as a component tree

  /** A display reminder, from its `TRIGGER` and `DESCRIPTION` lines. */
  function Alarm(trigger: string, text: string): Component
  {
    Component("VALARM", [trigger, "ACTION:DISPLAY", text], [])
  }

  const Daylight: Component := Component("DAYLIGHT", [
    "TZOFFSETFROM:+0100",
    "TZOFFSETTO:+0200",
    "TZNAME:CEST",
    "DTSTART:19700329T020000",
    "RRULE:FREQ=YEARLY;BYMONTH=3;BYDAY=-1SU"], [])

  const Standard: Component := Component("STANDARD", [
    "TZOFFSETFROM:+0200",
    "TZOFFSETTO:+0100",
    "TZNAME:CET",
    "DTSTART:19701025T030000",
    "RRULE:FREQ=YEARLY;BYMONTH=10;BYDAY=-1SU"], [])

  /** Europe/Paris with its summer (last Sunday of March) and winter (last Sunday of October) rules. */
  const Timezone: Component := Component("VTIMEZONE", ["TZID:Europe/Paris"], [Daylight, Standard])

  /** The calendar: its header properties, the time zone, and one event with a reminder
      15 minutes and one 1 hour before the start. */
  function InviteTree(f: EventFields, description: string, location: string): Component
  {
    Component("VCALENDAR", ["VERSION:2.0", ProductId, "CALSCALE:GREGORIAN", "METHOD:REQUEST"],
      [Timezone, Component("VEVENT", InviteEventProperties(f, description, location), Reminders)])
  }

  lemma TimezoneRendered()
    ensures Render(Timezone) == VTimezoneLines
  {
    RenderLeaf("DAYLIGHT", Daylight.properties);
    RenderLeaf("STANDARD", Standard.properties);
    RenderAllTwo(Daylight, Standard);
    assert "BEGIN:" + "DAYLIGHT" == "BEGIN:DAYLIGHT" && "END:" + "DAYLIGHT" == "END:DAYLIGHT";
    assert "BEGIN:" + "STANDARD" == "BEGIN:STANDARD" && "END:" + "STANDARD" == "END:STANDARD";
    assert "BEGIN:" + "VTIMEZONE" == "BEGIN:VTIMEZONE" && "END:" + "VTIMEZONE" == "END:VTIMEZONE";
  }

  lemma TimezoneWellFormed()
    ensures WellFormed(Timezone)
  {
    assert PropertyLines(Daylight.properties) && PropertyLines(Standard.properties);
    assert AllWellFormed(Daylight.subcomponents) && AllWellFormed(Standard.subcomponents);
    AllWellFormedTwo(Daylight, Standard);
  }

  lemma AlarmRendered(trigger: string, text: string)
    requires |trigger| > 0 && trigger[0] == 'T' && |text| > 0 && text[0] == 'D'
    ensures Render(Alarm(trigger, text)) == ["BEGIN:VALARM", trigger, "ACTION:DISPLAY", text, "END:VALARM"]
    ensures WellFormed(Alarm(trigger, text))
  {
    RenderLeaf("VALARM", Alarm(trigger, text).properties);
    assert "BEGIN:" + "VALARM" == "BEGIN:VALARM";
    assert "END:" + "VALARM" == "END:VALARM";
  }

  const Reminders: seq<Component> :=
    [Alarm("TRIGGER:-PT15M", "DESCRIPTION:" + "Rappel: Rendez-vous dans 15 minutes"),
     Alarm("TRIGGER:-PT1H", "DESCRIPTION:" + "Rappel: Rendez-vous dans 1 heure")]

  lemma RemindersRendered()
    ensures RenderAll(Reminders) == ReminderLines
    ensures AllWellFormed(Reminders)
  {
    var a, b := Reminders[0], Reminders[1];
    AlarmRendered("TRIGGER:-PT15M", "DESCRIPTION:" + "Rappel: Rendez-vous dans 15 minutes");
    AlarmRendered("TRIGGER:-PT1H", "DESCRIPTION:" + "Rappel: Rendez-vous dans 1 heure");
    RenderAllTwo(a, b);
    assert AllWellFormed([a, b]);
  }

  lemma EventRendered(ps: seq<string>)
    requires PropertyLines(ps)
    ensures Render(Component("VEVENT", ps, Reminders)) == ["BEGIN:VEVENT"] + ps + ReminderLines + ["END:VEVENT"]
    ensures WellFormed(Component("VEVENT", ps, Reminders))
  {
    RemindersRendered();
    assert "BEGIN:" + "VEVENT" == "BEGIN:VEVENT" && "END:" + "VEVENT" == "END:VEVENT";
  }

  lemma InviteEventPropertyLines(f: EventFields, description: string, location: string)
    ensures PropertyLines(InviteEventProperties(f, description, location))
  {
    var ps := InviteEventProperties(f, description, location);
    assert ps[0][0] == 'U' && ps[1][0] == 'D' && ps[2][0] == 'D' && ps[3][0] == 'D' && ps[4][0] == 'S';
    assert ps[5][0] == 'D' && ps[6][0] == 'L' && ps[7][0] == 'O' && ps[8][0] == 'A' && ps[9][0] == 'S';
  }

  /** The invite's flat line list is the rendering of the invite tree. */
  lemma InviteRendered(f: EventFields, description: string, location: string)
    ensures InviteContent(f, description, location) == Render(InviteTree(f, description, location))
  {
    var ps := InviteEventProperties(f, description, location);
    TimezoneRendered();
    InviteEventPropertyLines(f, description, location);
    EventRendered(ps);
    RenderAllTwo(Timezone, Component("VEVENT", ps, Reminders));
    assert "BEGIN:" + "VCALENDAR" == "BEGIN:VCALENDAR" && "END:" + "VCALENDAR" == "END:VCALENDAR";
  }

  lemma InviteWellFormed(f: EventFields, description: string, location: string)
    ensures WellFormed(InviteTree(f, description, location))
  {
    var ps := InviteEventProperties(f, description, location);
    TimezoneWellFormed();
    InviteEventPropertyLines(f, description, location);
    EventRendered(ps);
    AllWellFormedTwo(Timezone, Component("VEVENT", ps, Reminders));
    assert PropertyLines(["VERSION:2.0", ProductId, "CALSCALE:GREGORIAN", "METHOD:REQUEST"]);
  }

  lemma OccurrencesAllTwo(a: Component, b: Component, x: string)
    ensures OccurrencesAll([a, b], x) == Occurrences(a, x) + Occurrences(b, x)
  {
    assert [a, b][1..] == [b];
    assert [b][1..] == [];
    assert OccurrencesAll([b], x) == Occurrences(b, x) + OccurrencesAll([], x);
  }

  /** The invite tree holds one calendar, one time zone, one event and two reminders. */
  lemma InviteOccurrences(f: EventFields, description: string, location: string)
    ensures Occurrences(InviteTree(f, description, location), "VCALENDAR") == 1
    ensures Occurrences(InviteTree(f, description, location), "VTIMEZONE") == 1
    ensures Occurrences(InviteTree(f, description, location), "VEVENT") == 1
    ensures Occurrences(InviteTree(f, description, location), "VALARM") == 2
  {
    var ev := Component("VEVENT", InviteEventProperties(f, description, location), Reminders);
    var names := ["VCALENDAR", "VTIMEZONE", "VEVENT", "VALARM"];
    forall x | x in names
      ensures Occurrences(InviteTree(f, description, location), x) ==
        Occurrences(Timezone, x) + Occurrences(ev, x) + (if x == "VCALENDAR" then 1 else 0)
    {
      OccurrencesAllTwo(Timezone, ev, x);
    }
    forall x | x in names
      ensures Occurrences(Timezone, x) == if x == "VTIMEZONE" then 1 else 0
      ensures Occurrences(ev, x) == (if x == "VEVENT" then 1 else 0) + (if x == "VALARM" then 2 else 0)
    {
      OccurrencesAllTwo(Daylight, Standard, x);
      OccurrencesAllTwo(Reminders[0], Reminders[1], x);
    }
  }

  /** The invite, for any field values: balanced, one calendar holding the time zone and one
      event, the event holding exactly two reminders. */
  lemma InviteBalanced(f: EventFields, description: string, location: string)
    ensures Balanced(InviteContent(f, description, location))
  {
    InviteRendered(f, description, location);
    InviteWellFormed(f, description, location);
    RenderBalanced(InviteTree(f, description, location));
  }

  lemma InviteCount(f: EventFields, description: string, location: string, x: string)
    ensures Count(InviteContent(f, description, location), "BEGIN:" + x) == Occurrences(InviteTree(f, description, location), x)
  {
    InviteRendered(f, description, location);
    InviteWellFormed(f, description, location);
    CountBegins(InviteTree(f, description, location), x);
  }

  lemma InviteComponents(f: EventFields, description: string, location: string)
    ensures Balanced(InviteContent(f, description, location))
    ensures Count(InviteContent(f, description, location), "BEGIN:VCALENDAR") == 1
    ensures Count(InviteContent(f, description, location), "BEGIN:VTIMEZONE") == 1
    ensures Count(InviteContent(f, description, location), "BEGIN:VEVENT") == 1
    ensures Count(InviteContent(f, description, location), "BEGIN:VALARM") == 2
  {
    assert "BEGIN:" + "VCALENDAR" == "BEGIN:VCALENDAR" && "BEGIN:" + "VTIMEZONE" == "BEGIN:VTIMEZONE";
    assert "BEGIN:" + "VEVENT" == "BEGIN:VEVENT" && "BEGIN:" + "VALARM" == "BEGIN:VALARM";
    InviteBalanced(f, description, location);
    InviteOccurrences(f, description, location);
    InviteCount(f, description, location, "VCALENDAR");
    InviteCount(f, description, location, "VTIMEZONE");
    InviteCount(f, description, location, "VEVENT");
    InviteCount(f, description, location, "VALARM");
  }

  /** Where the invite's lines sit: 49 lines, the method, the event and its two reminders
      with their triggers, the status and sequence, and each substituted value. */
  lemma InviteLayout(f: EventFields, description: string, location: string)
    ensures |InviteContent(f, description, location)| == 49
    ensures var lines := InviteContent(f, description, location);
      lines[4] == "METHOD:REQUEST" && lines[22] == "BEGIN:VEVENT" && lines[47] == "END:VEVENT"
      && lines[37] == "BEGIN:VALARM" && lines[38] == "TRIGGER:-PT15M" && lines[41] == "END:VALARM"
      && lines[42] == "BEGIN:VALARM" && lines[43] == "TRIGGER:-PT1H" && lines[46] == "END:VALARM"
      && lines[32] == "STATUS:CONFIRMED" && lines[33] == "SEQUENCE:0" && lines[48] == "END:VCALENDAR"
    ensures var lines := InviteContent(f, description, location);
      lines[23] == "UID:" + f.uid && lines[24] == "DTSTAMP:" + f.stamp
      && lines[25] == "DTSTART;TZID=Europe/Paris:" + f.start && lines[26] == "DTEND;TZID=Europe/Paris:" + f.end
      && lines[27] == "SUMMARY:" + f.summary && lines[28] == "DESCRIPTION:" + description
      && lines[29] == "LOCATION:" + location
      && lines[31] == "ATTENDEE;CN=" + f.attendeeName + ";RSVP=TRUE:mailto:" + f.email
  {
  }

  // ---------------------------------------------------------------------------------------
  // The cancellation as a component tree

  /** The calendar: its header properties and one event without reminders; no time zone. */
  function CancellationTree(f: EventFields): Component
  {
    Component("VCALENDAR", ["VERSION:2.0", ProductId, "CALSCALE:GREGORIAN", "METHOD:CANCEL"],
      [Component("VEVENT", CancellationEventProperties(f), [])])
  }

  lemma CancellationEventPropertyLines(f: EventFields)
    ensures PropertyLines(CancellationEventProperties(f))
  {
    var ps := CancellationEventProperties(f);
    assert ps[0][0] == 'U' && ps[1][0] == 'D' && ps[2][0] == 'D' && ps[3][0] == 'D' && ps[4][0] == 'S';
    assert ps[5][0] == 'O' && ps[6][0] == 'A' && ps[7][0] == 'S' && ps[8][0] == 'S';
  }

  /** The cancellation's flat line list is the rendering of the cancellation tree. */
  lemma CancellationRendered(f: EventFields)
    ensures CancellationContent(f) == Render(CancellationTree(f))
    ensures WellFormed(CancellationTree(f))
  {
    var ev := Component("VEVENT", CancellationEventProperties(f), []);
    CancellationEventPropertyLines(f);
    RenderLeaf("VEVENT", CancellationEventProperties(f));
    RenderAllOne(ev);
    assert "BEGIN:" + "VEVENT" == "BEGIN:VEVENT" && "END:" + "VEVENT" == "END:VEVENT";
    assert "BEGIN:" + "VCALENDAR" == "BEGIN:VCALENDAR" && "END:" + "VCALENDAR" == "END:VCALENDAR";
    assert PropertyLines(["VERSION:2.0", ProductId, "CALSCALE:GREGORIAN", "METHOD:CANCEL"]);
    assert AllWellFormed([ev]);
  }

  /** The cancellation tree holds one calendar and one event, and no time zone and no reminder. */
  lemma CancellationOccurrences(f: EventFields, x: string)
    ensures Occurrences(CancellationTree(f), x) ==
      (if x == "VCALENDAR" then 1 else 0) + (if x == "VEVENT" then 1 else 0)
  {
    var ev := Component("VEVENT", CancellationEventProperties(f), []);
    assert [ev][1..] == [];
    assert OccurrencesAll([ev], x) == Occurrences(ev, x) + OccurrencesAll([], x);
  }

  /** The cancellation, for any field values: balanced, one event, no `VALARM` and no
      `VTIMEZONE` although its start and end name `TZID=Europe/Paris`. */
  lemma CancellationComponents(f: EventFields)
    ensures Balanced(CancellationContent(f))
    ensures Count(CancellationContent(f), "BEGIN:VCALENDAR") == 1
    ensures Count(CancellationContent(f), "BEGIN:VEVENT") == 1
    ensures Count(CancellationContent(f), "BEGIN:VALARM") == 0
    ensures Count(CancellationContent(f), "BEGIN:VTIMEZONE") == 0
  {
    assert "BEGIN:" + "VCALENDAR" == "BEGIN:VCALENDAR" && "BEGIN:" + "VTIMEZONE" == "BEGIN:VTIMEZONE";
    assert "BEGIN:" + "VEVENT" == "BEGIN:VEVENT" && "BEGIN:" + "VALARM" == "BEGIN:VALARM";
    var tree := CancellationTree(f);
    CancellationRendered(f);
    RenderBalanced(tree);
    CancellationOccurrences(f, "VCALENDAR");
    CancellationOccurrences(f, "VEVENT");
    CancellationOccurrences(f, "VALARM");
    CancellationOccurrences(f, "VTIMEZONE");
    CountBegins(tree, "VCALENDAR");
    CountBegins(tree, "VEVENT");
    CountBegins(tree, "VALARM");
    CountBegins(tree, "VTIMEZONE");
  }

  /** Where the cancellation's lines sit, and that none of them is a `DESCRIPTION`. */
  lemma CancellationLayout(f: EventFields)
    ensures |CancellationContent(f)| == 17
    ensures var lines := CancellationContent(f);
      lines[4] == "METHOD:CANCEL" && lines[5] == "BEGIN:VEVENT" && lines[13] == "STATUS:CANCELLED"
      && lines[14] == "SEQUENCE:1" && lines[15] == "END:VEVENT" && lines[16] == "END:VCALENDAR"
    ensures var lines := CancellationContent(f);
      lines[6] == "UID:" + f.uid && lines[7] == "DTSTAMP:" + f.stamp
      && lines[8] == "DTSTART;TZID=Europe/Paris:" + f.start && lines[9] == "DTEND;TZ ID=Europe/Paris:" + f.end
      && lines[10] == "SUMMARY:ANNULÉ: " + f.summary
      && lines[12] == "ATTENDEE;CN=" + f.attendeeName + ":mailto:" + f.email
    ensures forall i :: 0 <= i < |CancellationContent(f)| ==> !StartsWith(CancellationContent(f)[i], "DESCRIPTION")
  {
    var lines := CancellationContent(f);
    forall i | 0 <= i < |lines| ensures !StartsWith(lines[i], "DESCRIPTION") {
      if 7 <= i <= 9 {
        assert lines[i][1] == 'T';
        DiffersAt(lines[i], "DESCRIPTION", 1);
      } else {
        assert |lines[i]| > 0 && lines[i][0] != 'D';
        DiffersAt(lines[i], "DESCRIPTION", 0);
      }
    }
  }

  // ---------------------------------------------------------------------------------------
  // The texts: CRLF-joined lines that a reader splits back into the same lines

  lemma DaylightOneLine()
    ensures OneLineEach(DaylightLines)
  {
    assert NoLineBreak(DaylightLines[0]) && NoLineBreak(DaylightLines[1]) && NoLineBreak(DaylightLines[2]) && NoLineBreak(DaylightLines[3]);
    assert NoLineBreak(DaylightLines[4]) && NoLineBreak(DaylightLines[5]) && NoLineBreak(DaylightLines[6]);
  }

  lemma StandardOneLine()
    ensures OneLineEach(StandardLines)
  {
    assert NoLineBreak(StandardLines[0]) && NoLineBreak(StandardLines[1]) && NoLineBreak(StandardLines[2]) && NoLineBreak(StandardLines[3]);
    assert NoLineBreak(StandardLines[4]) && NoLineBreak(StandardLines[5]) && NoLineBreak(StandardLines[6]);
  }

  lemma TimezoneOneLine()
    ensures OneLineEach(VTimezoneLines)
  {
    var head := ["BEGIN:VTIMEZONE", "TZID:Europe/Paris"];
    assert OneLineEach(head) && OneLineEach(["END:VTIMEZONE"]);
    DaylightOneLine();
    StandardOneLine();
    OneLineEachConcat(head, DaylightLines);
    OneLineEachConcat(head + DaylightLines, StandardLines);
    OneLineEachConcat(head + DaylightLines + StandardLines, ["END:VTIMEZONE"]);
  }

  lemma RemindersOneLine()
    ensures OneLineEach(ReminderLines)
  {
    var r := ReminderLines;
    NoLineBreakConcat("DESCRIPTION:", "Rappel: Rendez-vous dans 15 minutes");
    NoLineBreakConcat("DESCRIPTION:", "Rappel: Rendez-vous dans 1 heure");
    assert NoLineBreak("BEGIN:VALARM") && NoLineBreak("END:VALARM");
    assert NoLineBreak("TRIGGER:-PT15M") && NoLineBreak("TRIGGER:-PT1H") && NoLineBreak("ACTION:DISPLAY");
  }

  lemma HeaderOneLine(methodLine: string)
    requires methodLine == "METHOD:REQUEST" || methodLine == "METHOD:CANCEL"
    ensures OneLineEach(["BEGIN:VCALENDAR", "VERSION:2.0", ProductId, "CALSCALE:GREGORIAN", methodLine])
  {
    NoLineBreakConcat("PRODID:", "-//Leonce Ouattara Studio");
    NoLineBreakConcat("PRODID:" + "-//Leonce Ouattara Studio", "//Appointment System//FR");
    assert NoLineBreak("BEGIN:VCALENDAR") && NoLineBreak("VERSION:2.0") && NoLineBreak("CALSCALE:GREGORIAN");
    assert NoLineBreak("METHOD:REQUEST") && NoLineBreak("METHOD:CANCEL");
  }

  lemma OrganizerOneLine()
    ensures NoLineBreak(Organizer)
  {
    NoLineBreakConcat("ORGANIZER;CN=Leonce Ouattara:", "mailto:leonce.ouattara@outlook.fr");
  }

  /** The fields both documents substitute, free of line breaks. */
  predicate OneLineFields(f: EventFields)
  {
    NoLineBreak(f.uid) && NoLineBreak(f.stamp) && NoLineBreak(f.start) && NoLineBreak(f.end)
    && NoLineBreak(f.summary) && NoLineBreak(f.attendeeName) && NoLineBreak(f.email)
  }

  lemma InviteDatesOneLine(f: EventFields)
    requires OneLineFields(f)
    ensures NoLineBreak("UID:" + f.uid) && NoLineBreak("DTSTAMP:" + f.stamp)
    ensures NoLineBreak("DTSTART;TZID=Europe/Paris:" + f.start) && NoLineBreak("DTEND;TZID=Europe/Paris:" + f.end)
  {
    NoLineBreakConcat("UID:", f.uid);
    NoLineBreakConcat("DTSTAMP:", f.stamp);
    NoLineBreakConcat("DTSTART;TZID=Europe/Paris:", f.start);
    NoLineBreakConcat("DTEND;TZID=Europe/Paris:", f.end);
  }

  lemma InviteTextsOneLine(f: EventFields, description: string, location: string)
    requires OneLineFields(f) && NoLineBreak(description) && NoLineBreak(location)
    ensures NoLineBreak("SUMMARY:" + f.summary) && NoLineBreak("DESCRIPTION:" + description)
    ensures NoLineBreak("LOCATION:" + location)
    ensures NoLineBreak("ATTENDEE;CN=" + f.attendeeName + ";RSVP=TRUE:mailto:" + f.email)
  {
    NoLineBreakConcat("SUMMARY:", f.summary);
    NoLineBreakConcat("DESCRIPTION:", description);
    NoLineBreakConcat("LOCATION:", location);
    NoLineBreakConcat("ATTENDEE;CN=", f.attendeeName);
    NoLineBreakConcat("ATTENDEE;CN=" + f.attendeeName, ";RSVP=TRUE:mailto:");
    NoLineBreakConcat("ATTENDEE;CN=" + f.attendeeName + ";RSVP=TRUE:mailto:", f.email);
  }

  lemma InviteOneLine(f: EventFields, description: string, location: string)
    requires OneLineFields(f) && NoLineBreak(description) && NoLineBreak(location)
    ensures OneLineEach(InviteContent(f, description, location))
  {
    var header := ["BEGIN:VCALENDAR", "VERSION:2.0", ProductId, "CALSCALE:GREGORIAN", "METHOD:REQUEST"];
    HeaderOneLine("METHOD:REQUEST");
    TimezoneOneLine();
    OneLineEachConcat(header, VTimezoneLines);
    assert NoLineBreak("BEGIN:VEVENT") && NoLineBreak("END:VEVENT") && NoLineBreak("END:VCALENDAR");
    OneLineEachConcat(header + VTimezoneLines, ["BEGIN:VEVENT"]);
    var ps := InviteEventProperties(f, description, location);
    InviteDatesOneLine(f);
    InviteTextsOneLine(f, description, location);
    assert NoLineBreak("STATUS:CONFIRMED") && NoLineBreak("SEQUENCE:0") && NoLineBreak("PRIORITY:5");
    assert NoLineBreak("CLASS:PUBLIC") && NoLineBreak("TRANSP:OPAQUE");
    OrganizerOneLine();
    assert OneLineEach(ps);
    OneLineEachConcat(header + VTimezoneLines + ["BEGIN:VEVENT"], ps);
    RemindersOneLine();
    OneLineEachConcat(header + VTimezoneLines + ["BEGIN:VEVENT"] + ps, ReminderLines);
    OneLineEachConcat(header + VTimezoneLines + ["BEGIN:VEVENT"] + ps + ReminderLines, ["END:VEVENT", "END:VCALENDAR"]);
  }

  lemma CancellationTextsOneLine(f: EventFields)
    requires OneLineFields(f)
    ensures NoLineBreak("DTEND;TZ ID=Europe/Paris:" + f.end) && NoLineBreak("SUMMARY:ANNULÉ: " + f.summary)
    ensures NoLineBreak("ATTENDEE;CN=" + f.attendeeName + ":mailto:" + f.email)
    ensures NoLineBreak("STATUS:CANCELLED") && NoLineBreak("SEQUENCE:1")
  {
    NoLineBreakConcat("DTEND;TZ ID=Europe/Paris:", f.end);
    NoLineBreakConcat("SUMMARY:ANNULÉ: ", f.summary);
    NoLineBreakConcat("ATTENDEE;CN=", f.attendeeName);
    NoLineBreakConcat("ATTENDEE;CN=" + f.attendeeName, ":mailto:");
    NoLineBreakConcat("ATTENDEE;CN=" + f.attendeeName + ":mailto:", f.email);
  }

  lemma CancellationOneLine(f: EventFields)
    requires OneLineFields(f)
    ensures OneLineEach(CancellationContent(f))
  {
    var header := ["BEGIN:VCALENDAR", "VERSION:2.0", ProductId, "CALSCALE:GREGORIAN", "METHOD:CANCEL"];
    HeaderOneLine("METHOD:CANCEL");
    assert NoLineBreak("BEGIN:VEVENT") && NoLineBreak("END:VEVENT") && NoLineBreak("END:VCALENDAR");
    OneLineEachConcat(header, ["BEGIN:VEVENT"]);
    var ps := CancellationEventProperties(f);
    InviteDatesOneLine(f);
    CancellationTextsOneLine(f);
    OrganizerOneLine();
    assert OneLineEach(ps);
    OneLineEachConcat(header + ["BEGIN:VEVENT"], ps);
    OneLineEachConcat(header + ["BEGIN:VEVENT"] + ps, ["END:VEVENT", "END:VCALENDAR"]);
  }

  // ---------------------------------------------------------------------------------------
  // The description

  lemma CountPrefixedOne(l: string, p: string)
    ensures CountPrefixed([l], p) == if StartsWith(l, p) then 1 else 0
  {
    assert [l][1..] == [];
  }

  lemma CountPrefixedOptional(present: bool, l: string, p: string)
    ensures CountPrefixed(if present then [l] else [], p) == if present && StartsWith(l, p) then 1 else 0
  {
    if present { CountPrefixedOne(l, p); }
  }

  /** None of the fixed lines of the description is one of the optional lines. */
  lemma FixedLinesNotOptional(appointment: Appointment, p: string)
    requires p == "Description: " || p == "Projet: " || p == "Détails projet: "
    ensures CountPrefixed(DescriptionHead(appointment), p) == 0
    ensures CountPrefixed(DescriptionTail(appointment), p) == 0
  {
    var head, tail := DescriptionHead(appointment), DescriptionTail(appointment);
    DiffersAt(head[0], p, 0);
    DiffersAt(head[1], p, 0);
    DiffersAt(head[2], p, 0);
    CountPrefixedNone(head, p);
    DiffersAt(tail[0], p, 0);
    if p == "Projet: " { DiffersAt(tail[1], p, 0); } else { DiffersAt(tail[1], p, 1); }
    DiffersAt(tail[2], p, 0);
    DiffersAt(tail[3], p, 0);
    DiffersAt(tail[4], p, 0);
    CountPrefixedNone(tail, p);
  }

  /** The three optional lines, with the value each would carry. */
  function OptionalLineTexts(appointment: Appointment, project: Option<Project>): (string, string, string)
  {
    ("Description: " + EscapeIcsValue(appointment.description),
     "Projet: " + (if project.Some? && Truthy(project.value.kind) then project.value.kind.value else ""),
     "Détails projet: " + EscapeIcsValue(if project.Some? then project.value.description else None))
  }

  lemma OptionalCount(appointment: Appointment, project: Option<Project>, p: string)
    requires p == "Description: " || p == "Projet: " || p == "Détails projet: "
    ensures var (l1, l2, l3) := OptionalLineTexts(appointment, project);
      CountPrefixed(DescriptionLines(appointment, project), p) ==
        (if Truthy(appointment.description) && StartsWith(l1, p) then 1 else 0)
        + (if project.Some? && Truthy(project.value.kind) && StartsWith(l2, p) then 1 else 0)
        + (if project.Some? && Truthy(project.value.description) && StartsWith(l3, p) then 1 else 0)
  {
    var head, tail := DescriptionHead(appointment), DescriptionTail(appointment);
    var t1, t2, t3 := Truthy(appointment.description), project.Some? && Truthy(project.value.kind),
      project.Some? && Truthy(project.value.description);
    var (l1, l2, l3) := OptionalLineTexts(appointment, project);
    var o1, o2, o3 := (if t1 then [l1] else []), (if t2 then [l2] else []), (if t3 then [l3] else []);
    assert OptionalLines(appointment, project) == o1 + o2 + o3;
    FixedLinesNotOptional(appointment, p);
    CountPrefixedMiddle(head, o1 + o2 + o3, tail, p);
    CountPrefixedConcat(o1, o2, p);
    CountPrefixedConcat(o1 + o2, o3, p);
    CountPrefixedOptional(t1, l1, p);
    CountPrefixedOptional(t2, l2, p);
    CountPrefixedOptional(t3, l3, p);
  }

  /** The `Description:`, `Projet:` and `Détails projet:` lines each appear once when the
      matching field is present and non-empty, and not at all otherwise. */
  lemma DescriptionOptionalLines(appointment: Appointment, project: Option<Project>)
    ensures CountPrefixed(DescriptionLines(appointment, project), "Description: ") ==
      if Truthy(appointment.description) then 1 else 0
    ensures CountPrefixed(DescriptionLines(appointment, project), "Projet: ") ==
      if project.Some? && Truthy(project.value.kind) then 1 else 0
    ensures CountPrefixed(DescriptionLines(appointment, project), "Détails projet: ") ==
      if project.Some? && Truthy(project.value.description) then 1 else 0
  {
    OptionalCount(appointment, project, "Description: ");
    OptionalCount(appointment, project, "Projet: ");
    OptionalCount(appointment, project, "Détails projet: ");
    OptionalLinePrefixes(appointment, project);
  }

  lemma OptionalLinePrefixes(appointment: Appointment, project: Option<Project>)
    ensures var (l1, l2, l3) := OptionalLineTexts(appointment, project);
      StartsWith(l1, "Description: ") && !StartsWith(l1, "Projet: ") && !StartsWith(l1, "Détails projet: ")
      && StartsWith(l2, "Projet: ") && !StartsWith(l2, "Description: ") && !StartsWith(l2, "Détails projet: ")
      && StartsWith(l3, "Détails projet: ") && !StartsWith(l3, "Description: ") && !StartsWith(l3, "Projet: ")
  {
    var (l1, l2, l3) := OptionalLineTexts(appointment, project);
    StartsWithConcat("Description: ", EscapeIcsValue(appointment.description));
    StartsWithConcat("Projet: ", if project.Some? && Truthy(project.value.kind) then project.value.kind.value else "");
    StartsWithConcat("Détails projet: ", EscapeIcsValue(if project.Some? then project.value.description else None));
    DiffersAt(l1, "Projet: ", 0);
    DiffersAt(l1, "Détails projet: ", 1);
    DiffersAt(l2, "Description: ", 0);
    DiffersAt(l2, "Détails projet: ", 0);
    DiffersAt(l3, "Description: ", 1);
    DiffersAt(l3, "Projet: ", 0);
  }

  lemma DescriptionHeadOneLine(appointment: Appointment)
    requires NoLineBreak(appointment.kind)
    ensures OneLineEach(DescriptionHead(appointment))
  {
    assert NoLineBreak("Rendez-vous avec Leonce Ouattara") && NoLineBreak("") && NoLineBreak("Type: ");
    NoLineBreakConcat("Type: ", appointment.kind);
  }

  lemma DescriptionTailOneLine(appointment: Appointment)
    ensures OneLineEach(DescriptionTail(appointment))
  {
    assert NoLineBreak("Durée: ") && NoLineBreak(" minutes");
    NoLineBreakConcat("Durée: ", IntToDecimal(appointment.duration));
    NoLineBreakConcat("Durée: " + IntToDecimal(appointment.duration), " minutes");
    assert NoLineBreak(ContactLine) && NoLineBreak(PhoneLine);
  }

  lemma OptionalOneLine(appointment: Appointment, project: Option<Project>)
    requires project.Some? && Truthy(project.value.kind) ==> NoLineBreak(project.value.kind.value)
    ensures OneLineEach(OptionalLines(appointment, project))
  {
    var (l1, l2, l3) := OptionalLineTexts(appointment, project);
    assert NoLineBreak("Description: ") && NoLineBreak("Projet: ") && NoLineBreak("Détails projet: ");
    NoLineBreakConcat("Description: ", EscapeIcsValue(appointment.description));
    NoLineBreakConcat("Détails projet: ", EscapeIcsValue(if project.Some? then project.value.description else None));
    var t2 := project.Some? && Truthy(project.value.kind);
    NoLineBreakConcat("Projet: ", if t2 then project.value.kind.value else "");
    var o1, o2, o3 := (if Truthy(appointment.description) then [l1] else []), (if t2 then [l2] else []),
      (if project.Some? && Truthy(project.value.description) then [l3] else []);
    assert OptionalLines(appointment, project) == o1 + o2 + o3;
    OneLineEachConcat(o1, o2);
    OneLineEachConcat(o1 + o2, o3);
  }

  /** The description's line breaks are the two-character escape: when the appointment type
      and the project type hold no line break, the description holds none either. */
  lemma DescriptionOneLine(appointment: Appointment, project: Option<Project>)
    requires NoLineBreak(appointment.kind)
    requires project.Some? && Truthy(project.value.kind) ==> NoLineBreak(project.value.kind.value)
    ensures NoLineBreak(Description(appointment, project))
  {
    var head, opt, tail := DescriptionHead(appointment), OptionalLines(appointment, project), DescriptionTail(appointment);
    DescriptionHeadOneLine(appointment);
    OptionalOneLine(appointment, project);
    DescriptionTailOneLine(appointment);
    OneLineEachConcat(head, opt);
    OneLineEachConcat(head + opt, tail);
    assert NoLineBreak(EscapedNewline);
    JoinNoLineBreak(DescriptionLines(appointment, project), EscapedNewline);
  }

  /** The appointment type is not escaped: a line feed in it reaches the description as a
      raw line feed. */
  lemma KindLineFeedReachesDescription(appointment: Appointment, project: Option<Project>)
    requires '\n' in appointment.kind
    ensures !NoLineBreak(Description(appointment, project))
  {
    var lines := DescriptionLines(appointment, project);
    assert lines[2] == "Type: " + appointment.kind;
    assert '\n' in lines[2];
    JoinContains(lines, EscapedNewline, 2, '\n');
  }

  /** The project type is not escaped either: a line feed in it reaches the description as a
      raw line feed, on the `Projet: ` line after the optional appointment description. */
  lemma ProjectKindLineFeedReachesDescription(appointment: Appointment, project: Option<Project>)
    requires project.Some? && project.value.kind.Some? && '\n' in project.value.kind.value
    ensures !NoLineBreak(Description(appointment, project))
  {
    var kind := project.value.kind.value;
    var before, opt := OptionalDescription(appointment), OptionalLines(appointment, project);
    var lines := DescriptionLines(appointment, project);
    assert opt[|before|] == "Projet: " + kind;
    var i := |DescriptionHead(appointment)| + |before|;
    assert lines[i] == opt[|before|];
    assert '\n' in lines[i];
    JoinContains(lines, EscapedNewline, i, '\n');
  }

  /** The description opens with the greeting, a blank line and the type. */
  lemma DescriptionStart(appointment: Appointment, project: Option<Project>)
    ensures StartsWith(Description(appointment, project),
      "Rendez-vous avec Leonce Ouattara" + EscapedNewline + EscapedNewline + "Type: " + appointment.kind + EscapedNewline)
  {
    var head, rest := DescriptionHead(appointment), OptionalLines(appointment, project) + DescriptionTail(appointment);
    var nl := EscapedNewline;
    assert head + OptionalLines(appointment, project) + DescriptionTail(appointment) == head + rest;
    JoinStartsWith(head, rest, nl);
    JoinThree("Rendez-vous avec Leonce Ouattara", "", "Type: " + appointment.kind, nl);
  }

  lemma FooterJoin(duration: string, contact: string, phone: string, nl: string)
    ensures nl + Join(["", duration, "", contact, phone], nl) == nl + nl + duration + nl + nl + contact + nl + phone
  {
    JoinFive("", duration, "", contact, phone, nl);
    assert "" + nl == nl;
  }

  /** The description closes with a blank line, the duration, a blank line and the contact footer. */
  lemma DescriptionEnd(appointment: Appointment, project: Option<Project>)
    ensures EndsWith(Description(appointment, project),
      EscapedNewline + EscapedNewline + ("Durée: " + IntToDecimal(appointment.duration) + " minutes")
      + EscapedNewline + EscapedNewline + ContactLine + EscapedNewline + PhoneLine)
  {
    var front, tail := DescriptionHead(appointment) + OptionalLines(appointment, project), DescriptionTail(appointment);
    JoinEndsWith(front, tail, EscapedNewline);
    FooterJoin("Durée: " + IntToDecimal(appointment.duration) + " minutes", ContactLine, PhoneLine, EscapedNewline);
  }
}
