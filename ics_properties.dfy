/** What the two generated calendar texts are, stated over the appointment record itself:
    their components, where each substituted value lands, the identifier they share, and
    when the text splits back into exactly the lines it was built from. */
module IcsProperties {
  import opened Text
  import opened IcsEscape
  import opened IcsDate
  import opened IcsStructure
  import opened IcsGenerator
  import opened IcsDocuments

  /** The invite: one calendar holding the Paris time zone and one event with two reminders,
      properly nested, with the record's values on their lines. The start and end lines carry
      the UTC clock digits with the `Z` removed, under the `Europe/Paris` time zone. */
  lemma InviteDocument(data: AppointmentData, now: Timestamp, freshUuid: string)
    requires ValidDates(data, now)
    ensures var lines := InviteLines(data, now, freshUuid);
      |lines| == 49 && Balanced(lines)
      && Count(lines, "BEGIN:VCALENDAR") == 1 && Count(lines, "BEGIN:VTIMEZONE") == 1
      && Count(lines, "BEGIN:VEVENT") == 1 && Count(lines, "BEGIN:VALARM") == 2
    ensures var lines := InviteLines(data, now, freshUuid);
      lines[4] == "METHOD:REQUEST"
      && lines[23] == "UID:" + Uid(data.id, freshUuid)
      && lines[24] == "DTSTAMP:" + FormatIcsDate(now)
      && lines[25] + "Z" == "DTSTART;TZID=Europe/Paris:" + FormatIcsDate(data.appointment.startTime)
      && lines[26] + "Z" == "DTEND;TZID=Europe/Paris:" + FormatIcsDate(data.appointment.endTime)
      && lines[27] == "SUMMARY:" + EscapeIcsValue(Some(data.appointment.title))
      && lines[28] == "DESCRIPTION:" + Description(data.appointment, data.project)
      && lines[29] == "LOCATION:" + EscapeIcsValue(Some(ResolveLocation(data.appointment.location)))
      && lines[31] == "ATTENDEE;CN=" + AttendeeName(data.client) + ";RSVP=TRUE:mailto:" + data.client.email
  {
    var f := EventFieldsOf(data, now, freshUuid);
    var d, l := Description(data.appointment, data.project), EscapeIcsValue(Some(ResolveLocation(data.appointment.location)));
    InviteComponents(f, d, l);
    InviteLayout(f, d, l);
    LocalLine("DTSTART;TZID=Europe/Paris:", data.appointment.startTime);
    LocalLine("DTEND;TZID=Europe/Paris:", data.appointment.endTime);
  }

  lemma LocalLine(name: string, t: Timestamp)
    requires ValidTimestamp(t)
    ensures name + LocalIcsDate(t) + "Z" == name + FormatIcsDate(t)
  {
    var r := LocalIcsDate(t);
    assert name + r + "Z" == name + (r + "Z");
  }

  /** The cancellation: one calendar with one event and nothing else (no time zone, no
      reminder), cancelled at sequence 1. Its end line is written `DTEND;TZ ID=`, with a space. */
  lemma CancellationDocument(data: AppointmentData, now: Timestamp, freshUuid: string)
    requires ValidDates(data, now)
    ensures var lines := CancellationLines(data, now, freshUuid);
      |lines| == 17 && Balanced(lines)
      && Count(lines, "BEGIN:VCALENDAR") == 1 && Count(lines, "BEGIN:VEVENT") == 1
      && Count(lines, "BEGIN:VTIMEZONE") == 0 && Count(lines, "BEGIN:VALARM") == 0
    ensures var lines := CancellationLines(data, now, freshUuid);
      lines[4] == "METHOD:CANCEL" && lines[13] == "STATUS:CANCELLED" && lines[14] == "SEQUENCE:1"
      && lines[6] == "UID:" + Uid(data.id, freshUuid)
      && lines[7] == "DTSTAMP:" + FormatIcsDate(now)
      && lines[8] + "Z" == "DTSTART;TZID=Europe/Paris:" + FormatIcsDate(data.appointment.startTime)
      && lines[9] + "Z" == "DTEND;TZ ID=Europe/Paris:" + FormatIcsDate(data.appointment.endTime)
      && lines[10] == "SUMMARY:ANNULÉ: " + EscapeIcsValue(Some(data.appointment.title))
      && lines[12] == "ATTENDEE;CN=" + AttendeeName(data.client) + ":mailto:" + data.client.email
  {
    var f := EventFieldsOf(data, now, freshUuid);
    CancellationComponents(f);
    CancellationLayout(f);
    LocalLine("DTSTART;TZID=Europe/Paris:", data.appointment.startTime);
    LocalLine("DTEND;TZ ID=Europe/Paris:", data.appointment.endTime);
  }

  lemma PrefixCancels(p: string, a: string, b: string)
    ensures p + a == p + b <==> a == b
  {
    if p + a == p + b {
      assert a == (p + a)[|p|..] && b == (p + b)[|p|..];
    }
  }

  lemma SuffixCancels(a: string, b: string, q: string)
    ensures a + q == b + q <==> a == b
  {
    if a + q == b + q {
      assert |a| == |b|;
      assert a == (a + q)[..|a|] && b == (b + q)[..|b|];
    }
  }

  /** A cancellation withdraws the invite for the same record only through the `UID` line:
      the two lines agree for any two clocks exactly when the record has an identifier or
      both calls drew the same fresh identifier. */
  lemma SharedUid(data: AppointmentData, inviteTime: Timestamp, cancelTime: Timestamp, inviteUuid: string, cancelUuid: string)
    requires ValidDates(data, inviteTime) && ValidDates(data, cancelTime)
    ensures InviteLines(data, inviteTime, inviteUuid)[23] == CancellationLines(data, cancelTime, cancelUuid)[6]
      <==> Truthy(data.id) || inviteUuid == cancelUuid
  {
    InviteLayout(EventFieldsOf(data, inviteTime, inviteUuid), Description(data.appointment, data.project),
                 EscapeIcsValue(Some(ResolveLocation(data.appointment.location))));
    CancellationLayout(EventFieldsOf(data, cancelTime, cancelUuid));
    PrefixCancels("UID:", Uid(data.id, inviteUuid), Uid(data.id, cancelUuid));
    SuffixCancels(inviteUuid, cancelUuid, UidDomain);
  }

  /** The free-text inputs that reach a content line without escaping hold no line break:
      the identifier used in the `UID`, the e-mail address. */
  predicate OneLineRecord(data: AppointmentData, freshUuid: string)
  {
    NoLineBreak(OrElse(data.id, freshUuid)) && NoLineBreak(data.client.email)
  }

  /** The types the description writes without escaping hold no line break either. */
  predicate OneLineTypes(data: AppointmentData)
  {
    NoLineBreak(data.appointment.kind)
    && (data.project.Some? && Truthy(data.project.value.kind) ==> NoLineBreak(data.project.value.kind.value))
  }

  lemma FieldsOneLine(data: AppointmentData, now: Timestamp, freshUuid: string)
    requires ValidDates(data, now) && OneLineRecord(data, freshUuid)
    ensures OneLineFields(EventFieldsOf(data, now, freshUuid))
  {
    assert NoLineBreak(UidDomain);
    NoLineBreakConcat(OrElse(data.id, freshUuid), UidDomain);
  }

  lemma NoCarriageReturn(lines: seq<string>)
    requires OneLineEach(lines)
    ensures forall i :: 0 <= i < |lines| ==> '\r' !in lines[i]
  {
    forall i | 0 <= i < |lines| ensures '\r' !in lines[i] {
      assert NoLineBreak(lines[i]);
    }
  }

  /** When no unescaped input holds a line break, every line break of the invite text is a
      CR LF pair and splitting the text at them gives back exactly the 49 lines. */
  lemma InviteText(data: AppointmentData, now: Timestamp, freshUuid: string)
    requires ValidDates(data, now) && OneLineRecord(data, freshUuid) && OneLineTypes(data)
    ensures BreaksAreCrlf(Join(InviteLines(data, now, freshUuid), Crlf))
    ensures SplitCrlf(Join(InviteLines(data, now, freshUuid), Crlf)) == InviteLines(data, now, freshUuid)
  {
    var lines := InviteLines(data, now, freshUuid);
    FieldsOneLine(data, now, freshUuid);
    DescriptionOneLine(data.appointment, data.project);
    InviteOneLine(EventFieldsOf(data, now, freshUuid), Description(data.appointment, data.project),
                  EscapeIcsValue(Some(ResolveLocation(data.appointment.location))));
    InviteLayout(EventFieldsOf(data, now, freshUuid), Description(data.appointment, data.project),
                 EscapeIcsValue(Some(ResolveLocation(data.appointment.location))));
    JoinCrlfBreaks(lines);
    NoCarriageReturn(lines);
    SplitJoinCrlf(lines);
  }

  /** Both texts open with the calendar's `BEGIN` line and close with its `END` line, with
      no line break before the first line or after the last. */
  lemma TextFrames(data: AppointmentData, now: Timestamp, freshUuid: string)
    requires ValidDates(data, now)
    ensures StartsWith(Join(InviteLines(data, now, freshUuid), Crlf), "BEGIN:VCALENDAR" + Crlf)
    ensures EndsWith(Join(InviteLines(data, now, freshUuid), Crlf), Crlf + "END:VCALENDAR")
    ensures StartsWith(GenerateCancellationIcs(data, now, freshUuid), "BEGIN:VCALENDAR" + Crlf)
    ensures EndsWith(GenerateCancellationIcs(data, now, freshUuid), Crlf + "END:VCALENDAR")
  {
    var invite, cancel := InviteLines(data, now, freshUuid), CancellationLines(data, now, freshUuid);
    InviteLayout(EventFieldsOf(data, now, freshUuid), Description(data.appointment, data.project),
                 EscapeIcsValue(Some(ResolveLocation(data.appointment.location))));
    CancellationLayout(EventFieldsOf(data, now, freshUuid));
    JoinFrame(invite, Crlf);
    JoinFrame(cancel, Crlf);
  }

  /** The same for the cancellation text, whose description-free lines need no condition on the types. */
  lemma CancellationText(data: AppointmentData, now: Timestamp, freshUuid: string)
    requires ValidDates(data, now) && OneLineRecord(data, freshUuid)
    ensures BreaksAreCrlf(GenerateCancellationIcs(data, now, freshUuid))
    ensures SplitCrlf(GenerateCancellationIcs(data, now, freshUuid)) == CancellationLines(data, now, freshUuid)
  {
    var lines := CancellationLines(data, now, freshUuid);
    FieldsOneLine(data, now, freshUuid);
    CancellationOneLine(EventFieldsOf(data, now, freshUuid));
    CancellationLayout(EventFieldsOf(data, now, freshUuid));
    JoinCrlfBreaks(lines);
    NoCarriageReturn(lines);
    SplitJoinCrlf(lines);
  }

  lemma BrokenLine(lines: seq<string>, i: nat, name: string, value: string)
    requires i < |lines| && lines[i] == name + value && !NoLineBreak(value)
    ensures !NoLineBreak(lines[i])
    ensures !OneLineEach(lines)
  {
    var k :| 0 <= k < |value| && (value[k] == '\r' || value[k] == '\n');
    assert lines[i][|name| + k] == value[k];
  }

  lemma EmailBreaksContent(f: EventFields, description: string, location: string)
    requires !NoLineBreak(f.email)
    ensures |InviteContent(f, description, location)| > 31 && !NoLineBreak(InviteContent(f, description, location)[31])
    ensures |CancellationContent(f)| > 12 && !NoLineBreak(CancellationContent(f)[12])
    ensures !OneLineEach(InviteContent(f, description, location))
    ensures !OneLineEach(CancellationContent(f))
  {
    InviteLayout(f, description, location);
    CancellationLayout(f);
    BrokenLine(InviteContent(f, description, location), 31, "ATTENDEE;CN=" + f.attendeeName + ";RSVP=TRUE:mailto:", f.email);
    BrokenLine(CancellationContent(f), 12, "ATTENDEE;CN=" + f.attendeeName + ":mailto:", f.email);
  }

  /** The e-mail address is not escaped: a line break in it breaks the attendee line of both
      texts, line 31 of the invite and line 12 of the cancellation. */
  lemma EmailBreaksAttendee(data: AppointmentData, now: Timestamp, freshUuid: string)
    requires ValidDates(data, now)
    requires !NoLineBreak(data.client.email)
    ensures |InviteLines(data, now, freshUuid)| > 31 && !NoLineBreak(InviteLines(data, now, freshUuid)[31])
    ensures |CancellationLines(data, now, freshUuid)| > 12 && !NoLineBreak(CancellationLines(data, now, freshUuid)[12])
    ensures !OneLineEach(InviteLines(data, now, freshUuid))
    ensures !OneLineEach(CancellationLines(data, now, freshUuid))
  {
    EmailBreaksContent(EventFieldsOf(data, now, freshUuid), Description(data.appointment, data.project),
                       EscapeIcsValue(Some(ResolveLocation(data.appointment.location))));
  }

  lemma DescriptionBreaksContent(f: EventFields, description: string, location: string)
    requires !NoLineBreak(description)
    ensures |InviteContent(f, description, location)| > 28 && !NoLineBreak(InviteContent(f, description, location)[28])
    ensures !OneLineEach(InviteContent(f, description, location))
  {
    InviteLayout(f, description, location);
    BrokenLine(InviteContent(f, description, location), 28, "DESCRIPTION:", description);
  }

  /** The appointment type is not escaped: a line feed in it breaks the invite's description
      line, line 28. */
  lemma KindBreaksDescription(data: AppointmentData, now: Timestamp, freshUuid: string)
    requires ValidDates(data, now)
    requires '\n' in data.appointment.kind
    ensures |InviteLines(data, now, freshUuid)| > 28 && !NoLineBreak(InviteLines(data, now, freshUuid)[28])
    ensures !OneLineEach(InviteLines(data, now, freshUuid))
  {
    KindLineFeedReachesDescription(data.appointment, data.project);
    DescriptionBreaksContent(EventFieldsOf(data, now, freshUuid), Description(data.appointment, data.project),
                             EscapeIcsValue(Some(ResolveLocation(data.appointment.location))));
  }

  /** The project type is not escaped: a line feed in it breaks the invite's description line. */
  lemma ProjectKindBreaksDescription(data: AppointmentData, now: Timestamp, freshUuid: string)
    requires ValidDates(data, now)
    requires data.project.Some? && data.project.value.kind.Some? && '\n' in data.project.value.kind.value
    ensures |InviteLines(data, now, freshUuid)| > 28 && !NoLineBreak(InviteLines(data, now, freshUuid)[28])
    ensures !OneLineEach(InviteLines(data, now, freshUuid))
  {
    ProjectKindLineFeedReachesDescription(data.appointment, data.project);
    DescriptionBreaksContent(EventFieldsOf(data, now, freshUuid), Description(data.appointment, data.project),
                             EscapeIcsValue(Some(ResolveLocation(data.appointment.location))));
  }
}
