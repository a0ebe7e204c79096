# Appointment calendar invitations and e-mail acceptance, in Dafny

This project models the part of the appointment back end that writes calendar files and
decides which client e-mail addresses it accepts. It proves properties of that model.

- **Calendar files** (`api/src/utils/icsGenerator.js`).
  - `formatICSDate` turns a `Date` into the basic UTC form `YYYYMMDDTHHMMSSZ`. It does this by
    stripping the separators from `toISOString()` and cutting off the milliseconds.
  - `escapeICSValue` escapes free text for an iCalendar TEXT value (RFC 5545, section 3.3.11).
  - `generateICSFile` builds the invitation:
    - it appends the lines of the event description one `+=` at a time;
    - it picks the location text in a `switch`;
    - it joins a 49-line array with CR LF.
    The result is a `VCALENDAR` holding the Europe/Paris `VTIMEZONE` and one `VEVENT` with two
    `VALARM` reminders.
  - `generateCancellationICS` builds the 17-line cancellation of the same event.
- **E-mail acceptance** (`api/src/config/email.js`).
  - `validateEmail` is the regular expression `^[^\s@]+@[^\s@]+\.[^\s@]+$`.
  - `validateEmailAdvanced` adds the refusal of six disposable-mail domains, compared in lower case.

## Modules

- `Text` (`text.dfy`). Optional values and JavaScript truthiness, `||` defaulting, `join`,
  a CR LF splitter (the reader side of the join, without RFC 5545 line unfolding), counting, and decimal rendering of integers.
- `IcsEscape` (`ics_escape.dfy`). `escapeICSValue` as the source's chain of five global
  replacements. Its partners:
  - a one-pass reference definition, proved equal to the chain;
  - the matching unescape, proved to give the input back without its carriage returns;
  - the `WellEscaped` shape, onto which escaping is proved to map.
- `IcsDate` (`ics_date.dfy`). A `Date` is an already split UTC field record. `FormatIcsDate`
  follows `toISOString()` (including its expanded `+YYYYYY`/`-YYYYYY` years), then
  `replace(/[-:]/g, '')`, then `split('.')[0]`, then `+ 'Z'`. Its partners:
  - `CompactUtc`, a reference definition built directly from the fields;
  - `ParseIcsDate`, which reads the 16-character form back.
- `IcsStructure` (`ics_structure.dfy`). Two independent references the generated line lists
  are compared with:
  - the component tree of RFC 5545 (sections 3.4 and 3.6) and its rendering;
  - a reader that keeps a stack of open components and checks that `BEGIN`/`END` lines balance.
- `IcsGenerator` (`ics_generator.dfy`). The input records and the identifier. Three members
  follow the source's imperative code:
  - `BuildDescription` is a method with the source's appends;
  - `PickLocation` is a method with the source's `switch`;
  - `GenerateIcsFile` is a method using both.
  The 49 invite lines and 17 cancellation lines are written out as in the source.
- `IcsDocuments` (`ics_documents.dfy`). Proofs over the substituted values:
  - each line list equals the rendering of a component tree, so it is balanced and its
    components can be counted;
  - where each line sits;
  - when every line is a single line;
  - which optional description lines appear.
- `IcsProperties` (`ics_properties.dfy`). The same facts stated over the appointment record
  itself, plus:
  - the `UID` shared between invite and cancellation;
  - the CR LF round trip of the whole text;
  - the effect of the inputs the source does not escape.
- `EmailValidation` (`email_validation.dfy`). Both validators:
  - the regular expression's language is written as a predicate;
  - the implementation scans for the first `@` and is proved to accept exactly that language;
  - `split('@')[1]` and `toLowerCase` are modelled as computations.

The clock (`new Date()`) and `uuidv4()` are parameters of the builders: `now` and `freshUuid`.

### Behaviour of the code that the model keeps

- **No interval check.** Neither builder compares `startTime` with `endTime`
  (`icsGenerator.js:20-121`, `124-154`). An event that ends before it starts is written out
  unchanged, so the model requires no order between the two timestamps.
- **UTC digits under a Paris time zone.** RFC 5545 (section 3.3.5) reads a `DTSTART` or `DTEND`
  qualified by `TZID` as a local time in that zone. The code writes the UTC digits there, with the
  `Z` sliced off, under `TZID=Europe/Paris` (`icsGenerator.js:94-95`, `142-143`). A calendar
  reader therefore shows the UTC clock reading as Paris local time. `InviteDocument` and
  `CancellationDocument` state this: the line plus `Z` is the UTC timestamp.
- **Unescaped values.** RFC 5545 (section 3.3.11) requires line breaks, `;`, `,` and `\` in
  TEXT values to be escaped. The code inserts `appointment.type` and `project.type` into the
  description (`icsGenerator.js:32`, `37`) and the e-mail address into both `ATTENDEE` lines
  (`icsGenerator.js:100`, `146`) without escaping them. The model keeps this.
  `KindBreaksDescription`, `ProjectKindBreaksDescription` and `EmailBreaksAttendee` show what a
  line break in each of the three does to the text.
- **The cancellation's end line.** It reads `DTEND;TZ ID=Europe/Paris:`, with a space
  (`icsGenerator.js:143`). The cancellation also carries no `VTIMEZONE`, even though it names
  the time zone. Both are kept as written.
- **Syntax error in the exports.** The export list reads `escape ICSValue`
  (`icsGenerator.js:160`), so the module as written does not parse. The model describes the
  functions as they are evidently meant to be exported.
- **Years outside 0–9999.** There the formatted date is 19 characters (`+YYYYYY`…) or 18
  characters (a negative year loses its sign to the separator stripping), not 16.
  `FormatIcsDate` states all three lengths.

## Model

| member | source | states |
|---|---|---|
| IcsEscape.EscapeIcsValue | api/src/utils/icsGenerator.js:9-17 | Empty output exactly when the input is missing, empty, or only carriage returns. The output is well escaped and holds no CR or LF. Every `;` and `,` in it follows a backslash. Unescaping it gives back the input minus its carriage returns. |
| IcsEscape.EscapeChainIsOnePass | api/src/utils/icsGenerator.js:11-16 | The five chained global replacements, backslash first, equal a single character-by-character escape. |
| IcsEscape.UnescapeEscaped | api/src/utils/icsGenerator.js:11-16 | Unescaping the escape of any text gives that text without its carriage returns. |
| IcsEscape.EscapeUnescaped | api/src/utils/icsGenerator.js:11-16 | Every well-escaped text is the escape of its own unescape, so escaping maps onto the well-escaped texts. |
| IcsEscape.WellEscapedHasNoLineBreak | api/src/utils/icsGenerator.js:15-16 | A well-escaped text holds neither CR nor LF. |
| IcsEscape.WellEscapedSeparators | api/src/utils/icsGenerator.js:13-14 | In a well-escaped text every `;` and `,` is preceded by a backslash. |
| IcsDate.FormatIcsDate | api/src/utils/icsGenerator.js:4-6 | Equals the reference `CompactUtc`. For years 0–9999 it is 16 characters and `ParseIcsDate` reads back the date and time fields. Expanded years give 19 characters starting with `+`, negative years 18 characters with no `-`. It always ends in `Z` and holds no line break. |
| IcsDate.FormatIcsDateIsCompact | api/src/utils/icsGenerator.js:5 | Removing `-` and `:` from the ISO text and cutting at the first `.` leaves the date digits, `T`, the time digits; the added `Z` completes the compact form. |
| IcsDate.LocalIcsDate | api/src/utils/icsGenerator.js:94-95 | `.slice(0, -1)` of the formatted date: appending `Z` gives the formatted date back. The value is the date digits, `T`, the time digits. |
| IcsDate.CompactUtcShape | api/src/utils/icsGenerator.js:4-6 | Length and first character of the compact form per year range. It ends in `Z`, holds no line break, and for four-digit years it parses back to the fields. |
| IcsDate.StripYear | api/src/utils/icsGenerator.js:5 | Stripping separators from the ISO year leaves four digits, the six digits of a negative year without its sign, or `+` and six digits. |
| IcsGenerator.Uid | api/src/utils/icsGenerator.js:28 | The identifier is the record's `_id` when truthy, otherwise the fresh UUID, followed by `@leonceouattara.com`. |
| IcsGenerator.ResolveLocation | api/src/utils/icsGenerator.js:47-65 | The location text is empty exactly when no location is given. |
| IcsGenerator.LocationByField | api/src/utils/icsGenerator.js:47-65 | For every tag, the switch yields the field that tag names when it is truthy, and the tag's fallback text otherwise. `office` and `phone` always give their constants; unknown tags read `details`. |
| IcsGenerator.PickLocation | api/src/utils/icsGenerator.js:46-65 | The imperative `switch` with its mutable `location` computes the reference location text. |
| IcsGenerator.BuildDescription | api/src/utils/icsGenerator.js:31-44 | The initial text and the `+=` appends, three of them conditional, produce the description lines joined with the two-character `\n` token. |
| IcsGenerator.AppendOptionalLines | api/src/utils/icsGenerator.js:34-42 | The three conditional appends extend the text by the optional lines present, in order, each followed by the `\n` token. |
| IcsGenerator.GenerateIcsFile | api/src/utils/icsGenerator.js:20-121 | The invite text is the 49 invite lines, with the record's substituted values, joined by CR LF. |
| IcsGenerator.GenerateCancellationIcs | api/src/utils/icsGenerator.js:124-154 | The cancellation text is the 17 cancellation lines, with the record's substituted values, joined by CR LF. It opens with `BEGIN:VCALENDAR` and a CR LF and closes with a CR LF and `END:VCALENDAR`. |
| IcsGenerator.CancellationFrame | api/src/utils/icsGenerator.js:133-151 | For any substituted values, the joined cancellation lines open with `BEGIN:VCALENDAR` and a CR LF and close with a CR LF and `END:VCALENDAR`. |
| IcsDocuments.InviteRendered | api/src/utils/icsGenerator.js:68-117 | The invite's line list is the rendering of the component tree `VCALENDAR{VTIMEZONE{DAYLIGHT,STANDARD}, VEVENT{VALARM,VALARM}}`. |
| IcsDocuments.InviteComponents | api/src/utils/icsGenerator.js:68-117 | The invite's `BEGIN`/`END` lines are balanced and properly nested. It holds exactly one `VCALENDAR`, one `VTIMEZONE`, one `VEVENT` and two `VALARM`s. |
| IcsDocuments.InviteLayout | api/src/utils/icsGenerator.js:68-117 | The invite has 49 lines. `METHOD:REQUEST` is line 4. The event runs from line 22 to line 47. The two alarms with triggers `-PT15M` and `-PT1H` are inside it. `STATUS:CONFIRMED` and `SEQUENCE:0` are present. Each substituted value is on its own property line. |
| IcsDocuments.InviteOneLine | api/src/utils/icsGenerator.js:68-117 | When the substituted values, the description and the location hold no line break, no invite line holds one. |
| IcsDocuments.CancellationRendered | api/src/utils/icsGenerator.js:133-150 | The cancellation's line list is the rendering of the well-formed tree `VCALENDAR{VEVENT}`. |
| IcsDocuments.CancellationComponents | api/src/utils/icsGenerator.js:133-150 | The cancellation is balanced, with one `VCALENDAR`, one `VEVENT`, no `VALARM` and no `VTIMEZONE`. |
| IcsDocuments.CancellationLayout | api/src/utils/icsGenerator.js:133-150 | The cancellation has 17 lines with `METHOD:CANCEL`, `STATUS:CANCELLED` and `SEQUENCE:1`. The summary is prefixed with `ANNULÉ: `. The attendee line has no `RSVP`. The end line is `DTEND;TZ ID=`. No line starts with `DESCRIPTION`. |
| IcsDocuments.CancellationOneLine | api/src/utils/icsGenerator.js:133-150 | When the substituted values hold no line break, no cancellation line holds one. |
| IcsDocuments.DescriptionOptionalLines | api/src/utils/icsGenerator.js:34-42 | The builder appends one `Description: ` line exactly when the appointment description is truthy. It appends one `Projet: ` line exactly when the project type is truthy, and one `Détails projet: ` line exactly when the project description is truthy. Otherwise it appends none of them. These are entries of the appended line list. An escaped line feed inside the appointment description becomes the same two-character `\n` token the builder joins with, so a reader of the joined text can see more lines than were appended. |
| IcsDocuments.DescriptionOneLine | api/src/utils/icsGenerator.js:31-44 | When the appointment type and the project type hold no line break, the description holds none. Its breaks are the two-character `\n` token. |
| IcsDocuments.DescriptionStart | api/src/utils/icsGenerator.js:31-32 | The description opens with the greeting, a blank line and the type line. |
| IcsDocuments.DescriptionEnd | api/src/utils/icsGenerator.js:43-44 | The description closes with a blank line, the duration line, a blank line, the contact line and the telephone line. |
| IcsDocuments.KindLineFeedReachesDescription | api/src/utils/icsGenerator.js:32 | A line feed in the unescaped appointment type reaches the description as a raw line feed. |
| IcsDocuments.ProjectKindLineFeedReachesDescription | api/src/utils/icsGenerator.js:36-38 | A line feed in the unescaped project type reaches the description as a raw line feed, on the `Projet: ` line. |
| IcsProperties.InviteDocument | api/src/utils/icsGenerator.js:68-118 | Over the appointment record: the invite has 49 balanced lines with one calendar, one time zone, one event and two alarms. The `UID`, `DTSTAMP`, `SUMMARY`, `DESCRIPTION`, `LOCATION` and `ATTENDEE` lines carry the record's values. `DTSTART`/`DTEND` plus `Z` are the UTC timestamps under `TZID=Europe/Paris`. |
| IcsProperties.CancellationDocument | api/src/utils/icsGenerator.js:124-154 | Over the record: the cancellation has 17 balanced lines, one calendar, one event, no time zone and no alarm. It has `METHOD:CANCEL`, `STATUS:CANCELLED`, `SEQUENCE:1`, the `ANNULÉ: ` summary, and the attendee without `RSVP`. The `UID` and timestamps are as in the invite. |
| IcsProperties.SharedUid | api/src/utils/icsGenerator.js:124-131 | The invite's `UID` line (built at line 28) and the cancellation's agree, for any two clocks, exactly when the record has a truthy `_id` or both calls drew the same UUID. |
| IcsProperties.InviteText | api/src/utils/icsGenerator.js:118 | When no unescaped input holds a line break, every line break of the invite text is a CR LF pair. Splitting the text at them gives back exactly its lines. |
| IcsProperties.CancellationText | api/src/utils/icsGenerator.js:151 | The same for the cancellation text. |
| IcsProperties.TextFrames | api/src/utils/icsGenerator.js:68-151 | Both texts start with `BEGIN:VCALENDAR` and a CR LF and end with a CR LF and `END:VCALENDAR`. No separator leads or trails. |
| IcsProperties.EmailBreaksAttendee | api/src/utils/icsGenerator.js:100-146 | A line break in the unescaped e-mail address breaks the attendee line of both texts: line 31 of the invite and line 12 of the cancellation hold a line break, so not every line is a single line. |
| IcsProperties.KindBreaksDescription | api/src/utils/icsGenerator.js:31-97 | A line feed in the unescaped appointment type breaks the invite's `DESCRIPTION` line: line 28 holds a line break, so not every line is a single line. |
| IcsProperties.ProjectKindBreaksDescription | api/src/utils/icsGenerator.js:36-97 | A line feed in the unescaped project type breaks the invite's `DESCRIPTION` line: line 28 holds a line break, so not every line is a single line. |
| IcsStructure.RenderBalanced | api/src/utils/icsGenerator.js:68-118 | The rendering of any well-formed component tree is balanced for the stack reader. |
| IcsStructure.CountBegins | api/src/utils/icsGenerator.js:68-118 | A well-formed tree's rendering has one `BEGIN:x` line per component named `x`. |
| Text.SplitJoinCrlf | api/src/utils/icsGenerator.js:118 | Splitting at CR LF undoes `join('\r\n')` for lines without a carriage return. |
| Text.JoinCrlfBreaks | api/src/utils/icsGenerator.js:118 | Joining single lines with CR LF leaves only CR LF pairs as line breaks. |
| EmailValidation.ValidateEmail | api/src/config/email.js:56-59 | The scan at the first `@` accepts exactly the language of `^[^\s@]+@[^\s@]+\.[^\s@]+$`. That is a non-empty local part, one `@`, and a domain with a dot that has a character on each side, with no white space and no other `@` anywhere. |
| EmailValidation.AcceptedShape | api/src/config/email.js:57 | Every accepted address holds exactly one `@` and no JavaScript white space. |
| EmailValidation.SplitOn | api/src/config/email.js:73 | `split` on one character: at least one piece, no piece holds the separator, and joining the pieces with it gives the text back. |
| EmailValidation.SplitAccepted | api/src/config/email.js:73 | An accepted address splits at `@` into exactly the local part and the domain, so `[1]` is the whole domain. |
| EmailValidation.ValidateEmailAdvanced | api/src/config/email.js:62-80 | A failed format check gives `Format invalide` whatever the domain. A passed one gives `Email temporaire non autorisé` exactly when the lower-cased domain is one of the six listed, and `isValid: true` with no reason otherwise. A reason is present exactly when the address is refused. |
| EmailValidation.VerdictIgnoresCase | api/src/config/email.js:73-75 | An address and its lower-cased form get the same verdict. |
| EmailValidation.VerdictOfParts | api/src/config/email.js:62-80 | A plain local part, `@` and a domain of the pattern's shape pass the format check, and only the lower-cased domain then decides. |
| EmailValidation.FormatOfParts | api/src/config/email.js:63-65 | With a plain local part and a plain domain, a domain with no inner dot gets the format verdict. |
| EmailValidation.MixedCaseDisposable | api/src/config/email.js:68-77 | `X@YopMail.COM` is refused as a temporary address. |
| EmailValidation.OrdinaryAccepted | api/src/config/email.js:79 | `jean.dupont@gmail.com` is accepted with no reason. |
| EmailValidation.DotlessRejected | api/src/config/email.js:63-65 | `jean@localhost` fails the format check. |

## Left out

- The clock and `uuidv4()` are parameters (`now`, `freshUuid`). Randomness and the wall clock are not modelled.
- `new Date(...)` parsing of `startTime`/`endTime` is left out. Timestamps come already split into
  UTC fields, and the model does no time-zone or daylight-saving conversion. The code does none
  either; the `VTIMEZONE` block is a constant list of lines.
- IcsGenerator.ValidDates: excludes records whose `startTime` or `endTime` is missing or not a
  date. For such a record `new Date(...)` is an Invalid Date, and `toISOString()`
  (`icsGenerator.js:5`) throws a `RangeError`. Both builders then throw instead of returning text
  (`icsGenerator.js:94`, `142`). The model does not represent that exception.
- Calendar validity of a `Date` is not modelled. `ValidTimestamp` bounds each field, but a
  31st of February is not excluded.
- The record's required fields are always present: `type`, `duration`, the client's names and
  e-mail. JavaScript would render a missing one as `undefined`. A missing `title` is different:
  `escapeICSValue` returns `''` for it (`icsGenerator.js:10`), so the summary is empty. The model
  covers that case as `title == ""`. Non-string values are
  not modelled either.
- Text.IntToDecimal: the duration is an unbounded integer printed with all its decimal digits.
  JavaScript prints a Number of magnitude 10^21 or more in exponent form (`1e21` gives
  `Durée: 1e+21 minutes`). It cannot hold every integer beyond 2^53 exactly. It prints fractions
  and non-finite values in other forms. The model matches `${appointment.duration}`
  (`icsGenerator.js:42`) only for integers no larger than 2^53 in magnitude.
- EmailValidation.LowerChar: lowers only `A`–`Z` and the Kelvin sign, the characters whose lower
  case is ASCII. Other characters are kept as they are. Their lower case is never ASCII, so the
  lookup among the ASCII disposable domains gives the same answer as `toLowerCase`. The
  lower-cased text itself is not modelled beyond that.
- `validateEmailAdvanced` is `async`. The model returns the verdict directly, without the promise.
- `createTransporter` and `verifyEmailConfig` (environment and SMTP transport) are not part of
  this model. Neither is the e-mail service that sends the files, nor the web client and booking page.
- The regular expression engine is not modelled. The pattern is a predicate on strings, and the
  implementation is a scan proved equivalent to it.
- JavaScript strings are UTF-16. The model's strings are sequences of Unicode scalar values.
  Surrogate pairs are not modelled.
