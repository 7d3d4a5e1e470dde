/**
 * The follow-up creation form (components/dashboard/followup-form.tsx):
 * the half-hour time slots, the "[Client Name]" substitution of the
 * generated draft, the ordered validation guards of the submit handler and
 * the record it writes for each delivery option.
 *
 * Instants are integers in milliseconds on the local clock. A date picked in
 * the calendar is the local midnight of that day.
 */
module FollowupForm {
  import opened Wrappers
  import opened Text
  import opened Records
  import Http

  const MsPerMinute := 60000
  const MsPerHour := 3600000

  // ---------------------------------------------------------------- time slots

  function Digit(d: nat): char
    requires d < 10
  {
    ('0' as int + d) as char
  }

  predicate IsDigit(c: char) {
    '0' <= c <= '9'
  }

  function DigitValue(c: char): nat
    requires IsDigit(c)
  {
    c as int - '0' as int
  }

  /** `n.toString()` for n < 100. */
  function Decimal(n: nat): string
    requires n < 100
  {
    if n < 10 then [Digit(n)] else [Digit(n / 10), Digit(n % 10)]
  }

  /** `n.toString().padStart(2, "0")` for n < 100. */
  function Pad2(n: nat): (r: string)
    requires n < 100
    ensures |r| == 2 && IsDigit(r[0]) && IsDigit(r[1])
    ensures 10 * DigitValue(r[0]) + DigitValue(r[1]) == n
  {
    var t := Decimal(n);
    if |t| < 2 then "0" + t else t
  }

  /** Slot `i`: hour `9 + i / 2`, minute "00" for even `i` and "30" for odd `i`. */
  function TimeSlot(i: nat): string
    requires i < 19
  {
    Pad2(i / 2 + 9) + ":" + (if i % 2 == 0 then "00" else "30")
  }

  /** `Array.from({ length: 19 }, …)`: the times the schedule picker offers. */
  function TimeSlots(): seq<string> {
    seq(19, i requires 0 <= i < 19 => TimeSlot(i))
  }

  datatype Clock = Clock(hours: nat, minutes: nat)

  function MinuteOfDay(c: Clock): nat {
    60 * c.hours + c.minutes
  }

  /**
   * `time.split(":").map(Number)` for the "HH:MM" shape the picker produces;
   * `None` stands for the NaN that makes `toISOString` throw.
   */
  function ParseClock(t: string): Option<Clock> {
    if |t| == 5 && IsDigit(t[0]) && IsDigit(t[1]) && t[2] == ':' && IsDigit(t[3]) && IsDigit(t[4])
    then Some(Clock(10 * DigitValue(t[0]) + DigitValue(t[1]), 10 * DigitValue(t[3]) + DigitValue(t[4])))
    else None
  }

  lemma TimeSlotParses(i: nat)
    requires i < 19
    ensures ParseClock(TimeSlot(i)) == Some(Clock(9 + i / 2, 30 * (i % 2)))
  {
    var h := Pad2(i / 2 + 9);
    var m := if i % 2 == 0 then "00" else "30";
    var s := TimeSlot(i);
    assert s[0] == h[0] && s[1] == h[1] && s[2] == ':' && s[3] == m[0] && s[4] == m[1];
  }

  /**
   * There are 19 slots, from "09:00" to "18:00" in half-hour steps; each is a
   * zero-padded "HH:MM" and they are strictly increasing.
   */
  lemma TimeSlotsShape()
    ensures |TimeSlots()| == 19
    ensures TimeSlots()[0] == "09:00" && TimeSlots()[18] == "18:00"
    ensures forall i | 0 <= i < 19 ::
      ParseClock(TimeSlots()[i]).Some? && MinuteOfDay(ParseClock(TimeSlots()[i]).value) == 540 + 30 * i
    ensures forall i, j | 0 <= i < j < 19 ::
      MinuteOfDay(ParseClock(TimeSlots()[i]).value) < MinuteOfDay(ParseClock(TimeSlots()[j]).value)
  {
    forall i | 0 <= i < 19
      ensures ParseClock(TimeSlots()[i]).Some? && MinuteOfDay(ParseClock(TimeSlots()[i]).value) == 540 + 30 * i
    {
      TimeSlotParses(i);
    }
    assert Decimal(9) == "9";
    assert Decimal(18) == "18";
  }

  // ------------------------------------------------------------ draft generation

  const ClientNamePlaceholder := "[Client Name]"
  const YourNamePlaceholder := "[Your Name]"

  /** The text of the sample draft between the client-name and the sender-name placeholders. */
  const SampleBody :=
    ",\n\nThank you for taking the time to meet "
    + "with me yesterday to discuss your company's "
    + "marketing strategy. I appreciated the opportunity "
    + "to learn more about your goals and challenges.\n"
    + "\nBased on our conversation, I wanted to "
    + "follow up with some additional thoughts "
    + "on how our solution could help address the "
    + "specific pain points you mentioned around "
    + "customer acquisition and retention.\n\nI've "
    + "attached a brief overview of our approach "
    + "that I believe would be particularly relevant "
    + "to your situation. If you'd like to discuss "
    + "further or have any questions, please don't "
    + "hesitate to reach out.\n\nWould you be available "
    + "for a brief call next week to continue our "
    + "discussion? I'm available Tuesday or Thursday "
    + "afternoon if either works for you.\n\nLooking "
    + "forward to hearing from you.\n\nBest regards,\n"

  /** Everything after the client-name placeholder. */
  const SampleTail := SampleBody + YourNamePlaceholder

  const SampleEmail := "Dear " + ClientNamePlaceholder + SampleTail

  /** `clients.find((c) => c.id === id)`: the first client with that id. */
  function FindClient(clients: seq<Client>, id: string): (r: Option<Client>)
    ensures r.Some? ==> exists k | 0 <= k < |clients| :: clients[k] == r.value
    ensures r.Some? ==> r.value.id == id
    ensures r.Some? ==> forall k | 0 <= k < |clients| && clients[k] != r.value :: clients[k].id == id ==>
      exists p | 0 <= p < k :: clients[p] == r.value
    ensures r.None? <==> forall k | 0 <= k < |clients| :: clients[k].id != id
  {
    if clients == [] then None
    else if clients[0].id == id then Some(clients[0])
    else
      var r := FindClient(clients[1..], id);
      assert forall k | 1 <= k < |clients| :: clients[k] == clients[1..][k - 1];
      r
  }

  /** The text `replace` substitutes for a name: a `NULL` `full_name` becomes "null". */
  function NameText(name: Option<string>): string {
    Http.Interpolate(Http.Column(name))
  }

  /** The draft `handleGenerate` puts in the editor for the selected client id. */
  function GeneratedEmail(clients: seq<Client>, clientId: string): string {
    match FindClient(clients, clientId)
    case None => SampleEmail
    case Some(c) => ReplaceFirst(SampleEmail, ClientNamePlaceholder, NameText(c.fullName))
  }

  /**
   * Generation replaces only the first "[Client Name]", right after "Dear ",
   * keeps the rest of the sample (with "[Your Name]") verbatim, and leaves
   * the sample untouched when no client has the id.
   */
  lemma GeneratedEmailShape(clients: seq<Client>, clientId: string)
    ensures FindClient(clients, clientId).None? ==> GeneratedEmail(clients, clientId) == SampleEmail
    ensures FindClient(clients, clientId).Some? ==>
      GeneratedEmail(clients, clientId)
        == "Dear " + NameText(FindClient(clients, clientId).value.fullName) + SampleTail
  {
    if FindClient(clients, clientId).Some? {
      var name := NameText(FindClient(clients, clientId).value.fullName);
      ReplaceAfterPrefix("Dear ", ClientNamePlaceholder, SampleTail, name);
    }
  }

  /** A pattern whose first character the prefix lacks is first found right after the prefix. */
  lemma ReplaceAfterPrefix(prefix: string, pat: string, rest: string, rep: string)
    requires |pat| > 0
    requires forall j | 0 <= j < |prefix| :: prefix[j] != pat[0]
    ensures ReplaceFirst(prefix + pat + rest, pat, rep) == prefix + rep + rest
  {
    var s := prefix + pat + rest;
    var i := |prefix|;
    assert s[i..i + |pat|] == pat;
    forall j | 0 <= j < i ensures !OccursAt(s, pat, j) {
      assert s[j] == prefix[j];
    }
    ReplaceFirstAt(s, pat, rep, i);
    assert s[..i] == prefix;
    assert s[i + |pat|..] == rest;
  }

  // ------------------------------------------------------------ submission

  /** The row passed to `createFollowup`. */
  datatype NewFollowup = NewFollowup(
    userId: string,
    clientId: string,
    subject: string,
    body: string,
    scheduledAt: Option<int>,
    status: string,
    isOpened: bool,
    sentAt: Option<int>)

  /** The values of the form's state hooks when it is submitted. */
  datatype FormInput = FormInput(
    client: string,
    subject: string,
    emailContent: string,
    sendOption: string,
    date: Option<int>,
    time: string)

  /** The three early returns of `handleSubmit`, in the order they are tested. */
  datatype Guard = InvalidClient | MissingInformation | MissingSchedule

  /** What `createFollowup` answered: the new row's id, or the error it threw. */
  datatype InsertResult = Inserted(id: string) | InsertFailed(message: string)

  datatype SubmitOutcome =
    | Rejected(guard: Guard)
    | Failed(reason: string)
    | Written(id: string, record: NewFollowup)

  /** The scheduled instant computed before the insert, if any. */
  datatype Schedule = Unscheduled | ScheduledAt(at: int) | InvalidTime

  function FirstFailedGuard(clients: seq<Client>, f: FormInput): Option<Guard> {
    var selected := FindClient(clients, f.client);
    if selected.None? || !Http.Truthy(Http.Column(selected.value.email)) then Some(InvalidClient)
    else if f.client == "" || f.subject == "" || f.emailContent == "" then Some(MissingInformation)
    else if f.sendOption == "later" && (f.date.None? || f.time == "") then Some(MissingSchedule)
    else None
  }

  function StatusFor(sendOption: string): string {
    if sendOption == "now" then "sent" else if sendOption == "draft" then "draft" else "scheduled"
  }

  /** "now" is sent, "draft" is a draft, and every other option (in the form: "later") is scheduled. */
  lemma StatusMapping(sendOption: string)
    ensures StatusFor(sendOption) in {"sent", "draft", "scheduled"}
    ensures StatusFor(sendOption) == "sent" <==> sendOption == "now"
    ensures StatusFor(sendOption) == "draft" <==> sendOption == "draft"
    ensures StatusFor(sendOption) == "scheduled" <==> sendOption != "now" && sendOption != "draft"
  {
  }

  function SentAtFor(sendOption: string, now: int): Option<int> {
    if sendOption == "now" then Some(now) else None
  }

  /** The picked day with its hours and minutes set from the "HH:MM" time (`setHours`). */
  function ScheduleFor(f: FormInput): Schedule {
    if f.sendOption == "later" && f.date.Some? && f.time != "" then
      match ParseClock(f.time)
      case None => InvalidTime
      case Some(c) => ScheduledAt(f.date.value + c.hours * MsPerHour + c.minutes * MsPerMinute)
    else Unscheduled
  }

  function NewRecord(userId: string, f: FormInput, now: int): NewFollowup {
    var schedule := ScheduleFor(f);
    NewFollowup(
      userId, f.client, f.subject, f.emailContent,
      if schedule.ScheduledAt? then Some(schedule.at) else None,
      StatusFor(f.sendOption),
      false,
      SentAtFor(f.sendOption, now))
  }

  /**
   * What `handleSubmit` does with the form, the signed-in user (if any), the
   * current instant and the insert's answer.
   */
  function Submission(clients: seq<Client>, f: FormInput, user: Option<string>, now: int, insert: InsertResult): SubmitOutcome {
    match FirstFailedGuard(clients, f)
    case Some(g) => Rejected(g)
    case None =>
      if user.None? then Failed("User not authenticated")
      else if ScheduleFor(f).InvalidTime? then Failed("Invalid time value")
      else match insert
        case InsertFailed(m) => Failed(m)
        case Inserted(id) => Written(id, NewRecord(user.value, f, now))
  }

  /** An unknown client or one without an e-mail is rejected before any other check. */
  lemma ClientCheckedFirst(clients: seq<Client>, f: FormInput, user: Option<string>, now: int, insert: InsertResult)
    requires FindClient(clients, f.client).None? || !Http.Truthy(Http.Column(FindClient(clients, f.client).value.email))
    ensures Submission(clients, f, user, now, insert) == Rejected(InvalidClient)
  {
  }

  /** Nothing is written unless every guard passed, a user is signed in and the insert succeeded. */
  lemma WriteNeedsGuards(clients: seq<Client>, f: FormInput, user: Option<string>, now: int, insert: InsertResult)
    ensures Submission(clients, f, user, now, insert).Written? <==>
      && FindClient(clients, f.client).Some?
      && Http.Truthy(Http.Column(FindClient(clients, f.client).value.email))
      && f.client != "" && f.subject != "" && f.emailContent != ""
      && (f.sendOption == "later" ==> f.date.Some? && f.time != "")
      && user.Some?
      && !ScheduleFor(f).InvalidTime?
      && insert.Inserted?
  {
  }

  /**
   * Every written record is unopened; `sent_at` is set exactly for "now" and
   * is then the current instant; `scheduled_at` is set exactly for "later"
   * and is then the picked day at the picked time. In particular a "sent"
   * record has no schedule and a "scheduled" record from the "later" option
   * has one.
   */
  lemma WrittenRecord(clients: seq<Client>, f: FormInput, user: Option<string>, now: int, insert: InsertResult)
    requires Submission(clients, f, user, now, insert).Written?
    ensures var r := Submission(clients, f, user, now, insert).record;
      && !r.isOpened
      && r.userId == user.value && r.clientId == f.client
      && r.subject == f.subject && r.body == f.emailContent
      && r.status == StatusFor(f.sendOption)
      && (r.sentAt.Some? <==> f.sendOption == "now")
      && (r.sentAt.Some? ==> r.sentAt.value == now)
      && (r.scheduledAt.Some? <==> f.sendOption == "later")
      && (r.scheduledAt.Some? ==>
            var c := ParseClock(f.time).value;
            r.scheduledAt.value == f.date.value + c.hours * MsPerHour + c.minutes * MsPerMinute)
      && (r.status == "sent" ==> r.sentAt.Some? && r.scheduledAt.None?)
  {
  }

  /**
   * Nothing requires a scheduled instant to lie in the future: the calendar
   * offers today (local midnight 0 here), and at 10:00 a "09:00" slot of
   * today is written as is.
   */
  lemma PastScheduleIsWritten()
    ensures
      var c := Client("c1", "u1", Some("Jane Doe"), Some("jane@x.com"), None, None, None);
      var f := FormInput("c1", "Hello", "Dear Jane", "later", Some(0), "09:00");
      var o := Submission([c], f, Some("u1"), 10 * MsPerHour, Inserted("f1"));
      o.Written? && o.record.status == "scheduled" && o.record.scheduledAt == Some(9 * MsPerHour)
      && o.record.scheduledAt.value < 10 * MsPerHour
  {
    var c := Client("c1", "u1", Some("Jane Doe"), Some("jane@x.com"), None, None, None);
    assert FindClient([c], "c1") == Some(c);
    assert ParseClock("09:00") == Some(Clock(9, 0));
  }

  /**
   * The rows `createFollowup` has written to the followups table, keyed by
   * the id the database gave them, with the columns the form writes
   * (`scheduled_at`, `sent_at`); SendFollowup.FollowupStore is the same
   * table seen through the columns the send function reads and writes.
   */
  class FollowupTable {
    var rows: map<string, NewFollowup>

    constructor ()
      ensures rows == map[]
    {
      rows := map[];
    }

    method Insert(id: string, r: NewFollowup)
      modifies this
      ensures rows == old(rows)[id := r]
    {
      rows := rows[id := r];
    }
  }

  /** The component's state hooks and its two handlers. */
  class FollowupFormState {
    var client: string
    var subject: string
    var meetingContext: string
    var emailContent: string
    var sendOption: string
    var date: Option<int>
    var time: string
    var isSubmitting: bool

    function Input(): FormInput
      reads this
    {
      FormInput(client, subject, emailContent, sendOption, date, time)
    }

    /** The initial values of the state hooks. */
    constructor ()
      ensures Input() == FormInput("", "", "", "now", None, "09:00")
      ensures meetingContext == "" && !isSubmitting
    {
      client, subject, meetingContext, emailContent := "", "", "", "";
      sendOption, date, time := "now", None, "09:00";
      isSubmitting := false;
    }

    /**
     * `handleGenerate`: with a client and meeting context, the editor gets
     * the sample draft addressed to the selected client; otherwise nothing
     * changes. The two-second simulated delay is not modelled.
     */
    method Generate(clients: seq<Client>) returns (generated: bool)
      modifies this`emailContent
      ensures generated == (client != "" && meetingContext != "")
      ensures emailContent == if generated then GeneratedEmail(clients, client) else old(emailContent)
    {
      if client == "" || meetingContext == "" {
        return false;
      }
      var selected := FindClient(clients, client);
      var generatedEmail := SampleEmail;
      if selected.Some? {
        generatedEmail := ReplaceFirst(generatedEmail, ClientNamePlaceholder, NameText(selected.value.fullName));
      }
      emailContent := generatedEmail;
      generated := true;
    }

    /**
     * `handleSubmit`: the guards in order, then the signed-in user, the
     * schedule and the insert. The table changes only when the insert
     * succeeded, and the submitting flag is down again afterwards.
     */
    method Submit(table: FollowupTable, clients: seq<Client>, user: Option<string>, now: int, insert: InsertResult)
      returns (outcome: SubmitOutcome)
      modifies this`isSubmitting, table
      ensures outcome == Submission(clients, Input(), user, now, insert)
      ensures table.rows == if outcome.Written? then old(table.rows)[outcome.id := outcome.record] else old(table.rows)
      ensures isSubmitting == (outcome.Rejected? && old(isSubmitting))
    {
      var selected := FindClient(clients, client);
      if selected.None? || !Http.Truthy(Http.Column(selected.value.email)) {
        return Rejected(InvalidClient);
      }
      if client == "" || subject == "" || emailContent == "" {
        return Rejected(MissingInformation);
      }
      if sendOption == "later" && (date.None? || time == "") {
        return Rejected(MissingSchedule);
      }
      isSubmitting := true;
      if user.None? {
        outcome := Failed("User not authenticated");
      } else {
        var scheduledFor: Option<int> := None;
        var invalid := false;
        if sendOption == "later" && date.Some? && time != "" {
          var parsed := ParseClock(time);
          if parsed.None? {
            invalid := true;
          } else {
            scheduledFor := Some(date.value + parsed.value.hours * MsPerHour + parsed.value.minutes * MsPerMinute);
          }
        }
        if invalid {
          outcome := Failed("Invalid time value");
        } else if insert.InsertFailed? {
          outcome := Failed(insert.message);
        } else {
          var record := NewFollowup(
            user.value, client, subject, emailContent, scheduledFor,
            if sendOption == "now" then "sent" else if sendOption == "draft" then "draft" else "scheduled",
            false,
            if sendOption == "now" then Some(now) else None);
          table.Insert(insert.id, record);
          outcome := Written(insert.id, record);
        }
      }
      isSubmitting := false;
    }
  }
}
