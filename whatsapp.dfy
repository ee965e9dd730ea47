/** The WhatsApp notifier settings (whatsapp.js): the phone-number check,
    the small settings state machine (enabled, verified), the sending gate
    and the reminder message. The HTTP request itself is not made: its
    outcome (`delivered`) is an input, and a send is represented by the
    request it would issue. */
module WhatsApp {
  import opened Basics
  import opened Clock
  import opened TaskReminder

  datatype Settings = Settings(enabled: bool, phone: string, apiKey: string, verified: bool)

  /** The settings used when none are stored. */
  function DefaultSettings(): (s: Settings)
    ensures !s.enabled && !s.verified && s.phone == "" && s.apiKey == ""
  {
    Settings(false, "", "", false)
  }

  // ---------------------------------------------------------------------
  // Phone numbers (validatePhoneNumber)

  /** The shape `^\+[1-9]\d{1,14}$`: a '+', a non-zero digit, then one to
      fourteen more ASCII digits (ITU-T E.164: at most 15 digits). */
  predicate IsE164(s: string)
  {
    3 <= |s| <= 16 && s[0] == '+' && '1' <= s[1] <= '9' && AllDigits(s[2..])
  }

  /** The number part is 2 to 15 digits with no leading zero. */
  lemma E164Digits(s: string)
    requires IsE164(s)
    ensures 2 <= |s| - 1 <= 15 && AllDigits(s[1..]) && s[1] != '0'
  {
  }

  /** A left-to-right matcher for the same pattern. */
  datatype ScanState = ExpectPlus | ExpectLeadingDigit | InDigits(count: nat) | Rejected

  function Step(state: ScanState, c: char): ScanState
  {
    match state
    case ExpectPlus => if c == '+' then ExpectLeadingDigit else Rejected
    case ExpectLeadingDigit => if '1' <= c <= '9' then InDigits(0) else Rejected
    case InDigits(n) => if IsDigit(c) && n < 14 then InDigits(n + 1) else Rejected
    case Rejected => Rejected
  }

  function Scan(state: ScanState, s: string): ScanState
    decreases |s|
  {
    if s == [] then state else Scan(Step(state, s[0]), s[1..])
  }

  predicate Matches(s: string)
  {
    var final := Scan(ExpectPlus, s);
    final.InDigits? && final.count >= 1
  }

  lemma {:induction false} ScanDigits(n: nat, s: string)
    requires n <= 14
    ensures Scan(InDigits(n), s) == if AllDigits(s) && n + |s| <= 14 then InDigits(n + |s|) else Rejected
    decreases |s|
  {
    if s != [] {
      if IsDigit(s[0]) && n < 14 {
        ScanDigits(n + 1, s[1..]);
        assert AllDigits(s) <==> AllDigits(s[1..]) by {
          assert forall i :: 0 <= i < |s[1..]| ==> s[1..][i] == s[i + 1];
        }
      } else {
        RejectedStays(s[1..]);
      }
    }
  }

  lemma {:induction false} RejectedStays(s: string)
    ensures Scan(Rejected, s) == Rejected
    decreases |s|
  {
    if s != [] {
      RejectedStays(s[1..]);
    }
  }

  /** The matcher accepts exactly the E.164 shape. */
  lemma MatchesIffE164(s: string)
    ensures Matches(s) <==> IsE164(s)
  {
    if |s| >= 2 && s[0] == '+' && '1' <= s[1] <= '9' {
      assert Scan(ExpectPlus, s) == Scan(InDigits(0), s[2..]) by {
        assert s[1..][1..] == s[2..];
      }
      ScanDigits(0, s[2..]);
    } else if |s| >= 2 {
      if s[0] == '+' {
        assert Scan(ExpectPlus, s) == Scan(ExpectLeadingDigit, s[1..]);
        assert Scan(ExpectLeadingDigit, s[1..]) == Scan(Rejected, s[1..][1..]);
        RejectedStays(s[1..][1..]);
      } else {
        assert Scan(ExpectPlus, s) == Scan(Rejected, s[1..]);
        RejectedStays(s[1..]);
      }
    } else if |s| == 1 {
      assert s[1..] == [];
      assert Scan(ExpectPlus, s) == Step(ExpectPlus, s[0]);
    }
  }

  /** `validatePhoneNumber`: an empty field passes, anything else must
      match the pattern. */
  function ValidatePhoneNumber(phone: string): (ok: bool)
    ensures ok <==> phone == "" || IsE164(phone)
  {
    MatchesIffE164(phone);
    !(phone != "" && !Matches(phone))
  }

  // ---------------------------------------------------------------------
  // Settings transitions

  /** `toggleWhatsAppConfig`: switching on only shows the form; switching
      off clears `enabled` and nothing else. */
  function AfterToggle(s: Settings, enabled: bool): (r: Settings)
    ensures enabled ==> r == s
    ensures !enabled ==> !r.enabled && r.phone == s.phone && r.apiKey == s.apiKey && r.verified == s.verified
  {
    if enabled then s else s.(enabled := false)
  }

  datatype SaveOutcome = MissingFields | InvalidPhone | Saved

  /** The checks of `saveSettings`, in order. */
  function SaveCheck(enabled: bool, phone: string, apiKey: string): (r: SaveOutcome)
    ensures r == MissingFields <==> enabled && (phone == "" || apiKey == "")
    ensures r == InvalidPhone <==> enabled && phone != "" && apiKey != "" && !IsE164(phone)
    ensures r == Saved <==> !enabled || (phone != "" && apiKey != "" && IsE164(phone))
  {
    if enabled && (phone == "" || apiKey == "") then MissingFields
    else if enabled && !ValidatePhoneNumber(phone) then InvalidPhone
    else Saved
  }

  /** `saveSettings`: a rejected save changes nothing; an accepted one
      replaces all four fields and always clears `verified`. */
  function AfterSave(s: Settings, enabled: bool, phone: string, apiKey: string): Settings
  {
    if SaveCheck(enabled, phone, apiKey) == Saved then Settings(enabled, phone, apiKey, false) else s
  }

  /** `sendWhatsAppMessage`'s query: phone, text and key. */
  datatype Request = Request(phone: string, text: string, apiKey: string)

  /** What a send does: no request unless enabled and verified; otherwise
      the request, and success exactly when it was delivered. */
  datatype Delivery = Delivery(sent: bool, request: Option<Request>)

  function SendMessage(s: Settings, message: string, delivered: bool): (r: Delivery)
    ensures !(s.enabled && s.verified) ==> r == Delivery(false, None)
    ensures s.enabled && s.verified ==> r == Delivery(delivered, Some(Request(s.phone, message, s.apiKey)))
  {
    if !s.enabled || !s.verified then Delivery(false, None)
    else Delivery(delivered, Some(Request(s.phone, message, s.apiKey)))
  }

  const TestMessage := "Test message from Daily Task Reminder! \U{1F3AF} Your WhatsApp notifications are working correctly."

  /** `sendTestMessage` as written: it sends through `sendWhatsAppMessage`,
      whose gate already demands `verified`. */
  function AfterTest(s: Settings, delivered: bool): Settings
  {
    if s.phone == "" || s.apiKey == "" then s
    else if SendMessage(s, TestMessage, delivered).sent then s.(verified := true)
    else s
  }

  /** As written, the test message can only be sent once verified, so it
      never changes the settings: verification cannot be reached by it. */
  lemma TestChangesNothing(s: Settings, delivered: bool)
    ensures AfterTest(s, delivered) == s
  {
  }

  /** The test as evidently intended: the message goes out whenever phone
      and key are set, and a delivered test marks the settings verified. */
  function IntendedAfterTest(s: Settings, delivered: bool): (r: Settings)
    ensures s.phone == "" || s.apiKey == "" ==> r == s
    ensures s.phone != "" && s.apiKey != "" ==> r == s.(verified := s.verified || delivered)
  {
    if s.phone == "" || s.apiKey == "" then s
    else if delivered then s.(verified := true)
    else s
  }

  /** `isEnabled` */
  predicate IsEnabled(s: Settings)
  {
    s.enabled && s.verified
  }

  /** Enabled settings carry a key and a valid phone number. */
  ghost predicate Ready(s: Settings)
  {
    s.enabled ==> s.phone != "" && s.apiKey != "" && IsE164(s.phone)
  }

  /** The user's actions on the settings panel. */
  datatype Action = Toggle(on: bool) | Save(enabled: bool, phone: string, apiKey: string) | Test(delivered: bool)

  function Apply(s: Settings, a: Action): Settings
  {
    match a
    case Toggle(on) => AfterToggle(s, on)
    case Save(enabled, phone, apiKey) => AfterSave(s, enabled, phone, apiKey)
    case Test(delivered) => AfterTest(s, delivered)
  }

  function ApplyIntended(s: Settings, a: Action): Settings
  {
    match a
    case Toggle(on) => AfterToggle(s, on)
    case Save(enabled, phone, apiKey) => AfterSave(s, enabled, phone, apiKey)
    case Test(delivered) => IntendedAfterTest(s, delivered)
  }

  function Run(s: Settings, actions: seq<Action>): Settings
    decreases |actions|
  {
    if actions == [] then s else Run(Apply(s, actions[0]), actions[1..])
  }

  function RunIntended(s: Settings, actions: seq<Action>): Settings
    decreases |actions|
  {
    if actions == [] then s else RunIntended(ApplyIntended(s, actions[0]), actions[1..])
  }

  /** Every action keeps `Ready`, under both test behaviours. */
  lemma ActionKeepsReady(s: Settings, a: Action)
    requires Ready(s)
    ensures Ready(Apply(s, a)) && Ready(ApplyIntended(s, a))
  {
  }

  /** As written, unverified settings stay unverified whatever the user
      does, so notifications can never become active. */
  lemma {:induction false} NeverVerified(s: Settings, actions: seq<Action>)
    requires !s.verified
    ensures !Run(s, actions).verified && !IsEnabled(Run(s, actions))
    decreases |actions|
  {
    if actions != [] {
      NeverVerified(Apply(s, actions[0]), actions[1..]);
    }
  }

  /** With the intended test, `Ready` holds along every run from the
      default, and saving valid details then passing the test activates
      notifications. */
  lemma {:induction false} IntendedRunReady(s: Settings, actions: seq<Action>)
    requires Ready(s)
    ensures Ready(RunIntended(s, actions))
    decreases |actions|
  {
    if actions != [] {
      ActionKeepsReady(s, actions[0]);
      IntendedRunReady(ApplyIntended(s, actions[0]), actions[1..]);
    }
  }

  lemma IntendedSetupActivates(phone: string, apiKey: string)
    requires IsE164(phone) && apiKey != ""
    ensures IsEnabled(RunIntended(DefaultSettings(), [Save(true, phone, apiKey), Test(true)]))
    ensures !IsEnabled(Run(DefaultSettings(), [Save(true, phone, apiKey), Test(true)]))
  {
    var actions := [Save(true, phone, apiKey), Test(true)];
    var s1 := ApplyIntended(DefaultSettings(), actions[0]);
    assert s1 == Settings(true, phone, apiKey, false);
    assert actions[1..] == [Test(true)];
    assert [Test(true)][1..] == [];
    assert RunIntended(s1, [Test(true)]) == RunIntended(ApplyIntended(s1, Test(true)), []);
    assert ApplyIntended(s1, Test(true)) == Settings(true, phone, apiKey, true);
    NeverVerified(DefaultSettings(), actions);
  }

  // ---------------------------------------------------------------------
  // The reminder message (sendTaskReminder)

  /** `categoryEmojis[task.category]` for the categories of the form; any
      other category is rendered as the text "undefined", which is what an
      absent key gives (inherited keys such as "toString" are not modelled). */
  function CategoryEmoji(category: string): string
  {
    if category == "reading" then "\U{1F4DA}"
    else if category == "exercise" then "\U{1F3C3}"
    else if category == "work" then "\U{1F4BC}"
    else if category == "study" then "\U{1F4D6}"
    else if category == "personal" then "\U{1F3E0}"
    else if category == "health" then "\U{1F3E5}"
    else if category == "other" then "\U{1F4DD}"
    else "undefined"
  }

  const ReminderHeading := "\U{1F514} *Task Reminder*\n\n"
  const ReminderClosing := "Don't forget to complete your task! \U{1F4AA}"

  /** The heading and the title line of the message. */
  function ReminderHead(emoji: string, title: string): string
  {
    ReminderHeading + emoji + " *" + title + "*\n\n"
  }

  function NotesSegment(notes: string): string
  {
    if notes == "" then "" else "Notes: " + notes + "\n\n"
  }

  /** The message template of `sendTaskReminder`. */
  function ReminderLayout(emoji: string, title: string, time: string, frequency: string, notes: string): string
  {
    ReminderHead(emoji, title) + ("Time: " + time) + "\n" + ("Frequency: " + frequency) + "\n\n"
      + NotesSegment(notes) + ReminderClosing
  }

  function ReminderMessage(task: Task): string
    requires IsClockText(task.reminderTime)
  {
    ReminderLayout(CategoryEmoji(task.category), task.title, FormatTime(task.reminderTime),
                   FrequencyText(task.repeatFrequency), task.notes)
  }

  /** `part` occurs in `s` starting at position `i`. */
  predicate OccursAt(s: string, part: string, i: int)
  {
    0 <= i <= |s| - |part| && s[i..i + |part|] == part
  }

  predicate Contains(s: string, part: string)
  {
    exists i | 0 <= i <= |s| :: OccursAt(s, part, i)
  }

  lemma OccursInMiddle(a: string, b: string, c: string)
    ensures OccursAt(a + b + c, b, |a|)
  {
    assert (a + b + c)[|a|..|a| + |b|] == b;
  }

  /** The message always names the 12-hour time and the frequency; it
      differs from the message without notes exactly by a "Notes: …"
      segment before the closing line, present iff the notes are non-empty. */
  lemma ReminderMessageParts(task: Task)
    requires IsClockText(task.reminderTime)
    ensures Contains(ReminderMessage(task), "Time: " + FormatTime(task.reminderTime))
    ensures Contains(ReminderMessage(task), "Frequency: " + FrequencyText(task.repeatFrequency))
    ensures var plain := ReminderMessage(task.(notes := ""));
      && |plain| >= |ReminderClosing|
      && plain[|plain| - |ReminderClosing|..] == ReminderClosing
      && ReminderMessage(task) == plain[..|plain| - |ReminderClosing|]
           + (if task.notes == "" then "" else "Notes: " + task.notes + "\n\n") + ReminderClosing
  {
    MessageShape(ReminderHead(CategoryEmoji(task.category), task.title), "Time: " + FormatTime(task.reminderTime),
                 "Frequency: " + FrequencyText(task.repeatFrequency), NotesSegment(task.notes), ReminderClosing);
  }

  /** The layout facts above, for strings of any content. */
  lemma MessageShape(head: string, time: string, frequency: string, notes: string, closing: string)
    ensures var m := head + time + "\n" + frequency + "\n\n" + notes + closing;
      var plain := head + time + "\n" + frequency + "\n\n" + "" + closing;
      && Contains(m, time) && Contains(m, frequency)
      && |plain| >= |closing|
      && plain[|plain| - |closing|..] == closing
      && m == plain[..|plain| - |closing|] + notes + closing
  {
    var m := head + time + "\n" + frequency + "\n\n" + notes + closing;
    var tail := "\n" + frequency + "\n\n" + notes + closing;
    assert m == head + time + tail;
    OccursInMiddle(head, time, tail);
    assert m == (head + time + "\n") + frequency + ("\n\n" + notes + closing);
    OccursInMiddle(head + time + "\n", frequency, "\n\n" + notes + closing);
    var body := head + time + "\n" + frequency + "\n\n";
    var plain := head + time + "\n" + frequency + "\n\n" + "" + closing;
    assert body + "" == body;
    assert plain == body + closing;
    assert plain[..|plain| - |closing|] == body;
    assert plain[|plain| - |closing|..] == closing;
  }

  /** `sendTaskReminder`: gated like every send; the request carries the
      reminder message. */
  function SendTaskReminder(s: Settings, task: Task, delivered: bool): (r: Delivery)
    requires IsClockText(task.reminderTime)
    ensures !IsEnabled(s) ==> r == Delivery(false, None)
    ensures IsEnabled(s) ==> r.request == Some(Request(s.phone, ReminderMessage(task), s.apiKey)) && r.sent == delivered
  {
    if !s.enabled || !s.verified then Delivery(false, None)
    else SendMessage(s, ReminderMessage(task), delivered)
  }
}
