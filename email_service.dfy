/**
 * Reminder e-mails (ContentCalendar/server/emailService.ts): the message a
 * content reminder consists of, and the wrapper that turns a failed send into
 * `false`.  The mail provider is an abstract service that records every send
 * it is asked to do and may fail any of them.
 */
module EmailService {
  import opened Wrappers
  import opened Schema
  import opened Text

  /** What is handed to the provider (emailService.ts:10-16). */
  datatype MailData = MailData(to: string, from: string, subject: string, text: Option<string>, html: Option<string>)

  /** One call of the provider, and whether it completed without throwing. */
  datatype Attempt = Attempt(message: MailData, delivered: bool)

  const Sender: string := "noreply@contentplanner.com"

  const SubjectPrefix: string := "Reminder: Content \""
  const SubjectMiddle: string := "\" scheduled for "

  /** `Reminder: Content "<title>" scheduled for <platform>`. */
  function ReminderSubject(title: string, platform: string): (s: string)
    ensures |s| == |SubjectPrefix| + |title| + |SubjectMiddle| + |platform|
    ensures s[..|SubjectPrefix|] == SubjectPrefix
    ensures s[|SubjectPrefix|..|SubjectPrefix| + |title|] == title
    ensures s[|SubjectPrefix| + |title|..|s| - |platform|] == SubjectMiddle
    ensures s[|s| - |platform|..] == platform
  {
    SubjectPrefix + title + SubjectMiddle + platform
  }

  const Greeting: string := "Hi there!"
  const Intro: string := "This is a friendly reminder " + "that you have content scheduled:"
  const Outro: string := "Time to get publishing!"
  const Closing: string := "Best regards,"
  const Signature: string := "Your Content Planner"

  /** The lines of the plain-text body, in order. */
  function ReminderLines(title: string, platform: string, dateText: string): seq<string>
  {
    [Greeting, "", Intro, "", "Title: " + title, "Platform: " + platform, "Scheduled for: " + dateText,
     "", Outro, "", Closing, Signature]
  }

  /**
   * The plain-text body: the template literal of the source, which is its
   * lines separated by line feeds; `dateText` is what `toLocaleDateString()`
   * printed.
   */
  function ReminderText(title: string, platform: string, dateText: string): (r: string)
    ensures |r| >= |Greeting| && r[..|Greeting|] == Greeting
  {
    Join(ReminderLines(title, platform, dateText), "\n")
  }

  const HtmlOpening: string :=
    "\n    <div style=\"font-family: Arial, sans-serif; max-width: 600px; margin: 0 auto;\">\n"
    + "      <h2 style=\"color: #2563eb;\">Content Reminder \U{1F4C5}</h2>\n"
    + "      <p>Hi there!</p>\n"
    + "      <p>This is a friendly reminder that you have content scheduled:</p>\n"
    + "      <div style=\"background-color: #f3f4f6; padding: 20px; border-radius: 8px; margin: 20px 0;\">\n"
    + "        <h3 style=\"margin: 0 0 10px 0; color: #1f2937;\">"
  const HtmlAfterTitle: string := "</h3>\n        <p style=\"margin: 5px 0;\"><strong>Platform:</strong> "
  const HtmlAfterPlatform: string := "</p>\n        <p style=\"margin: 5px 0;\"><strong>Scheduled for:</strong> "
  const HtmlClosing: string :=
    "</p>\n"
    + "      </div>\n"
    + "      <p>Time to get publishing! \U{1F680}</p>\n"
    + "      <p>Best regards,<br>Your Content Planner</p>\n"
    + "    </div>\n  "

  /**
   * `r` is the fixed pieces `a`, `b`, `c`, `d` with the values `x`, `y`, `z`
   * between them: every piece and every value sits at its own place.
   */
  predicate Placed(r: string, a: string, x: string, b: string, y: string, c: string, z: string, d: string)
  {
    && |r| == |a| + |x| + |b| + |y| + |c| + |z| + |d|
    && r[..|a|] == a && r[|a|..|a| + |x|] == x
    && r[|a| + |x|..|a| + |x| + |b|] == b
    && r[|a| + |x| + |b|..|a| + |x| + |b| + |y|] == y
    && r[|a| + |x| + |b| + |y|..|r| - |d| - |z|] == c
    && r[|r| - |d| - |z|..|r| - |d|] == z && r[|r| - |d|..] == d
  }

  /** Three values set between four fixed pieces of text. */
  function Fill(a: string, x: string, b: string, y: string, c: string, z: string, d: string): (r: string)
    ensures Placed(r, a, x, b, y, c, z, d)
  {
    var head, tail := a + x + b + y, z + d;
    assert a + x + b + y + c + z + d == head + c + tail;
    head + c + tail
  }

  /**
   * The HTML body, whitespace included: the fixed markup with the title, the
   * platform and the date in their places.
   */
  function ReminderHtml(title: string, platform: string, dateText: string): (r: string)
    ensures Placed(r, HtmlOpening, title, HtmlAfterTitle, platform, HtmlAfterPlatform, dateText, HtmlClosing)
  {
    Fill(HtmlOpening, title, HtmlAfterTitle, platform, HtmlAfterPlatform, dateText, HtmlClosing)
  }

  /** The message `sendContentReminder` hands to `sendEmail`. */
  function ReminderMessage(userEmail: string, title: string, scheduledDate: Date, platform: string,
                           localeDate: Date -> string): (m: MailData)
    ensures m.to == userEmail && m.from == Sender
    ensures m.subject == ReminderSubject(title, platform)
    ensures m.text == Some(ReminderText(title, platform, localeDate(scheduledDate)))
    ensures m.html == Some(ReminderHtml(title, platform, localeDate(scheduledDate)))
  {
    var dateText := localeDate(scheduledDate);
    MailData(userEmail, Sender, ReminderSubject(title, platform),
      Some(ReminderText(title, platform, dateText)), Some(ReminderHtml(title, platform, dateText)))
  }

  /** The fixed lines of the body hold no line feed. */
  lemma FixedLinesSingle()
    ensures '\n' !in Greeting && '\n' !in Intro && '\n' !in Outro && '\n' !in Closing && '\n' !in Signature
  {
    IntroSingle();
    assert '\n' !in Greeting;
    assert '\n' !in Outro;
    assert '\n' !in Closing;
    assert '\n' !in Signature;
  }

  lemma IntroSingle()
    ensures '\n' !in Intro
  {
    assert '\n' !in "This is a friendly reminder ";
    assert '\n' !in "that you have content scheduled:";
  }

  /** No line of the body holds a line feed unless a value does. */
  lemma {:induction false} ReminderLinesSingle(title: string, platform: string, dateText: string)
    requires '\n' !in title && '\n' !in platform && '\n' !in dateText
    ensures NoneContains(ReminderLines(title, platform, dateText), '\n')
  {
    FixedLinesSingle();
    AbsentFromConcat("Title: ", title, '\n');
    AbsentFromConcat("Platform: ", platform, '\n');
    AbsentFromConcat("Scheduled for: ", dateText, '\n');
  }

  /** The body, split into lines, has the title line and the platform line, when no value holds a line feed. */
  lemma {:induction false} ReminderTextHasLines(title: string, platform: string, dateText: string)
    requires '\n' !in title && '\n' !in platform && '\n' !in dateText
    ensures Lines(ReminderText(title, platform, dateText)) == ReminderLines(title, platform, dateText)
    ensures "Title: " + title in Lines(ReminderText(title, platform, dateText))
    ensures "Platform: " + platform in Lines(ReminderText(title, platform, dateText))
  {
    var ls := ReminderLines(title, platform, dateText);
    ReminderLinesSingle(title, platform, dateText);
    SplitJoin(ls, '\n');
    assert ls[4] == "Title: " + title && ls[5] == "Platform: " + platform;
  }

  /** The subject gives the title back: two reminders for one platform share a subject only if their titles agree. */
  lemma {:induction false} SubjectDeterminesTitle(t1: string, t2: string, platform: string)
    requires ReminderSubject(t1, platform) == ReminderSubject(t2, platform)
    ensures t1 == t2
  {
    var s := ReminderSubject(t1, platform);
    assert |t1| == |t2|;
    assert t1 == s[|SubjectPrefix|..|SubjectPrefix| + |t1|];
  }

  /** The mail provider: every `send` is logged with its outcome, and any of them may throw. */
  class MailService {
    var attempts: seq<Attempt>

    constructor ()
      ensures attempts == []
    {
      attempts := [];
    }

    /** A call into the provider; `threw` is decided by the outside world. */
    method Send(m: MailData) returns (threw: bool)
      modifies this
      ensures attempts == old(attempts) + [Attempt(m, !threw)]
    {
      threw :| true;
      attempts := attempts + [Attempt(m, !threw)];
    }
  }

  /** `sendEmail`: true iff the provider call completed; a throw is caught and becomes false. */
  method SendEmail(mail: MailService, params: MailData) returns (ok: bool)
    modifies mail
    ensures mail.attempts == old(mail.attempts) + [Attempt(params, ok)]
  {
    var threw := mail.Send(params);
    ok := !threw;
  }

  /** `sendContentReminder`: exactly one send, of the reminder message; its outcome is the result. */
  method SendContentReminder(mail: MailService, userEmail: string, title: string, scheduledDate: Date,
                             platform: string, localeDate: Date -> string) returns (ok: bool)
    modifies mail
    ensures mail.attempts == old(mail.attempts) + [Attempt(ReminderMessage(userEmail, title, scheduledDate, platform, localeDate), ok)]
  {
    ok := SendEmail(mail, ReminderMessage(userEmail, title, scheduledDate, platform, localeDate));
  }
}
