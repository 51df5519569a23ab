/**
 * What one bulk-send run records: the sent and failed records, the pauses
 * taken, and the summary arithmetic. `Run` is the specification the
 * imperative send loop of `BulkSender` is proved against; the lemmas here are
 * what `send_bulk_messages` promises about a run.
 */
module Outcomes {
  import opened Wrappers
  import opened Template

  /** The value of `datetime.now()`, left opaque. */
  type Timestamp = int

  /** One row of the contact table. */
  type Contact = Record

  /** An entry of `sent_messages`; its `status` is always "sent". */
  datatype SentRecord = SentRecord(name: string, phone: string, timestamp: Timestamp, status: string)

  /** An entry of `failed_messages`: the raw phone and the text of the exception. */
  datatype FailedRecord = FailedRecord(name: string, phone: string, timestamp: Timestamp, error: string)

  /** One call of `time.sleep`: the per-send wait or the delay between contacts. */
  datatype Pause = AfterSend(seconds: int) | BetweenContacts(seconds: int)

  /** What the browser did on one send: the Send button was clicked, or Selenium raised with this text. */
  datatype SendAttempt = Clicked | Raised(error: string)

  /**
   * What the browser did on `open_whatsapp_web`: Chrome did not start, it
   * started but the logged-in page never appeared within the timeout, or the
   * page appeared.
   */
  datatype OpenAttempt = LaunchFails | AuthTimesOut | Authenticated

  /** The browser and the clock for one run: the open, and the outcome and time of the i-th send. */
  datatype Browser = Browser(open: OpenAttempt, sends: nat -> SendAttempt, clock: nat -> Timestamp)

  /** The text of the `ValueError` Python's `time.sleep` raises for a negative length. */
  const SleepLengthError := "sleep length must be non-negative"

  /** The text of the `OverflowError` Python's `time.sleep` raises for a length it cannot hold in nanoseconds. */
  const SleepOverflowError := "timestamp too large to convert to C _PyTime_t"

  /**
   * The longest sleep, in whole seconds, whose length in nanoseconds fits the
   * signed 64-bit count `time.sleep` converts it to; the shortest is its negation.
   */
  const MaxSleep := 9223372036

  const Int64Max := 9223372036854775807
  const Int64Min := -9223372036854775808

  /** Whether `time.sleep(seconds)` returns: the length converts to nanoseconds and is not negative. */
  predicate CanSleep(seconds: int) {
    0 <= seconds <= MaxSleep
  }

  /**
   * The text of what `time.sleep(seconds)` raises when it cannot sleep: the
   * conversion to nanoseconds comes first, then the check of the sign.
   */
  function SleepError(seconds: int): string {
    if seconds < -MaxSleep || seconds > MaxSleep then SleepOverflowError else SleepLengthError
  }

  /**
   * The bounds are those of the conversion: a length sleeps exactly when it
   * is a non-negative count of nanoseconds that fits 64 bits, and a length
   * that cannot sleep overflows exactly when its nanoseconds do not fit.
   */
  lemma SleepConversion(seconds: int)
    ensures CanSleep(seconds) <==> 0 <= seconds * 1000000000 <= Int64Max
    ensures !CanSleep(seconds) ==>
      (SleepError(seconds) == SleepOverflowError <==> !(Int64Min <= seconds * 1000000000 <= Int64Max))
  {
    assert |SleepOverflowError| != |SleepLengthError|;
  }

  /** What a stretch of the run appends to the two record lists and to the pauses. */
  datatype Log = Log(sent: seq<SentRecord>, failed: seq<FailedRecord>, pauses: seq<Pause>)

  const Quiet := Log([], [], [])

  function Then(a: Log, b: Log): Log {
    Log(a.sent + b.sent, a.failed + b.failed, a.pauses + b.pauses)
  }

  /** `contact.get(key, default)`. */
  function Lookup(c: Contact, key: string, default: string): string {
    if key in c then c[key] else default
  }

  function PhoneOf(c: Contact): string {
    Lookup(c, "phone_number", "")
  }

  function NameOf(c: Contact): string {
    Lookup(c, "name", "Unknown")
  }

  /**
   * What `send_message` appends and sleeps while a driver is live: a click
   * is recorded as sent under the normalised number, an exception as failed
   * under the raw number. The wait after a click runs inside the same `try`:
   * a negative `wait_time`, or one too long for `time.sleep`, makes it raise,
   * so that contact is then recorded twice, as sent and as failed.
   */
  function SendEffect(normalise: string -> string, phone: string, name: string, attempt: SendAttempt,
                      now: Timestamp, waitTime: int): Log
  {
    match attempt
    case Clicked =>
      var sent := [SentRecord(name, normalise(phone), now, "sent")];
      if CanSleep(waitTime) then Log(sent, [], [AfterSend(waitTime)])
      else Log(sent, [FailedRecord(name, phone, now, SleepError(waitTime))], [])
    case Raised(e) =>
      Log([], [FailedRecord(name, phone, now, e)], [])
  }

  /**
   * `send_message` records one outcome per contact when the wait is valid, a
   * sent record exactly when the click happened, sent records under the
   * normalised number and failed ones under the raw number, the exception
   * text of a failed click, and sleeps once after each recorded send.
   */
  lemma SendEffectRecords(normalise: string -> string, phone: string, name: string, attempt: SendAttempt,
                          now: Timestamp, waitTime: int)
    ensures var l := SendEffect(normalise, phone, name, attempt, now, waitTime);
      && (CanSleep(waitTime) ==> |l.sent| + |l.failed| == 1)
      && |l.sent| == (if attempt.Clicked? then 1 else 0)
      && (forall r <- l.sent :: r.name == name && r.phone == normalise(phone) && r.status == "sent")
      && (forall r <- l.failed :: r.name == name && r.phone == phone)
      && (attempt.Raised? ==> l.failed == [FailedRecord(name, phone, now, attempt.error)])
      && (!CanSleep(waitTime) && attempt.Clicked? ==> l.failed == [FailedRecord(name, phone, now, SleepError(waitTime))])
      && l.pauses == (if CanSleep(waitTime) && attempt.Clicked? then [AfterSend(waitTime)] else [])
  {
  }

  /** Why the send loop stopped early: the template did not resolve, or the delay could not be slept (with the text). */
  datatype RunError = TemplateFailed(cause: TemplateError) | SleepFailed(error: string)

  /** The records and pauses of the contacts processed so far, and the exception that ended the loop, if any. */
  datatype RunState = RunState(log: Log, error: Option<RunError>)

  /**
   * Everything one call of `send_bulk_messages` works from: the contacts,
   * how a contact's message is personalised and its number normalised
   * (`BulkSender` passes `template.format(**contact)` and
   * `Phone.FormatPhoneNumber`), the two sleep lengths and the browser.
   */
  datatype Job = Job(contacts: seq<Contact>, personalise: Contact -> Result<string, TemplateError>,
                     normalise: string -> string, waitTime: int, delay: int, browser: Browser)

  /**
   * Pass `i` of the loop body: personalise the message (which may raise),
   * send, then sleep `delay` unless this was the last contact.
   */
  function Step(job: Job, i: nat): RunState
    requires i < |job.contacts|
  {
    var contact := job.contacts[i];
    match job.personalise(contact)
    case Err(e) => RunState(Quiet, Some(TemplateFailed(e)))
    case Ok(_) =>
      var sent := SendEffect(job.normalise, PhoneOf(contact), NameOf(contact), job.browser.sends(i),
                             job.browser.clock(i), job.waitTime);
      if i + 1 == |job.contacts| then RunState(sent, None)
      else if CanSleep(job.delay) then RunState(Then(sent, Log([], [], [BetweenContacts(job.delay)])), None)
      else RunState(sent, Some(SleepFailed(SleepError(job.delay))))
  }

  /** The loop over the first `k` contacts; after an exception nothing more happens. */
  function Run(job: Job, k: nat): RunState
    requires k <= |job.contacts|
  {
    if k == 0 then RunState(Quiet, None)
    else
      var before := Run(job, k - 1);
      if before.error.Some? then before
      else
        var step := Step(job, k - 1);
        RunState(Then(before.log, step.log), step.error)
  }

  /** One more pass of the loop after a stretch that raised nothing. */
  lemma RunNext(job: Job, i: nat)
    requires i < |job.contacts| && Run(job, i).error == None
    ensures Run(job, i + 1) == RunState(Then(Run(job, i).log, Step(job, i).log), Step(job, i).error)
  {
  }

  /** How many of the first `k` sends the browser completes with a click. */
  function Clicks(sends: nat -> SendAttempt, k: nat): nat {
    if k == 0 then 0 else Clicks(sends, k - 1) + (if sends(k - 1).Clicked? then 1 else 0)
  }

  /** The outcome of contact `i` on a browser, as `send_message` records it. */
  function SendAt(job: Job, i: nat): Log
    requires i < |job.contacts|
  {
    var c := job.contacts[i];
    SendEffect(job.normalise, PhoneOf(c), NameOf(c), job.browser.sends(i), job.browser.clock(i), job.waitTime)
  }

  /** A pass that raises nothing sends, then sleeps `delay` unless it was the last contact. */
  lemma StepLog(job: Job, i: nat)
    requires i < |job.contacts|
    requires Step(job, i).error == None
    ensures job.personalise(job.contacts[i]).Ok?
    ensures i + 1 < |job.contacts| ==> CanSleep(job.delay)
    ensures Step(job, i).log
         == Then(SendAt(job, i), Log([], [], if i + 1 == |job.contacts| then [] else [BetweenContacts(job.delay)]))
  {
  }

  /** Whatever pass `i` raises, its records are those of its send, or none. */
  lemma StepRecords(job: Job, i: nat)
    requires i < |job.contacts|
    ensures var step, send := Step(job, i).log, SendAt(job, i);
      && step.sent == (if job.personalise(job.contacts[i]).Ok? then send.sent else [])
      && step.failed == (if job.personalise(job.contacts[i]).Ok? then send.failed else [])
  {
  }

  /** The last contact of a run that raised nothing: its send, then the delay unless it is the last contact of all. */
  lemma RunAfterStep(job: Job, k: nat)
    requires 0 < k <= |job.contacts|
    requires Run(job, k).error == None
    ensures Run(job, k - 1).error == None
    ensures Run(job, k).log
         == Then(Run(job, k - 1).log,
                 Then(SendAt(job, k - 1), Log([], [], if k == |job.contacts| then [] else [BetweenContacts(job.delay)])))
  {
    StepLog(job, k - 1);
  }

  /** How many records and pauses the send to contact `i` leaves. */
  lemma SendCounts(job: Job, i: nat)
    requires i < |job.contacts|
    ensures var send := SendAt(job, i);
      && (CanSleep(job.waitTime) ==> |send.sent| + |send.failed| == 1)
      && |send.sent| == (if job.browser.sends(i).Clicked? then 1 else 0)
      && send.pauses == (if CanSleep(job.waitTime) && job.browser.sends(i).Clicked? then [AfterSend(job.waitTime)] else [])
  {
    var c := job.contacts[i];
    SendEffectRecords(job.normalise, PhoneOf(c), NameOf(c), job.browser.sends(i), job.browser.clock(i), job.waitTime);
  }

  /** A run that raised nothing has recorded one outcome per contact, as long as the per-send wait is valid. */
  lemma {:induction false} RunRecordsEveryContact(job: Job, k: nat)
    requires k <= |job.contacts| && CanSleep(job.waitTime)
    requires Run(job, k).error == None
    ensures |Run(job, k).log.sent| + |Run(job, k).log.failed| == k
  {
    if k > 0 {
      RunAfterStep(job, k);
      RunRecordsEveryContact(job, k - 1);
      SendCounts(job, k - 1);
    }
  }

  /** A run that raised nothing has one sent record per click. */
  lemma {:induction false} RunSentAreClicks(job: Job, k: nat)
    requires k <= |job.contacts|
    requires Run(job, k).error == None
    ensures |Run(job, k).log.sent| == Clicks(job.browser.sends, k)
  {
    if k > 0 {
      RunAfterStep(job, k);
      RunSentAreClicks(job, k - 1);
      SendCounts(job, k - 1);
    }
  }

  /** How many of the pauses `ps` are `p`. */
  function Occurrences(ps: seq<Pause>, p: Pause): nat {
    if ps == [] then 0 else Occurrences(ps[..|ps| - 1], p) + (if ps[|ps| - 1] == p then 1 else 0)
  }

  lemma {:induction false} OccurrencesAppend(a: seq<Pause>, b: seq<Pause>, p: Pause)
    ensures Occurrences(a + b, p) == Occurrences(a, p) + Occurrences(b, p)
    decreases |b|
  {
    if b != [] {
      assert (a + b)[..|a + b| - 1] == a + b[..|b| - 1];
      OccurrencesAppend(a, b[..|b| - 1], p);
    } else {
      assert a + b == a;
    }
  }

  /** A sequence of pauses that holds only `a` and `b` is as long as their two counts together. */
  lemma {:induction false} OccurrencesOfTwo(ps: seq<Pause>, a: Pause, b: Pause)
    requires a != b
    requires forall p <- ps :: p == a || p == b
    ensures |ps| == Occurrences(ps, a) + Occurrences(ps, b)
  {
    if ps != [] {
      var init := ps[..|ps| - 1];
      assert forall p <- init :: p in ps;
      OccurrencesOfTwo(init, a, b);
      assert ps[|ps| - 1] in ps;
    }
  }

  /** The pause counts of a stretch of the run and one more send followed by `tail`. */
  lemma PausesAfterStep(before: Log, sent: Log, tail: seq<Pause>, wait: Pause, between: Pause)
    requires wait != between
    requires sent.pauses == [] || sent.pauses == [wait]
    requires tail == [] || tail == [between]
    ensures var after := Then(before, Then(sent, Log([], [], tail)));
      && Occurrences(after.pauses, wait) == Occurrences(before.pauses, wait) + |sent.pauses|
      && Occurrences(after.pauses, between) == Occurrences(before.pauses, between) + |tail|
  {
    OccurrencesAppend(before.pauses, sent.pauses + tail, wait);
    OccurrencesAppend(before.pauses, sent.pauses + tail, between);
    OccurrencesAppend(sent.pauses, tail, wait);
    OccurrencesAppend(sent.pauses, tail, between);
  }

  /**
   * A run that raised nothing has slept the per-send wait once per sent
   * record, or never when the wait cannot be slept (every such sleep raised
   * inside `send_message`).
   */
  lemma {:induction false} RunWaits(job: Job, k: nat)
    requires k <= |job.contacts|
    requires Run(job, k).error == None
    ensures Occurrences(Run(job, k).log.pauses, AfterSend(job.waitTime))
         == (if CanSleep(job.waitTime) then |Run(job, k).log.sent| else 0)
  {
    if k > 0 {
      RunAfterStep(job, k);
      RunWaits(job, k - 1);
      SendCounts(job, k - 1);
      var tail := if k == |job.contacts| then [] else [BetweenContacts(job.delay)];
      PausesAfterStep(Run(job, k - 1).log, SendAt(job, k - 1), tail, AfterSend(job.waitTime), BetweenContacts(job.delay));
    }
  }

  /** A run that raised nothing has slept the delay after every contact but the last. */
  lemma {:induction false} RunDelays(job: Job, k: nat)
    requires k <= |job.contacts|
    requires Run(job, k).error == None
    ensures Occurrences(Run(job, k).log.pauses, BetweenContacts(job.delay))
         == (if 0 < k == |job.contacts| then k - 1 else k)
  {
    if k > 0 {
      RunAfterStep(job, k);
      RunDelays(job, k - 1);
      SendCounts(job, k - 1);
      var tail := if k == |job.contacts| then [] else [BetweenContacts(job.delay)];
      PausesAfterStep(Run(job, k - 1).log, SendAt(job, k - 1), tail, AfterSend(job.waitTime), BetweenContacts(job.delay));
    }
  }

  /** The run sleeps nothing but the per-send wait and the delay between contacts. */
  lemma {:induction false} RunPauseKinds(job: Job, k: nat)
    requires k <= |job.contacts|
    ensures forall p <- Run(job, k).log.pauses :: p == AfterSend(job.waitTime) || p == BetweenContacts(job.delay)
  {
    if k > 0 {
      RunPauseKinds(job, k - 1);
      var c := job.contacts[k - 1];
      SendEffectRecords(job.normalise, PhoneOf(c), NameOf(c), job.browser.sends(k - 1), job.browser.clock(k - 1),
                        job.waitTime);
    }
  }

  /**
   * A run over every contact that raised nothing: one sent record per click,
   * the delay once between each two contacts, and, with a wait the sleep
   * accepts, one outcome per contact and one wait per sent message.
   */
  lemma RunCompleted(job: Job)
    requires |job.contacts| > 0
    requires Run(job, |job.contacts|).error == None
    ensures var log, n := Run(job, |job.contacts|).log, |job.contacts|;
      && |log.sent| == Clicks(job.browser.sends, n)
      && Occurrences(log.pauses, BetweenContacts(job.delay)) == n - 1
      && (CanSleep(job.waitTime) ==>
            && |log.sent| + |log.failed| == n
            && Occurrences(log.pauses, AfterSend(job.waitTime)) == |log.sent|
            && |log.pauses| == |log.sent| + n - 1)
  {
    var n := |job.contacts|;
    RunSentAreClicks(job, n);
    RunDelays(job, n);
    if CanSleep(job.waitTime) {
      RunRecordsEveryContact(job, n);
      RunWaits(job, n);
      RunPauseKinds(job, n);
      OccurrencesOfTwo(Run(job, n).log.pauses, AfterSend(job.waitTime), BetweenContacts(job.delay));
    }
  }

  /** Once the loop has raised, the later contacts change nothing. */
  lemma {:induction false} RunStaysStopped(job: Job, k: nat, m: nat)
    requires k <= m <= |job.contacts|
    requires Run(job, k).error.Some?
    ensures Run(job, m) == Run(job, k)
    decreases m
  {
    if m > k {
      RunStaysStopped(job, k, m - 1);
    }
  }

  /** When every message personalises and the delay is a valid sleep length, the loop raises nothing. */
  lemma {:induction false} RunCompletes(job: Job, k: nat)
    requires k <= |job.contacts|
    requires forall i :: 0 <= i < |job.contacts| ==> job.personalise(job.contacts[i]).Ok?
    requires CanSleep(job.delay) || |job.contacts| <= 1
    ensures Run(job, k).error == None
  {
    if k > 0 {
      RunCompletes(job, k - 1);
      assert job.personalise(job.contacts[k - 1]).Ok?;
    }
  }

  /**
   * A message that does not personalise for contact `j` raises out of the
   * loop there (it is built outside `send_message`'s `try`): the contacts
   * before `j` keep their records, `j` and the later ones get none.
   */
  lemma {:induction false} RunAbortsOnTemplate(job: Job, j: nat)
    requires j < |job.contacts|
    requires Run(job, j).error == None
    requires job.personalise(job.contacts[j]).Err?
    ensures Run(job, |job.contacts|)
         == RunState(Run(job, j).log, Some(TemplateFailed(job.personalise(job.contacts[j]).error)))
  {
    TemplateFailureStops(job, j);
    RunStaysStopped(job, j + 1, |job.contacts|);
  }

  lemma TemplateFailureStops(job: Job, j: nat)
    requires j < |job.contacts|
    requires Run(job, j).error == None
    requires job.personalise(job.contacts[j]).Err?
    ensures Run(job, j + 1) == RunState(Run(job, j).log, Some(TemplateFailed(job.personalise(job.contacts[j]).error)))
  {
    var before := Run(job, j);
    assert Step(job, j).log == Quiet;
    assert Then(before.log, Quiet) == before.log;
  }

  /**
   * A delay `time.sleep` rejects raises out of the loop after the first
   * contact that is not the last: that contact's send is kept, the later
   * contacts get nothing, and the run ends with the sleep's exception.
   */
  lemma RunAbortsOnDelay(job: Job, j: nat)
    requires j + 1 < |job.contacts|
    requires Run(job, j).error == None
    requires job.personalise(job.contacts[j]).Ok?
    requires !CanSleep(job.delay)
    ensures Run(job, |job.contacts|)
         == RunState(Then(Run(job, j).log, SendAt(job, j)), Some(SleepFailed(SleepError(job.delay))))
  {
    RunNext(job, j);
    RunStaysStopped(job, j + 1, |job.contacts|);
  }

  /** The phones as read from the first `k` rows, and as normalised. */
  function RawPhones(contacts: seq<Contact>, k: nat): set<string>
    requires k <= |contacts|
  {
    set i | 0 <= i < k :: PhoneOf(contacts[i])
  }

  function NormalisedPhones(normalise: string -> string, contacts: seq<Contact>, k: nat): set<string>
    requires k <= |contacts|
  {
    set i | 0 <= i < k :: normalise(PhoneOf(contacts[i]))
  }

  /** Sent records carry the normalised number of one of the contacts processed, and the status "sent". */
  lemma {:induction false} RunSentPhones(job: Job, k: nat)
    requires k <= |job.contacts|
    ensures forall r <- Run(job, k).log.sent ::
      r.phone in NormalisedPhones(job.normalise, job.contacts, k) && r.status == "sent"
  {
    if k > 0 {
      RunSentPhones(job, k - 1);
      var c := job.contacts[k - 1];
      StepRecords(job, k - 1);
      SendEffectRecords(job.normalise, PhoneOf(c), NameOf(c), job.browser.sends(k - 1), job.browser.clock(k - 1),
                        job.waitTime);
      assert job.normalise(PhoneOf(c)) in NormalisedPhones(job.normalise, job.contacts, k);
      assert NormalisedPhones(job.normalise, job.contacts, k - 1) <= NormalisedPhones(job.normalise, job.contacts, k);
    }
  }

  /** Failed records carry the number of one of the contacts processed as it was read. */
  lemma {:induction false} RunFailedPhones(job: Job, k: nat)
    requires k <= |job.contacts|
    ensures forall r <- Run(job, k).log.failed :: r.phone in RawPhones(job.contacts, k)
  {
    if k > 0 {
      RunFailedPhones(job, k - 1);
      var c := job.contacts[k - 1];
      StepRecords(job, k - 1);
      SendEffectRecords(job.normalise, PhoneOf(c), NameOf(c), job.browser.sends(k - 1), job.browser.clock(k - 1),
                        job.waitTime);
      assert PhoneOf(c) in RawPhones(job.contacts, k);
      assert RawPhones(job.contacts, k - 1) <= RawPhones(job.contacts, k);
    }
  }

  /** The counts a run reports. */
  datatype Summary = Summary(total: nat, sent: nat, failed: nat, successRate: real)

  /** `part / whole * 100`, or 0 when `whole` is 0, in exact arithmetic. */
  function SuccessRate(part: nat, whole: nat): (r: real)
    ensures whole == 0 ==> r == 0.0
    ensures whole > 0 ==> r * (whole as real) == 100.0 * (part as real)
    ensures part <= whole ==> 0.0 <= r <= 100.0
  {
    if whole == 0 then 0.0 else (part as real) / (whole as real) * 100.0
  }
}
