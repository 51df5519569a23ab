/**
 * The bulk sender object: the contact table, the two record lists, the
 * pauses taken and whether a browser session is live, changed in place by
 * loading a table, opening and closing the session, single sends and the
 * bulk loop. The loop is proved against `Outcomes.Run`.
 */
module Sender {
  import opened Wrappers
  import opened Template
  import opened Outcomes
  import Phone

  /** What reading the CSV file gives: no such file, another read error, or a table with its column names and rows. */
  datatype CsvSource = Missing | Unreadable(reason: string) | Table(columns: seq<string>, records: seq<Contact>)

  /** Both columns the sender needs are present. */
  predicate HasRequiredColumns(columns: seq<string>) {
    "phone_number" in columns && "name" in columns
  }

  /** What `send_bulk_messages` gives back: `None`, the summary dictionary, or the exception that escaped the loop. */
  datatype BulkResult = NotStarted | Completed(summary: Summary) | Aborted(error: RunError)

  datatype ReportSummary = ReportSummary(totalSent: nat, totalFailed: nat, successRate: real)

  /** The dictionary `get_report` returns. */
  datatype Report = Report(sent: seq<SentRecord>, failed: seq<FailedRecord>, summary: ReportSummary)

  /** The run `send_bulk_messages` performs: every message is `message.format(**contact)`, every number normalised. */
  function JobOf(contacts: seq<Contact>, message: string, waitTime: int, delay: int, browser: Browser): Job {
    Job(contacts, c => Format(message, c), Phone.FormatPhoneNumber, waitTime, delay, browser)
  }

  class BulkSender {
    const csvFile: string
    var waitTime: int
    var contacts: seq<Contact>
    var sentMessages: seq<SentRecord>
    var failedMessages: seq<FailedRecord>
    /** Whether `self.driver` holds a browser session. */
    var driverLive: bool
    /** Every `time.sleep` taken so far. */
    var pauses: seq<Pause>

    constructor(csvFile: string, waitTime: int)
      ensures this.csvFile == csvFile && this.waitTime == waitTime
      ensures contacts == [] && sentMessages == [] && failedMessages == [] && pauses == []
      ensures !driverLive
    {
      this.csvFile := csvFile;
      this.waitTime := waitTime;
      contacts := [];
      sentMessages := [];
      failedMessages := [];
      driverLive := false;
      pauses := [];
    }

    /** `load_contacts`: succeeds exactly on a readable table with both required columns, and only then replaces the contacts. */
    method LoadContacts(source: CsvSource) returns (ok: bool)
      modifies this`contacts
      ensures ok <==> source.Table? && HasRequiredColumns(source.columns)
      ensures contacts == (if ok then source.records else old(contacts))
    {
      match source
      case Missing =>
        ok := false;
      case Unreadable(_) =>
        ok := false;
      case Table(columns, records) =>
        if !HasRequiredColumns(columns) {
          ok := false;
        } else {
          contacts := records;
          ok := true;
        }
    }

    /**
     * `open_whatsapp_web`: a session is live afterwards exactly when the
     * logged-in page appeared; on any failure the driver is quit and cleared.
     */
    method OpenWhatsAppWeb(attempt: OpenAttempt) returns (ok: bool)
      modifies this`driverLive
      ensures ok <==> attempt.Authenticated?
      ensures driverLive == ok
    {
      match attempt
      case Authenticated =>
        driverLive := true;
        ok := true;
      case LaunchFails =>
        driverLive := false;
        ok := false;
      case AuthTimesOut =>
        driverLive := false;
        ok := false;
    }

    /** `close_browser`: afterwards no session is live, whatever the state before, so a second call changes nothing. */
    method CloseBrowser()
      modifies this`driverLive
      ensures !driverLive
    {
      if driverLive {
        driverLive := false;
      }
    }

    /**
     * `send_message`: without a session nothing is recorded; with one the
     * records and pauses grow by `SendEffect`, and the result says whether
     * the message was sent and the wait after it taken.
     */
    method SendMessage(phone: string, message: string, name: string, attempt: SendAttempt, now: Timestamp)
      returns (ok: bool)
      modifies this`sentMessages, this`failedMessages, this`pauses
      ensures ok <==> driverLive && attempt.Clicked? && CanSleep(waitTime)
      ensures var l := if driverLive then SendEffect(Phone.FormatPhoneNumber, phone, name, attempt, now, waitTime)
                       else Quiet;
        && sentMessages == old(sentMessages) + l.sent
        && failedMessages == old(failedMessages) + l.failed
        && pauses == old(pauses) + l.pauses
    {
      if !driverLive {
        return false;
      }
      var formatted := Phone.FormatPhoneNumber(phone);
      match attempt
      case Raised(e) =>
        failedMessages := failedMessages + [FailedRecord(name, phone, now, e)];
        ok := false;
      case Clicked =>
        sentMessages := sentMessages + [SentRecord(name, formatted, now, "sent")];
        if !CanSleep(waitTime) {
          failedMessages := failedMessages + [FailedRecord(name, phone, now, SleepError(waitTime))];
          ok := false;
        } else {
          pauses := pauses + [AfterSend(waitTime)];
          ok := true;
        }
    }

    /**
     * `send_bulk_messages`: with no contacts, or when the session does not
     * open, nothing is recorded and `None` is returned. Otherwise the records
     * and pauses grow by the run over all contacts, the session is closed on
     * every path, and the result is the summary or the exception that ended
     * the loop.
     */
    method SendBulkMessages(message: string, delaySeconds: int, browser: Browser) returns (result: BulkResult)
      modifies this`sentMessages, this`failedMessages, this`pauses, this`driverLive
      ensures contacts == [] ==> driverLive == old(driverLive)
      ensures contacts != [] ==> !driverLive
      ensures var run := Run(JobOf(contacts, message, waitTime, delaySeconds, browser), |contacts|);
        var l := if contacts != [] && browser.open.Authenticated? then run.log else Quiet;
        && sentMessages == old(sentMessages) + l.sent
        && failedMessages == old(failedMessages) + l.failed
        && pauses == old(pauses) + l.pauses
        && result == if contacts == [] || !browser.open.Authenticated? then NotStarted
                     else if run.error.Some? then Aborted(run.error.value)
                     else Completed(Summary(|contacts|, |sentMessages|, |failedMessages|,
                                            SuccessRate(|sentMessages|, |contacts|)))
    {
      if contacts == [] {
        return NotStarted;
      }
      var live := OpenWhatsAppWeb(browser.open);
      if !live {
        return NotStarted;
      }
      var raised := SendToAll(message, delaySeconds, browser);
      CloseBrowser();
      if raised.Some? {
        return Aborted(raised.value);
      }
      result := Completed(Summary(|contacts|, |sentMessages|, |failedMessages|,
                                  SuccessRate(|sentMessages|, |contacts|)));
    }

    /**
     * The `for` loop of `send_bulk_messages` over a live session: the records
     * and pauses grow by the run over all contacts, and the exception that
     * ended the loop, if any, is returned.
     */
    method SendToAll(message: string, delaySeconds: int, browser: Browser) returns (raised: Option<RunError>)
      requires driverLive
      modifies this`sentMessages, this`failedMessages, this`pauses
      ensures var run := Run(JobOf(contacts, message, waitTime, delaySeconds, browser), |contacts|);
        && raised == run.error
        && sentMessages == old(sentMessages) + run.log.sent
        && failedMessages == old(failedMessages) + run.log.failed
        && pauses == old(pauses) + run.log.pauses
    {
      var job := JobOf(contacts, message, waitTime, delaySeconds, browser);
      var n := |contacts|;
      ghost var sent0, failed0, pauses0 := sentMessages, failedMessages, pauses;
      var i := 0;
      raised := None;
      while i < n && raised.None?
        invariant i <= n == |contacts|
        invariant job == JobOf(contacts, message, waitTime, delaySeconds, browser)
        invariant Run(job, i).error == raised
        invariant sentMessages == sent0 + Run(job, i).log.sent
        invariant failedMessages == failed0 + Run(job, i).log.failed
        invariant pauses == pauses0 + Run(job, i).log.pauses
        decreases n - i
      {
        ghost var before := Run(job, i).log;
        ghost var step := Step(job, i);
        raised := SendToContact(job, message, delaySeconds, browser, i);
        RunNext(job, i);
        ThenAssociates(sent0, failed0, pauses0, before, step.log);
        i := i + 1;
      }
      if raised.Some? {
        RunStaysStopped(job, i, n);
      }
    }

    /**
     * One pass of the loop of `send_bulk_messages`: personalise the message
     * for contact `i`, send it, and sleep the delay unless it was the last
     * contact. The records and pauses grow by `Step`, and the exception it
     * raises, if any, is returned.
     */
    method SendToContact(job: Job, message: string, delaySeconds: int, browser: Browser, i: nat)
      returns (raised: Option<RunError>)
      requires i < |contacts| && driverLive
      requires job == JobOf(contacts, message, waitTime, delaySeconds, browser)
      modifies this`sentMessages, this`failedMessages, this`pauses
      ensures raised == Step(job, i).error
      ensures sentMessages == old(sentMessages) + Step(job, i).log.sent
      ensures failedMessages == old(failedMessages) + Step(job, i).log.failed
      ensures pauses == old(pauses) + Step(job, i).log.pauses
    {
      var contact := contacts[i];
      var phone := Lookup(contact, "phone_number", "");
      var name := Lookup(contact, "name", "Unknown");
      JobStep(contacts, message, waitTime, delaySeconds, browser, i);
      match Format(message, contact) {
        case Err(e) =>
          raised := Some(TemplateFailed(e));
        case Ok(personalised) =>
          var _ := SendMessage(phone, personalised, name, browser.sends(i), browser.clock(i));
          raised := None;
          if i + 1 < |contacts| {
            if CanSleep(delaySeconds) {
              pauses := pauses + [BetweenContacts(delaySeconds)];
            } else {
              raised := Some(SleepFailed(SleepError(delaySeconds)));
            }
          }
      }
    }

    /**
     * `get_report`: both lists as they are, their lengths, and the share of
     * sent records among all records in percent, or 0 when there are none.
     */
    function GetReport(): (r: Report)
      reads this
      ensures r.sent == sentMessages && r.failed == failedMessages
      ensures r.summary.totalSent == |sentMessages| && r.summary.totalFailed == |failedMessages|
      ensures sentMessages == [] && failedMessages == [] ==> r.summary.successRate == 0.0
      ensures sentMessages != [] || failedMessages != [] ==>
        r.summary.successRate * ((|sentMessages| + |failedMessages|) as real) == 100.0 * (|sentMessages| as real)
      ensures 0.0 <= r.summary.successRate <= 100.0
      ensures r.summary.successRate == SuccessRate(|sentMessages|, |sentMessages| + |failedMessages|)
    {
      var total := |sentMessages| + |failedMessages|;
      Report(sentMessages, failedMessages,
             ReportSummary(|sentMessages|, |failedMessages|, SuccessRate(|sentMessages|, total)))
    }
  }

  /** Pass `i` of the run `send_bulk_messages` performs, written with the calls `send_bulk_messages` makes. */
  lemma JobStep(contacts: seq<Contact>, message: string, waitTime: int, delay: int, browser: Browser, i: nat)
    requires i < |contacts|
    ensures var c := contacts[i];
      var send := SendEffect(Phone.FormatPhoneNumber, Lookup(c, "phone_number", ""), Lookup(c, "name", "Unknown"),
                             browser.sends(i), browser.clock(i), waitTime);
      Step(JobOf(contacts, message, waitTime, delay, browser), i)
        == match Format(message, c)
           case Err(e) => RunState(Quiet, Some(TemplateFailed(e)))
           case Ok(_) =>
             if i + 1 == |contacts| then RunState(send, None)
             else if CanSleep(delay) then RunState(Then(send, Log([], [], [BetweenContacts(delay)])), None)
             else RunState(send, Some(SleepFailed(SleepError(delay))))
  {
  }

  /** Appending a stretch of the run and then one more pass is appending both at once. */
  lemma ThenAssociates(sent: seq<SentRecord>, failed: seq<FailedRecord>, pauses: seq<Pause>, a: Log, b: Log)
    ensures sent + a.sent + b.sent == sent + Then(a, b).sent
    ensures failed + a.failed + b.failed == failed + Then(a, b).failed
    ensures pauses + a.pauses + b.pauses == pauses + Then(a, b).pauses
  {
  }

  /**
   * What the result of `send_bulk_messages` over a live session, and the
   * report taken after it, say about the run: it completes when every row
   * personalises and the delay can be slept, and the summary of a completed
   * run counts every contact, the clicks and, with a valid wait, agrees with
   * the report.
   */
  lemma CompletedSummary(job: Job, result: BulkResult, report: ReportSummary)
    requires |job.contacts| > 0
    requires var run, n := Run(job, |job.contacts|), |job.contacts|;
      && result == (if run.error.Some? then Aborted(run.error.value)
                    else Completed(Summary(n, |run.log.sent|, |run.log.failed|, SuccessRate(|run.log.sent|, n))))
      && report.totalSent == |run.log.sent| && report.totalFailed == |run.log.failed|
      && report.successRate == SuccessRate(report.totalSent, report.totalSent + report.totalFailed)
    ensures (forall i :: 0 <= i < |job.contacts| ==> job.personalise(job.contacts[i]).Ok?)
            && (CanSleep(job.delay) || |job.contacts| <= 1)
            ==> result.Completed?
    ensures result.Completed? ==>
      var summary, log, n := result.summary, Run(job, |job.contacts|).log, |job.contacts|;
      && summary.total == n
      && summary.sent == report.totalSent == Clicks(job.browser.sends, n)
      && summary.failed == report.totalFailed
      && summary.successRate == SuccessRate(summary.sent, n)
      && Occurrences(log.pauses, BetweenContacts(job.delay)) == n - 1
      && (CanSleep(job.waitTime) ==>
            && summary.sent + summary.failed == n
            && summary.successRate == report.successRate
            && Occurrences(log.pauses, AfterSend(job.waitTime)) == summary.sent
            && |log.pauses| == summary.sent + n - 1)
  {
    if (forall i :: 0 <= i < |job.contacts| ==> job.personalise(job.contacts[i]).Ok?)
       && (CanSleep(job.delay) || |job.contacts| <= 1) {
      RunCompletes(job, |job.contacts|);
    }
    if result.Completed? {
      RunCompleted(job);
    }
  }

  /**
   * A fresh sender used the way the web front end uses it: load the table,
   * send to every contact if that worked, then take the report. On a run that
   * completes, every contact has one outcome, the rate of the summary and of
   * the report agree, the delay is taken between contacts only, and the wait
   * is taken once per sent message.
   */
  method FreshRun(csvFile: string, waitTime: int, source: CsvSource, message: string, delaySeconds: int,
                  browser: Browser)
    returns (sender: BulkSender, loaded: bool, result: BulkResult, report: Report)
    ensures loaded <==> source.Table? && HasRequiredColumns(source.columns)
    ensures result.NotStarted? <==> !loaded || source.records == [] || !browser.open.Authenticated?
    ensures !sender.driverLive
    ensures report == sender.GetReport()
    ensures loaded && source.records != [] && browser.open.Authenticated?
            && (forall i :: 0 <= i < |source.records| ==> Format(message, source.records[i]).Ok?)
            && (CanSleep(delaySeconds) || |source.records| <= 1)
            ==> result.Completed?
    ensures result.Completed? ==>
      var summary, n := result.summary, |source.records|;
      && summary.total == n
      && summary.sent == report.summary.totalSent == Clicks(browser.sends, n)
      && summary.failed == report.summary.totalFailed
      && summary.successRate == SuccessRate(summary.sent, n)
      && Occurrences(sender.pauses, BetweenContacts(delaySeconds)) == n - 1
      && (CanSleep(waitTime) ==>
            && summary.sent + summary.failed == n
            && summary.successRate == report.summary.successRate
            && Occurrences(sender.pauses, AfterSend(waitTime)) == summary.sent
            && |sender.pauses| == summary.sent + n - 1)
  {
    sender := new BulkSender(csvFile, waitTime);
    loaded := sender.LoadContacts(source);
    if !loaded {
      result := NotStarted;
      report := sender.GetReport();
      return;
    }
    result := sender.SendBulkMessages(message, delaySeconds, browser);
    report := sender.GetReport();
    ghost var n := |source.records|;
    ghost var job := JobOf(source.records, message, waitTime, delaySeconds, browser);
    if n > 0 && browser.open.Authenticated? {
      ghost var log := Run(job, n).log;
      assert sender.sentMessages == log.sent;
      assert sender.failedMessages == log.failed;
      assert sender.pauses == log.pauses;
      CompletedSummary(job, result, report.summary);
    }
  }
}
