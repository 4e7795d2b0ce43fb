/**
  The one-shot submission scheduler (models/scheduler.go), modelled
  sequentially. Time is an integer instant in nanoseconds and `now` is an
  explicit parameter; local midnight of a date and the local calendar reading
  of an instant are abstract (a `Zone`); the stop channel is the flag
  `stopClosed`; the cron table is a value; each HTTP attempt's outcome comes
  from an abstract sequence `send`.
 */
module Scheduler {
  import opened Wrappers
  import opened Decimal
  import opened Instants
  import opened Dates
  import opened LeaveRequests
  import opened Submitter
  import opened Storage
  import opened ScheduleSettings

  const DefaultPrepareSeconds: int := 5
  const DefaultRetryCount: int := 3
  const DefaultRetryInterval: int := 100

  /** A configured value, or its default when the configured one is zero or negative. */
  function OrDefault(configured: int, default: int): int {
    if configured <= 0 then default else configured
  }

  // ---------------------------------------------------------------------------
  // Local time

  /** A local calendar reading of an instant. */
  datatype Civil = Civil(year: int, month: int, day: int, hour: int, minute: int, second: int)

  /**
    The host's local time zone: the instant of local midnight of a date, and
    the local calendar reading of an instant. Both are left abstract.
   */
  datatype Zone = Zone(midnight: Date -> Instant, civil: Instant -> Civil)

  predicate CivilInRange(c: Civil) {
    1 <= c.month <= 12 && 1 <= c.day <= 31 && 0 <= c.hour < 24 && 0 <= c.minute < 60 && 0 <= c.second < 60
  }

  /**
    What the model assumes of the zone: midnight is strictly increasing over
    the dates the parser can return, midnight of a date reads back as that
    date at 00:00:00, and every reading is a possible wall-clock time.
   */
  ghost predicate ZoneValid(z: Zone) {
    (forall d1: Date, d2: Date :: ValidDate(d1) && ValidDate(d2) && Before(d1, d2) ==> z.midnight(d1) < z.midnight(d2))
    && (forall d: Date :: ValidDate(d) ==> z.civil(z.midnight(d)) == Civil(d.year, d.month, d.day, 0, 0, 0))
    && (forall t: Instant :: CivilInRange(z.civil(t)))
  }

  datatype DateError = EmptyDate | BadLayout

  /** `ParseScheduleDate`: local midnight of a `YYYY-MM-DD` date. */
  function ParseScheduleDate(z: Zone, s: string): (r: Result<Instant, DateError>)
    ensures r.Success? <==> ParseDate(s).Some?
    ensures r.Failure? ==> (r.error == EmptyDate <==> s == "")
  {
    if s == "" then Failure(EmptyDate)
    else match ParseDate(s)
      case None => Failure(BadLayout)
      case Some(d) => Success(z.midnight(d))
  }

  /** The parse succeeds exactly on the spellings of valid dates, giving that date at 00:00:00 local time. */
  lemma ParseScheduleDateSpec(z: Zone, s: string)
    ensures ParseScheduleDate(z, s).Success? <==> ParseDate(s).Some?
    ensures ParseScheduleDate(z, s).Success? ==>
      ParseScheduleDate(z, s).value == z.midnight(ParseDate(s).value)
      && s == FormatDate(ParseDate(s).value)
    ensures ParseScheduleDate(z, s).Success? && ZoneValid(z) ==>
      var d := ParseDate(s).value;
      z.civil(ParseScheduleDate(z, s).value) == Civil(d.year, d.month, d.day, 0, 0, 0)
  {
    if ParseDate(s).Some? {
      FormatParse(s);
    }
  }

  /** The cases of models/scheduler_test.go. */
  lemma ParseScheduleDateExamples(z: Zone)
    requires ZoneValid(z)
    ensures ParseScheduleDate(z, "") == Failure(EmptyDate)
    ensures ParseScheduleDate(z, "01-02-2026") == Failure(BadLayout)
    ensures ParseScheduleDate(z, "2026/02/01") == Failure(BadLayout)
    ensures ParseScheduleDate(z, "2026-02-01") == Success(z.midnight(Date(2026, 2, 1)))
    ensures ParseScheduleDate(z, "2026-12-31") == Success(z.midnight(Date(2026, 12, 31)))
    ensures z.civil(ParseScheduleDate(z, "2026-02-01").value) == Civil(2026, 2, 1, 0, 0, 0)
    ensures z.civil(ParseScheduleDate(z, "2026-12-31").value) == Civil(2026, 12, 31, 0, 0, 0)
  {
    ParseDateAcceptsExamples();
    ParseDateRejectsLayouts();
  }

  /** Two valid dates with the same local midnight are the same date, so the armed target names its date. */
  lemma MidnightIdentifiesDate(z: Zone, d1: Date, d2: Date)
    requires ZoneValid(z) && ValidDate(d1) && ValidDate(d2)
    requires z.midnight(d1) == z.midnight(d2)
    ensures d1 == d2
  {
  }

  // ---------------------------------------------------------------------------
  // The prepare instant and the cron entry

  /**
    `-time.Duration(p) * time.Second` as Go evaluates it: negation, then a
    multiplication that wraps around in `int64`.
   */
  function PrepareOffset(p: int): int {
    WrapInt64(WrapInt64(-p) * NanosPerSecond)
  }

  /** `targetTime.Add(-time.Duration(prepareSeconds) * time.Second)` with the default 5 for a non-positive setting. */
  function PrepareInstant(target: Instant, c: ScheduleConfig): Instant {
    target + PrepareOffset(OrDefault(c.prepareSeconds, DefaultPrepareSeconds))
  }

  /** The largest number of seconds a `time.Duration` can hold. */
  const MaxDurationSeconds: int := MaxInt64 / NanosPerSecond

  /** In range, the prepare instant is exactly `PrepareSeconds` (default 5) seconds before the target. */
  lemma PrepareInstantBeforeTarget(target: Instant, c: ScheduleConfig)
    requires c.prepareSeconds <= MaxDurationSeconds
    ensures PrepareInstant(target, c) == target - OrDefault(c.prepareSeconds, DefaultPrepareSeconds) * NanosPerSecond
    ensures PrepareInstant(target, c) < target
    ensures c.prepareSeconds <= 0 ==> PrepareInstant(target, c) == target - 5 * NanosPerSecond
  {
  }

  /** Beyond that range the multiplication wraps and the prepare instant lands after the target. */
  lemma PrepareInstantWraps(target: Instant, c: ScheduleConfig)
    requires c.prepareSeconds == MaxDurationSeconds + 1
    ensures PrepareInstant(target, c) > target
  {
  }

  /** The six-field cron entry "sec min hour day month *": seconds first, no year, any weekday. */
  datatype CronSpec = CronSpec(second: int, minute: int, hour: int, day: int, month: int)

  function CronSpecAt(c: Civil): CronSpec {
    CronSpec(c.second, c.minute, c.hour, c.day, c.month)
  }

  /** The spec string `fmt.Sprintf("%d %d %d %d %d *", …)` builds. */
  function CronSpecText(s: CronSpec): string {
    FormatInt(s.second) + " " + FormatInt(s.minute) + " " + FormatInt(s.hour) + " "
    + FormatInt(s.day) + " " + FormatInt(s.month) + " *"
  }

  /** The field ranges the cron parser accepts with a seconds field. */
  predicate CronSpecValid(s: CronSpec) {
    0 <= s.second < 60 && 0 <= s.minute < 60 && 0 <= s.hour < 24 && 1 <= s.day <= 31 && 1 <= s.month <= 12
  }

  /**
    Whether the entry fires at a local reading: every field but the year must
    match, so an entry left registered would fire again a year later.
   */
  predicate Fires(s: CronSpec, c: Civil) {
    c.second == s.second && c.minute == s.minute && c.hour == s.hour && c.day == s.day && c.month == s.month
  }

  /** The entry for 23:59:55 on 31 January, five seconds before midnight of 2026-02-01. */
  lemma CronSpecTextExample()
    ensures CronSpecText(CronSpec(55, 59, 23, 31, 1)) == "55 59 23 31 1 *"
  {
    assert DecimalString(55) == "55";
    assert DecimalString(59) == "59";
    assert DecimalString(23) == "23";
    assert DecimalString(31) == "31";
  }

  /** The `robfig/cron` instance: its registered entries and whether it was started. */
  datatype CronTable = CronTable(jobs: seq<CronSpec>, started: bool)

  // ---------------------------------------------------------------------------
  // The run state and its transitions

  /** The scheduler fields that `Start` and `Stop` assign: `running`, `targetTime`, the stop channel and `cron`. */
  datatype RunState = RunState(running: bool, targetTime: Instant, stopClosed: bool, cron: Option<CronTable>)

  /** A new scheduler: not running, zero target time, open stop channel, no cron. */
  const Initial: RunState := RunState(false, ZeroTime, false, None)

  datatype StartError = AlreadyRunning | BadDate(cause: DateError) | NoSavedFormId | RecordNotFound(id: int) | CronRejected

  /**
    What `Start` returns (`None` is Go's `nil`), the fields afterwards, and
    whether it launched `executeWithPrecision` on a goroutine at once.
   */
  datatype StartResult = StartResult(err: Option<StartError>, state: RunState, spawned: bool)

  /** `Start`, guard by guard, on the state before the call. */
  function StartStep(st: RunState, c: ScheduleConfig, z: Zone, rows: map<int, SavedForm>, now: Instant): (r: StartResult)
    ensures r.state.stopClosed == st.stopClosed
    ensures r.state.running ==> st.running || r.err == None
    ensures r.state.running && !st.running ==> c.enabled && 0 < c.savedFormId && c.savedFormId in rows
    ensures r.spawned ==> r.err == None && r.state.running && !st.running
  {
    if st.running then StartResult(Some(AlreadyRunning), st, false)
    else if !c.enabled then StartResult(None, st, false)
    else match ParseScheduleDate(z, c.date)
      case Failure(e) => StartResult(Some(BadDate(e)), st, false)
      case Success(target) =>
        var st1 := st.(targetTime := target);
        if target < now then StartResult(None, st1, false)
        else if c.savedFormId <= 0 then StartResult(Some(NoSavedFormId), st1, false)
        else if c.savedFormId !in rows then StartResult(Some(RecordNotFound(c.savedFormId)), st1, false)
        else
          var st2 := st1.(cron := Some(CronTable([], false)));
          var prepare := PrepareInstant(target, c);
          if prepare < now && target > now then StartResult(None, st2.(running := true), true)
          else
            var spec := CronSpecAt(z.civil(prepare));
            if !CronSpecValid(spec) then StartResult(Some(CronRejected), st2, false)
            else StartResult(None, st2.(running := true, cron := Some(CronTable([spec], true))), false)
  }

  datatype StopResult = NotRunning | Closed | PanicClosedTwice

  datatype StopTransition = StopTransition(result: StopResult, state: RunState)

  /**
    `Stop`: a no-op when not running; otherwise `close(stopChan)`, stop the
    cron, clear `running`. Closing a channel that is already closed panics in
    Go before anything else happens, so the state is then left as it was.
   */
  function StopStep(st: RunState): (r: StopTransition)
    ensures r.result == Closed <==> st.running && !st.stopClosed
    ensures r.result != PanicClosedTwice ==> !r.state.running
    ensures r.state.targetTime == st.targetTime
    ensures r.result == PanicClosedTwice ==> r.state == st
  {
    if !st.running then StopTransition(NotRunning, st)
    else if st.stopClosed then StopTransition(PanicClosedTwice, st)
    else
      var cron := if st.cron.Some? then Some(st.cron.value.(started := false)) else None;
      StopTransition(Closed, st.(stopClosed := true, cron := cron, running := false))
  }

  /**
    The entry `Start` registers fires at the prepare reading and, having no
    year field, at the same reading in any other year: nothing removes it
    after the run, so a scheduler left running would fire again a year later.
   */
  lemma ArmedEntryFiresEveryYear(st: RunState, c: ScheduleConfig, z: Zone, rows: map<int, SavedForm>, now: Instant, year: int)
    requires !st.running
    requires StartStep(st, c, z, rows, now).state.running && !StartStep(st, c, z, rows, now).spawned
    ensures ParseScheduleDate(z, c.date).Success?
    ensures StartStep(st, c, z, rows, now).state.cron.Some?
    ensures |StartStep(st, c, z, rows, now).state.cron.value.jobs| == 1
    ensures var spec := StartStep(st, c, z, rows, now).state.cron.value.jobs[0];
      var reading := z.civil(PrepareInstant(ParseScheduleDate(z, c.date).value, c));
      Fires(spec, reading) && Fires(spec, reading.(year := year))
  {
    var target := ParseScheduleDate(z, c.date).value;
    var reading := z.civil(PrepareInstant(target, c));
    assert StartStep(st, c, z, rows, now).state.cron == Some(CronTable([CronSpecAt(reading)], true));
  }

  /** `Start` while running is refused and changes no field. */
  lemma StartWhileRunning(st: RunState, c: ScheduleConfig, z: Zone, rows: map<int, SavedForm>, now: Instant)
    requires st.running
    ensures StartStep(st, c, z, rows, now) == StartResult(Some(AlreadyRunning), st, false)
  {
  }

  /** A disabled schedule starts without error and changes no field: still not running, target time untouched. */
  lemma StartDisabled(st: RunState, c: ScheduleConfig, z: Zone, rows: map<int, SavedForm>, now: Instant)
    requires !st.running && !c.enabled
    ensures StartStep(st, c, z, rows, now) == StartResult(None, st, false)
  {
  }

  /** An empty or malformed date is an error and changes no field. */
  lemma StartBadDate(st: RunState, c: ScheduleConfig, z: Zone, rows: map<int, SavedForm>, now: Instant)
    requires !st.running && c.enabled && ParseDate(c.date).None?
    ensures StartStep(st, c, z, rows, now).err == Some(BadDate(if c.date == "" then EmptyDate else BadLayout))
    ensures StartStep(st, c, z, rows, now).state == st
  {
  }

  /**
    A date whose midnight is already past returns nil without running, yet
    the target time has been overwritten; this holds even when the record
    is missing, because the past-date check comes first.
   */
  lemma StartExpired(st: RunState, c: ScheduleConfig, z: Zone, rows: map<int, SavedForm>, now: Instant, d: Date)
    requires !st.running && c.enabled && ParseDate(c.date) == Some(d)
    requires z.midnight(d) < now
    ensures StartStep(st, c, z, rows, now) == StartResult(None, st.(targetTime := z.midnight(d)), false)
  {
  }

  /** With a future target, a non-positive or unknown record id fails, leaves `running` false, and still overwrites the target time. */
  lemma StartMissingRecord(st: RunState, c: ScheduleConfig, z: Zone, rows: map<int, SavedForm>, now: Instant, d: Date)
    requires !st.running && c.enabled && ParseDate(c.date) == Some(d)
    requires z.midnight(d) >= now
    requires c.savedFormId <= 0 || c.savedFormId !in rows
    ensures StartStep(st, c, z, rows, now).err == Some(if c.savedFormId <= 0 then NoSavedFormId else RecordNotFound(c.savedFormId))
    ensures StartStep(st, c, z, rows, now).state == st.(targetTime := z.midnight(d))
  {
  }

  /** `Start` arms the scheduler exactly when it is idle, enabled, the date parses to a target not yet past, and the record exists. */
  lemma StartArmsIff(st: RunState, c: ScheduleConfig, z: Zone, rows: map<int, SavedForm>, now: Instant)
    requires ZoneValid(z)
    ensures var r := StartStep(st, c, z, rows, now);
      (r.err == None && r.state.running) <==>
        !st.running && c.enabled && ParseDate(c.date).Some?
        && !(z.midnight(ParseDate(c.date).value) < now)
        && c.savedFormId > 0 && c.savedFormId in rows
    ensures StartStep(st, c, z, rows, now).err != Some(CronRejected)
  {
    if !st.running && c.enabled && ParseDate(c.date).Some? {
      assert CivilInRange(z.civil(PrepareInstant(z.midnight(ParseDate(c.date).value), c)));
    }
  }

  /**
    A successful `Start`: running, next run time = midnight of the date;
    preparation starts at once iff prepare < now < target, otherwise one
    started cron entry is registered for the local reading of the prepare
    instant. The stop channel is never touched by `Start`.
   */
  lemma StartArmed(st: RunState, c: ScheduleConfig, z: Zone, rows: map<int, SavedForm>, now: Instant, d: Date)
    requires !st.running && c.enabled && ParseDate(c.date) == Some(d)
    requires z.midnight(d) >= now && c.savedFormId > 0 && c.savedFormId in rows
    requires ZoneValid(z)
    ensures var r := StartStep(st, c, z, rows, now);
      var target := z.midnight(d);
      var prepare := PrepareInstant(target, c);
      r.err == None && r.state.running && r.state.targetTime == target
      && r.state.stopClosed == st.stopClosed
      && (r.spawned <==> prepare < now < target)
      && (r.spawned ==> r.state.cron == Some(CronTable([], false)))
      && (!r.spawned ==> r.state.cron == Some(CronTable([CronSpecAt(z.civil(prepare))], true)))
    ensures z.civil(StartStep(st, c, z, rows, now).state.targetTime) == Civil(d.year, d.month, d.day, 0, 0, 0)
  {
    assert CivilInRange(z.civil(PrepareInstant(z.midnight(d), c)));
  }

  /**
    Starting exactly at the target instant is not "expired" and not
    "immediate" (the target is not after now), so the cron entry is set for
    a prepare instant that has already passed.
   */
  lemma StartAtTargetArmsPastEntry(st: RunState, c: ScheduleConfig, z: Zone, rows: map<int, SavedForm>, d: Date)
    requires !st.running && c.enabled && ParseDate(c.date) == Some(d)
    requires c.savedFormId > 0 && c.savedFormId in rows
    requires c.prepareSeconds <= MaxDurationSeconds
    requires ZoneValid(z)
    ensures var now := z.midnight(d);
      var r := StartStep(st, c, z, rows, now);
      r.err == None && r.state.running && !r.spawned && PrepareInstant(now, c) < now
  {
    assert CivilInRange(z.civil(PrepareInstant(z.midnight(d), c)));
  }

  /** `Start` never reopens or closes the stop channel. */
  lemma StartKeepsStopSignal(st: RunState, c: ScheduleConfig, z: Zone, rows: map<int, SavedForm>, now: Instant)
    ensures StartStep(st, c, z, rows, now).state.stopClosed == st.stopClosed
  {
  }

  /** `Stop` when not running is a no-op; the first `Stop` of a running scheduler closes the channel, stops the cron and clears `running`. */
  lemma StopSemantics(st: RunState)
    ensures !st.running ==> StopStep(st) == StopTransition(NotRunning, st)
    ensures st.running && !st.stopClosed ==>
      StopStep(st).result == Closed && !StopStep(st).state.running && StopStep(st).state.stopClosed
      && StopStep(st).state.targetTime == st.targetTime
      && (st.cron.Some? ==> StopStep(st).state.cron == Some(st.cron.value.(started := false)))
    ensures StopStep(StopStep(st).state).result != Closed
  {
  }

  /**
    The stop channel is made once, with the scheduler: after
    Start, Stop, Start, the second Stop closes it again, which panics.
   */
  lemma RestartThenStopClosesTwice(c: ScheduleConfig, z: Zone, rows: map<int, SavedForm>, now1: Instant, now2: Instant)
    requires StartStep(Initial, c, z, rows, now1).state.running
    requires StartStep(StopStep(StartStep(Initial, c, z, rows, now1).state).state, c, z, rows, now2).state.running
    ensures var s1 := StartStep(Initial, c, z, rows, now1).state;
      var s2 := StopStep(s1);
      var s3 := StartStep(s2.state, c, z, rows, now2).state;
      s2.result == Closed && StopStep(s3).result == PanicClosedTwice
  {
    var s1 := StartStep(Initial, c, z, rows, now1).state;
    StartKeepsStopSignal(Initial, c, z, rows, now1);
    var s2 := StopStep(s1);
    StartKeepsStopSignal(s2.state, c, z, rows, now2);
  }

  /** The scenario of models/scheduler_test.go: a future date with a stored record starts running, and `Stop` ends it. */
  lemma StartThenStop(c: ScheduleConfig, z: Zone, rows: map<int, SavedForm>, now: Instant, d: Date)
    requires ZoneValid(z)
    requires c.enabled && ParseDate(c.date) == Some(d) && z.midnight(d) > now
    requires c.savedFormId > 0 && c.savedFormId in rows
    ensures StartStep(Initial, c, z, rows, now).state.running
    ensures StartStep(StartStep(Initial, c, z, rows, now).state, c, z, rows, now).err == Some(AlreadyRunning)
    ensures StopStep(StartStep(Initial, c, z, rows, now).state).result == Closed
    ensures !StopStep(StartStep(Initial, c, z, rows, now).state).state.running
  {
    StartArmed(Initial, c, z, rows, now, d);
  }

  // ---------------------------------------------------------------------------
  // Submission with retries

  /** `preparedRequest`: the payload and the URL a request is (re)built from. */
  datatype PreparedRequest = PreparedRequest(formData: Values, targetUrl: string)

  datatype SendFailure = TransportFailed | BadStatus(code: int)

  function FailureOf(o: SendOutcome): SendFailure {
    match o
    case TransportErr => TransportFailed
    case Status(code) => BadStatus(code)
  }

  /** The wrapped error `submitWithRetry` returns: the attempt budget and the last failure. */
  datatype RetryError = RetryError(retryCount: int, last: SendFailure)

  /**
    What one run of `submitWithRetry` did: how many requests it sent, their
    payloads, how many times it slept and for how long each time (a
    `time.Duration`), and the error it returned (`None` is `nil`).
   */
  datatype RetryReport = RetryReport(attempts: nat, sent: seq<Values>, sleeps: nat, sleepEach: int, err: Option<RetryError>)

  /** `time.Duration(retryInterval) * time.Millisecond`, default 100, wrapping in `int64`. */
  function RetrySleep(c: ScheduleConfig): int {
    WrapInt64(OrDefault(c.retryInterval, DefaultRetryInterval) * NanosPerMilli)
  }

  /**
    The promise of `submitWithRetry`: between 1 and RetryCount (default 3)
    attempts, each sending the same payload; every attempt before the last
    failed; success iff the last attempt got exactly 200; failure only after
    the whole budget, carrying the budget and the last attempt's failure; one
    sleep before each attempt after the first.
   */
  ghost predicate RetryContract(c: ScheduleConfig, prepared: PreparedRequest, send: nat -> SendOutcome, rep: RetryReport) {
    var n := OrDefault(c.retryCount, DefaultRetryCount);
    1 <= rep.attempts <= n
    && |rep.sent| == rep.attempts
    && (forall i :: 0 <= i < |rep.sent| ==> rep.sent[i] == prepared.formData)
    && rep.sleeps == rep.attempts - 1
    && rep.sleepEach == RetrySleep(c)
    && (forall i :: 0 <= i < rep.attempts - 1 ==> !Accepted(send(i)))
    && (rep.err.None? <==> Accepted(send(rep.attempts - 1)))
    && (rep.err.Some? ==> rep.attempts == n && rep.err.value == RetryError(n, FailureOf(send(n - 1))))
  }

  /** `submitWithRetry`: attempt `i` gets the outcome `send(i)`. */
  method SubmitWithRetry(c: ScheduleConfig, prepared: PreparedRequest, send: nat -> SendOutcome) returns (rep: RetryReport)
    ensures RetryContract(c, prepared, send, rep)
  {
    var retryCount := c.retryCount;
    if retryCount <= 0 {
      retryCount := DefaultRetryCount;
    }
    var sleep := RetrySleep(c);
    var lastErr: Option<SendFailure> := None;
    var sent: seq<Values> := [];
    var sleeps: nat := 0;
    var i := 0;
    while i < retryCount
      invariant 0 <= i <= retryCount
      invariant |sent| == i && forall k :: 0 <= k < i ==> sent[k] == prepared.formData
      invariant sleeps == if i == 0 then 0 else i - 1
      invariant forall k :: 0 <= k < i ==> !Accepted(send(k))
      invariant i > 0 ==> lastErr == Some(FailureOf(send(i - 1)))
    {
      if i > 0 {
        // the body was consumed by the previous attempt: sleep, then rebuild the request from the same form data
        sleeps := sleeps + 1;
      }
      var outcome := send(i);
      sent := sent + [prepared.formData];
      if outcome.TransportErr? {
        lastErr := Some(TransportFailed);
      } else if outcome.code == 200 {
        return RetryReport(i + 1, sent, sleeps, sleep, None);
      } else {
        lastErr := Some(BadStatus(outcome.code));
      }
      i := i + 1;
    }
    rep := RetryReport(retryCount, sent, sleeps, sleep, Some(RetryError(retryCount, lastErr.value)));
  }

  /** The run succeeds exactly when one of the first RetryCount outcomes is a 200, and then stops at the first one. */
  lemma RetrySucceedsIff(c: ScheduleConfig, prepared: PreparedRequest, send: nat -> SendOutcome, rep: RetryReport)
    requires RetryContract(c, prepared, send, rep)
    ensures rep.err.None? <==> exists k :: 0 <= k < OrDefault(c.retryCount, DefaultRetryCount) && Accepted(send(k))
    ensures rep.err.None? ==> forall k :: 0 <= k < rep.attempts - 1 ==> !Accepted(send(k))
  {
  }

  /** The contract leaves no freedom: two reports it admits for the same inputs are equal. */
  lemma RetryReportUnique(c: ScheduleConfig, prepared: PreparedRequest, send: nat -> SendOutcome, r1: RetryReport, r2: RetryReport)
    requires RetryContract(c, prepared, send, r1) && RetryContract(c, prepared, send, r2)
    ensures r1 == r2
  {
    assert r1.sent == r2.sent;
  }

  /** A form that always fails is tried exactly RetryCount times (3 when unset), with a sleep between consecutive attempts. */
  lemma RetryAlwaysFailing(c: ScheduleConfig, prepared: PreparedRequest, send: nat -> SendOutcome, rep: RetryReport)
    requires forall k :: !Accepted(send(k))
    requires RetryContract(c, prepared, send, rep)
    ensures var n := OrDefault(c.retryCount, DefaultRetryCount);
      rep.attempts == n && rep.sleeps == n - 1 && rep.err == Some(RetryError(n, FailureOf(send(n - 1))))
    ensures c.retryCount <= 0 ==> rep.attempts == 3 && rep.sleeps == 2
  {
  }

  /** A form that fails once and then accepts is tried exactly twice and succeeds. */
  lemma RetryFailOnceThenSucceed(c: ScheduleConfig, prepared: PreparedRequest, send: nat -> SendOutcome, rep: RetryReport)
    requires OrDefault(c.retryCount, DefaultRetryCount) >= 2
    requires !Accepted(send(0)) && Accepted(send(1))
    requires RetryContract(c, prepared, send, rep)
    ensures rep.attempts == 2 && rep.sleeps == 1 && rep.err == None
  {
  }

  // ---------------------------------------------------------------------------
  // The execution cycle

  /** `time.Until(targetTime)`, with a negative wait clamped to zero. */
  function Wait(target: Instant, now: Instant): int {
    if target - now < 0 then 0 else target - now
  }

  /** The stop channel wins the `select` only when there is a wait at all and the channel is closed before the timer fires. */
  predicate CancelledDuringWait(target: Instant, now: Instant, stopClosed: bool) {
    Wait(target, now) > 0 && stopClosed
  }

  /**
    After Start, Stop, Start the stop channel is still closed, so the second
    cycle is cancelled as soon as it starts waiting for a target still ahead.
   */
  lemma RestartedCycleCancelled(c: ScheduleConfig, z: Zone, rows: map<int, SavedForm>, now1: Instant, now2: Instant, now3: Instant)
    requires StartStep(Initial, c, z, rows, now1).state.running
    requires StartStep(StopStep(StartStep(Initial, c, z, rows, now1).state).state, c, z, rows, now2).state.running
    ensures var s3 := StartStep(StopStep(StartStep(Initial, c, z, rows, now1).state).state, c, z, rows, now2).state;
      now3 < s3.targetTime ==> CancelledDuringWait(s3.targetTime, now3, s3.stopClosed)
  {
    StartKeepsStopSignal(Initial, c, z, rows, now1);
    var s2 := StopStep(StartStep(Initial, c, z, rows, now1).state);
    StartKeepsStopSignal(s2.state, c, z, rows, now2);
  }

  datatype PrepFailure = RecordMissing(id: int) | RequestBuildFailed

  /** How one run of `executeWithPrecision` ended. */
  datatype ExecOutcome = PrepFailed(why: PrepFailure) | Cancelled(wait: int) | Executed(wait: int, report: RetryReport)

  /** The scheduler object. */
  class Scheduler {
    const config: ScheduleConfig
    const submitter: FormSubmitter
    const store: Store
    const zone: Zone

    var running: bool
    var targetTime: Instant
    var stopClosed: bool
    var cron: Option<CronTable>

    function State(): RunState
      reads this
    {
      RunState(running, targetTime, stopClosed, cron)
    }

    /** `NewScheduler`. */
    constructor (config: ScheduleConfig, submitter: FormSubmitter, store: Store, zone: Zone)
      ensures this.config == config && this.submitter == submitter && this.store == store && this.zone == zone
      ensures State() == Initial
    {
      this.config := config;
      this.submitter := submitter;
      this.store := store;
      this.zone := zone;
      running := false;
      targetTime := ZeroTime;
      stopClosed := false;
      cron := None;
    }

    function IsRunning(): bool
      reads this
    {
      running
    }

    function GetNextRunTime(): Instant
      reads this
    {
      targetTime
    }

    /** `Start` at instant `now`; `spawned` says whether `executeWithPrecision` was launched on a goroutine. */
    method Start(now: Instant) returns (err: Option<StartError>, spawned: bool)
      modifies this
      ensures StartStep(old(State()), config, zone, store.rows, now) == StartResult(err, State(), spawned)
    {
      spawned := false;
      if running {
        return Some(AlreadyRunning), false;
      }
      if !config.enabled {
        return None, false;
      }
      var parsed := ParseScheduleDate(zone, config.date);
      if parsed.Failure? {
        return Some(BadDate(parsed.error)), false;
      }
      var target := parsed.value;
      targetTime := target;
      if target < now {
        return None, false;
      }
      if config.savedFormId <= 0 {
        return Some(NoSavedFormId), false;
      }
      var found := store.GetByID(config.savedFormId);
      if found.Failure? {
        return Some(RecordNotFound(config.savedFormId)), false;
      }
      cron := Some(CronTable([], false));
      var prepare := PrepareInstant(target, config);
      if prepare < now && target > now {
        spawned := true;
      } else {
        var spec := CronSpecAt(zone.civil(prepare));
        if !CronSpecValid(spec) {
          return Some(CronRejected), false;
        }
        cron := Some(CronTable([spec], true));
      }
      running := true;
      err := None;
    }

    /** `Stop`; `PanicClosedTwice` stands for Go's "close of closed channel" panic. */
    method Stop() returns (r: StopResult)
      modifies this
      ensures StopStep(old(State())) == StopTransition(r, State())
    {
      if !running {
        return NotRunning;
      }
      if stopClosed {
        return PanicClosedTwice;
      }
      stopClosed := true;
      if cron.Some? {
        cron := Some(cron.value.(started := false));
      }
      running := false;
      r := Closed;
    }

    /**
      `executeWithPrecision`, run when the cycle is triggered; `now` is the
      instant the wait is computed. A `Stop` that comes during the wait is a
      `Stop` called before this method. It assigns no field: in particular it
      never clears `running`.
     */
    method ExecuteWithPrecision(now: Instant, send: nat -> SendOutcome) returns (r: ExecOutcome)
      ensures r.PrepFailed? <==> config.savedFormId !in store.rows || !submitter.formUrlParses
      ensures r.PrepFailed? ==>
        r.why == if config.savedFormId !in store.rows then RecordMissing(config.savedFormId) else RequestBuildFailed
      ensures !r.PrepFailed? ==> r.wait == Wait(targetTime, now)
      ensures r.Cancelled? <==> !r.PrepFailed? && CancelledDuringWait(targetTime, now, stopClosed)
      ensures r.Executed? ==>
        RetryContract(config, PreparedRequest(Payload(submitter.entryMap, ToLeaveRequest(store.rows[config.savedFormId])), submitter.formUrl), send, r.report)
    {
      // prepareSubmission
      var found := store.GetByID(config.savedFormId);
      if found.Failure? {
        return PrepFailed(RecordMissing(config.savedFormId));
      }
      var req := ToLeaveRequest(found.value);
      var formData := BuildFormData(submitter, req);
      if !submitter.formUrlParses {
        return PrepFailed(RequestBuildFailed);
      }
      var prepared := PreparedRequest(formData, submitter.formUrl);

      var wait := targetTime - now;
      if wait < 0 {
        wait := 0;
      }
      if wait > 0 && stopClosed {
        return Cancelled(wait);
      }
      var report := SubmitWithRetry(config, prepared, send);
      r := Executed(wait, report);
    }
  }
}
