# TRA vacation helper — a verified model of its core

The program fills in a railway company's leave request on a Google Form.
A leave request has six fields: name, employee id, start date, end date,
leave type and leave password. The program can do three things with one:

- validate it and post it at once;
- save it in a local SQLite table for later;
- let a one-shot scheduler post a saved request at local midnight of a
  configured date. This is the moment the form opens. The scheduler
  prepares the request a few seconds early, waits for the exact instant,
  then posts with retries.

This project models, in Dafny, the parts that decide what happens:

- request validation (`Validator`);
- building the form payload and submitting it (`Submitter`);
- the saved-form table (`Storage`);
- the scheduler's start/stop state machine, its cron entry, its execution
  cycle and its retry loop (`Scheduler`);
- loading the configuration: defaults, JSON file, environment overrides,
  validation (`Configuration`).

The shared pieces live in their own modules:

- `Decimal`: decimal digits, Go's `strconv.ParseInt` and two's-complement
  `int64` wrap-around;
- `Dates`: Go's `time.Parse("2006-01-02", …)`, with its round trip to
  `Format` proved;
- `LeaveRequests`: the request record and the fixed field order;
- `Instants`: instants in nanoseconds since the Unix epoch;
- `ScheduleSettings`: the schedule settings record, which the configuration
  and the scheduler declare with the same fields.

The source's stateful objects are classes with `modifies` clauses:

- the store (`Storage.Store`), whose table is a map field;
- the scheduler (`Scheduler.Scheduler`);
- the configuration (`Configuration.Config`).

Each method is proved against a specification function:

- `Insert`, `Remove` and `Replace` for the store;
- `StartStep` and `StopStep` for the scheduler;
- `Unmarshalled`, `EnvOverridden` and `LoadSpec` for the configuration.

The lemmas state the source's promises about those functions.

External inputs are parameters:

- Time is an explicit `now`.
- The local time zone is an abstract `Zone`. It gives the instant of local
  midnight of a date and the calendar reading of an instant, and
  `ZoneValid` states what is assumed of it.
- Each HTTP POST's result is an abstract `SendOutcome` (a transport error,
  or a status code). The retry loop reads attempt `i`'s outcome from
  `send(i)`.
- The file system is a map from path to what reading and decoding it
  gives. The environment is a map from variable name to value.

Some behaviour is easy to miss when reading the code, so it is proved as a
lemma:

- A past date makes `Start` return no error even when the saved form is
  missing (`StartExpired`).
- `Start` exactly at the target instant arms a cron entry for a prepare
  instant that has already passed (`StartAtTargetArmsPastEntry`).
- The cron entry has no year field, so it would fire again every year
  (`ArmedEntryFiresEveryYear`).
- The stop channel is created only once, with the scheduler. So Start,
  Stop, Start, Stop closes it twice, which panics in Go
  (`RestartThenStopClosesTwice`). A cycle started after a restart is
  cancelled as soon as it waits (`RestartedCycleCancelled`).
- A `prepare_seconds` value one second beyond the range of a
  `time.Duration` (and some larger values) wraps around, which moves the
  prepare instant after the target (`PrepareInstantWraps`).
- Without a configuration file, `Load` always fails: no environment
  variable can set the entry ids (`LoadWithoutFileFails`).

## Model

| member | source | states |
|---|---|---|
| Decimal.ParseInt64 | config/config.go:109-119 | `strconv.ParseInt`/`Atoi` accept only an optional sign and decimal digits; any value they return lies in the `int64` range |
| Decimal.ParseFormatInt | config/config.go:109-119 | every `int64` parses back from its decimal spelling |
| Decimal.ParseInt64Syntax | config/config.go:109-119 | an accepted string is non-empty, starts with a digit or a sign, and is all digits after that |
| Decimal.ParseInt64RejectsOverflow | config/config.go:109-119 | the spelling of a value above `int64` is rejected rather than wrapped, so the override is ignored |
| Decimal.ParseInt64Examples | config/config.go:109-119 | "" and "-" are rejected, as are a leading space and underscores; "42", "-7" and "+3" are accepted |
| Decimal.DecimalRoundTrip | models/scheduler.go:113-119 | the `%d` spelling of a natural number reads back as that number |
| Decimal.WrapInt64 | models/scheduler.go:104 | the result is in the `int64` range, is congruent to the input modulo 2^64, and equals the input when the input is in range |
| Dates.DaysIn | models/validator.go:75 | every month has 28 to 31 days (Gregorian leap rule) |
| Dates.ParseDate | models/validator.go:71-76 | a date the layout accepts is valid: year 0000-9999, month 1-12, a day that exists in that month |
| Dates.ParseFormat | models/validator.go:71-76 | every valid date parses back from its `YYYY-MM-DD` spelling |
| Dates.FormatParse | models/validator.go:71-76 | every accepted string is the canonical spelling of the date it names, so there are no alternative spellings |
| Dates.ParseDateIff | models/validator.go:71-76 | a string parses to date d if and only if d is valid and the string is d's spelling |
| Dates.ParseDateAcceptsExamples | models/scheduler.go:309-321 | "2026-02-01" and "2026-12-31" are accepted as those dates |
| Dates.ParseDateRejectsLayouts | models/scheduler.go:309-321 | "", "01-02-2026", "2026/02/01" and "2026-2-01" are rejected |
| Dates.ParseDateRejectsFebruary30 | models/validator.go:71-76 | a well-formed spelling of a day the month lacks is rejected |
| LeaveRequests.FieldOrderIsPermutation | models/leave_request.go:4-11 | the field order lists each of the six fields once, and their keys are distinct |
| Validator.ParseRequestDate | models/validator.go:71-76 | an empty date string is an error before any parsing; any other string is parsed with the `2006-01-02` layout |
| Validator.Validate | models/validator.go:25-68 | an error always names one of the six request fields, and nil means every field is present and the leave type is 近假 or 長假; `ValidateAcceptsIff` and the lemmas below give the full order of checks |
| Validator.ValidateAcceptsIff | models/validator.go:25-68 | `Validate` returns nil if and only if all six fields are non-empty, both dates parse, the end is not before the start, and the type is 近假 or 長假 |
| Validator.FirstEmptyFieldWins | models/validator.go:27-44 | the first empty field in the order name, employee_id, start_date, end_date, leave_type, password is the one reported, with its own message |
| Validator.StartDateCheckedFirst | models/validator.go:47-50 | with every field present, a malformed start date is reported on start_date whatever the end date is |
| Validator.EndDateFormatChecked | models/validator.go:52-55 | with a good start date, a malformed end date is reported on end_date |
| Validator.DateOrderBeforeLeaveType | models/validator.go:57-65 | an end date before the start date is reported on end_date before the leave type is looked at; equal dates pass the order check |
| Validator.ValidateExamples | models/validator.go:25-68 | a one-day leave passes; a missing employee id, reversed dates and an unknown leave type give their errors |
| Submitter.BuildFormData | models/submitter.go:31-54 | the six guarded `Set` calls produce exactly `Payload(entryMap, req)` |
| Submitter.PayloadKeys | models/submitter.go:31-54 | a key is in the payload if and only if some field's entry id is present, non-empty and equal to that key |
| Submitter.PayloadLastWriterWins | models/submitter.go:31-54 | a key's value is that of the last field in the order that maps to it, because `Set` overwrites |
| Submitter.PayloadSingleValued | models/submitter.go:31-54 | every key of the payload holds exactly one value |
| Submitter.PayloadCarriesField | models/submitter.go:31-54 | a field whose entry id no other field shares is sent under that id with its own value |
| Submitter.PayloadIgnoresOtherKeys | models/submitter.go:31-54 | entry-map keys other than the six field names never affect the payload |
| Submitter.PayloadExample | models/submitter.go:31-54 | a present id sends its field; an empty id sends nothing for its field |
| Submitter.Submit | models/submitter.go:57-106 | an error (not a result) comes back if and only if the request validated and the form URL does not build a request; whatever is posted is the payload of a validated request; success needs a 200; `SubmitInvalidNotSent`, `SubmitTransportError` and `SubmitStatus` give each branch |
| Submitter.SubmitInvalidNotSent | models/submitter.go:59-64 | an invalid request gets a failed result (not an error) carrying "驗證失敗：" plus the validation message, and nothing is posted |
| Submitter.SubmitTransportError | models/submitter.go:82-88 | a transport failure gives a failed result with "無法連線到 Google Form" and a nil error, after the payload was posted |
| Submitter.SubmitStatus | models/submitter.go:66-105 | a valid request whose URL builds is posted with its payload; status 200 gives success with "表單提交成功", any other status a failed result with "Google Form 提交失敗", both with a nil error |
| Submitter.SubmitSuccessIff | models/submitter.go:57-106 | success is reported if and only if the request validates, the request builds, and the status is exactly 200 |
| Submitter.SubmitPostsPayload | models/submitter.go:66-82 | whatever `Submit` posts is the payload of a request that validated |
| Storage.ToLeaveRequestProjection | models/storage.go:28-37 | the contract of `ToLeaveRequest`: two saved forms give the same request if and only if their six request fields agree; id, label and timestamps are dropped |
| Storage.InsertKeepsValid | models/storage.go:104-122 | an insert keeps every row stored under its own id, with ids at most the AUTOINCREMENT high-water mark |
| Storage.SaveThenGet | models/storage.go:104-154 | `Save` returns a fresh id; `GetByID` of that id gives the saved label and six fields with both timestamps set to now; other rows are unchanged |
| Storage.GetAbsentNotFound | models/storage.go:146-148 | `GetByID` of an absent id is a not-found error |
| Storage.DeletePresent | models/storage.go:197-213 | deleting a present id removes exactly that row, and a later `GetByID` of it fails |
| Storage.DeleteAbsent | models/storage.go:208-210 | deleting an absent id is an error and the table is unchanged |
| Storage.UpdateSemantics | models/storage.go:216-239 | updating an absent id is an error; a present row gets the new label and six fields, keeps its id and creation time, and no other row changes |
| Storage.DeletedIdNotReused | models/storage.go:81 | because of AUTOINCREMENT, a deleted id is never handed out again by `Save` |
| Storage.Store.constructor | models/storage.go:45-101 | the store holds exactly the table of the database file it opens: an existing file keeps its rows and its AUTOINCREMENT counter, and a new file is the empty table with counter 0 |
| Storage.Store.Save | models/storage.go:104-122 | the table and the returned id are those `Insert` gives, and the table invariant is kept |
| Storage.Store.GetByID | models/storage.go:125-154 | the call succeeds if and only if a row has that id, and then returns that row |
| Storage.Store.List | models/storage.go:157-194 | every row is returned exactly once |
| Storage.Store.Delete | models/storage.go:197-213 | the call succeeds if and only if the id was present; the new table is `Remove`'s result, or the old table on error |
| Storage.Store.Update | models/storage.go:216-239 | the call succeeds if and only if the id was present; the new table is `Replace`'s result, or the old table on error |
| Scheduler.ParseScheduleDate | models/scheduler.go:309-321 | the parse succeeds if and only if the string spells a valid date; a failure is the empty-date error exactly when the string is empty, otherwise the layout error; `ParseScheduleDateSpec` gives the instant |
| Scheduler.ParseScheduleDateSpec | models/scheduler.go:309-321 | the parse succeeds if and only if the string is the spelling of a valid date, and then gives that date's local midnight, which reads back as 00:00:00 |
| Scheduler.ParseScheduleDateExamples | models/scheduler.go:309-321 | "" is the empty-date error; "01-02-2026" and "2026/02/01" are layout errors; "2026-02-01" and "2026-12-31" give midnight of those dates |
| Scheduler.MidnightIdentifiesDate | models/scheduler.go:315 | two valid dates with the same local midnight are the same date |
| Scheduler.PrepareInstantBeforeTarget | models/scheduler.go:100-104 | within the `Duration` range, preparation starts exactly PrepareSeconds (default 5 when ≤ 0) seconds before the target |
| Scheduler.PrepareInstantWraps | models/scheduler.go:104 | one second beyond that range, the int64 multiplication wraps and the prepare instant falls after the target |
| Scheduler.CronSpecTextExample | models/scheduler.go:113-119 | 23:59:55 on 31 January is written "55 59 23 31 1 *" |
| Scheduler.StartStep | models/scheduler.go:59-134 | `Start` never touches the stop channel; it only ever sets running without an error, and only for an enabled schedule whose saved form exists; a goroutine is launched only when it starts running; the lemmas below give each guard |
| Scheduler.ArmedEntryFiresEveryYear | models/scheduler.go:113-124 | when `Start` arms a cron entry, it is the only entry and it fires at the prepare instant's local reading, and at the same reading in any year, since the spec has no year field |
| Scheduler.StartWhileRunning | models/scheduler.go:63-65 | `Start` while running returns the already-running error and changes nothing |
| Scheduler.StartDisabled | models/scheduler.go:67-70 | a disabled schedule returns nil and changes nothing |
| Scheduler.StartBadDate | models/scheduler.go:73-76 | an empty or malformed date is an error and changes nothing |
| Scheduler.StartExpired | models/scheduler.go:77-84 | a past target returns nil without running, yet overwrites the next run time, and the saved form is not checked |
| Scheduler.StartMissingRecord | models/scheduler.go:87-94 | with a future target, a non-positive or unknown saved-form id is an error, leaves the scheduler stopped, and still overwrites the next run time |
| Scheduler.StartArmsIff | models/scheduler.go:59-134 | `Start` arms the scheduler if and only if it was stopped and enabled, the date parses to a target that is not past, and the saved form exists; it never fails on the cron entry |
| Scheduler.StartArmed | models/scheduler.go:96-134 | when armed, the next run time is the date's midnight; preparation starts at once if and only if prepare < now < target; otherwise exactly one started cron entry is set for the prepare reading |
| Scheduler.StartAtTargetArmsPastEntry | models/scheduler.go:80-108 | `Start` exactly at the target instant is not expired and not immediate, so it arms a cron entry whose instant has passed |
| Scheduler.StartKeepsStopSignal | models/scheduler.go:59-134 | `Start` never touches the stop channel |
| Scheduler.StopStep | models/scheduler.go:137-155 | `Stop` closes the channel if and only if it was running with the channel open; unless it panics it leaves the scheduler stopped; a second close panics before any field changes, so the scheduler stays running; it never changes the next run time |
| Scheduler.StopSemantics | models/scheduler.go:137-155 | `Stop` is a no-op when stopped; otherwise it closes the channel, stops the cron and clears running, keeping the next run time; a second `Stop` is never another close |
| Scheduler.RestartThenStopClosesTwice | models/scheduler.go:137-155 | the stop channel is made once, by `NewScheduler`, so after Start, Stop and Start the next `Stop` closes it a second time, which panics |
| Scheduler.StartThenStop | models/scheduler.go:59-155 | a future date with a stored form starts running, a second `Start` is refused, and `Stop` ends it |
| Scheduler.SubmitWithRetry | models/scheduler.go:254-306 | 1 to RetryCount (default 3) attempts, all with the same payload; every attempt before the last failed; success if and only if the last got exactly 200; failure only after the whole budget, carrying the budget and the last failure; one sleep of RetryInterval ms (default 100) between attempts |
| Scheduler.RetrySucceedsIff | models/scheduler.go:267-305 | the submission succeeds if and only if one of the first RetryCount outcomes is a 200, and then it stops at the first 200 |
| Scheduler.RetryReportUnique | models/scheduler.go:254-306 | the retry contract fixes the whole report: two reports it admits for the same inputs are equal |
| Scheduler.RetryAlwaysFailing | models/scheduler.go:267-305 | a form that never answers 200 gets exactly RetryCount attempts (three by default) with one sleep fewer, and the error carries the budget and the last failure |
| Scheduler.RetryFailOnceThenSucceed | models/scheduler.go:267-305 | with a budget of at least two, a form that fails once and then accepts gets exactly two attempts and succeeds |
| Scheduler.RestartedCycleCancelled | models/scheduler.go:228-237 | after Start, Stop and Start, the stop channel is still closed, so the new cycle is cancelled as soon as it waits for a future target |
| Scheduler.Scheduler.constructor | models/scheduler.go:48-57 | a new scheduler is stopped, with the zero time as its next run time, an open stop channel and no cron |
| Scheduler.Scheduler.Start | models/scheduler.go:59-134 | the error, the new fields and whether a goroutine was launched are exactly `StartStep` of the old fields |
| Scheduler.Scheduler.Stop | models/scheduler.go:137-155 | the outcome and the new fields are exactly `StopStep` of the old fields |
| Scheduler.Scheduler.ExecuteWithPrecision | models/scheduler.go:171-251 | preparation fails if and only if the form is missing or the request cannot be built; the wait is the time to the target, or 0 if it has passed; the cycle is cancelled if and only if there is a wait and the stop channel is closed; otherwise the retry contract holds for the saved form's payload |
| Configuration.FirstMissingEntry | config/config.go:133-138 | gives nothing if and only if every required key has a non-empty entry; otherwise the first key in order whose entry is empty or missing |
| Configuration.Validate | config/config.go:123-141 | the form_url error is reported if and only if form_url is empty; a missing-entry error names a required key whose entry is empty or absent; `ValidateAcceptsIff` and `ValidateReportsFirstFailure` give the order |
| Configuration.ValidateAcceptsIff | config/config.go:123-141 | validation passes if and only if form_url is set and all six entries are present and non-empty |
| Configuration.ValidateReportsFirstFailure | config/config.go:123-141 | a missing form_url is reported before any entry problem; the empty-map error comes if and only if form_url is set and the map is empty; with a non-empty map, the first missing entry in order is reported |
| Configuration.DefaultsFailValidate | config/config.go:30-52 | the defaults fail on form_url, and with a URL set they fail on the "name" entry |
| Configuration.ScheduleWithEnv | config/config.go:101-119 | the schedule after the overrides is `ScheduleEnvOverridden` of the old schedule |
| Configuration.EnvUnsetKeepsSettings | config/config.go:88-120 | with every variable unset or empty, nothing changes |
| Configuration.EnvOverrideFields | config/config.go:89-107 | PORT, FORM_URL, DB_PATH and SCHEDULE_DATE are copied verbatim when non-empty and otherwise leave their fields alone; an empty SCHEDULE_ENABLED leaves enabled alone; the entry map is never touched |
| Configuration.ScheduleEnabledOverride | config/config.go:101-103 | a non-empty SCHEDULE_ENABLED enables if and only if it is "true" or "1"; "TRUE" disables |
| Configuration.IntegerOverrides | config/config.go:109-119 | SCHEDULE_SAVED_FORM_ID and SCHEDULE_PREPARE_SECONDS apply if and only if they parse as decimal int64; retry count and interval have no override |
| Configuration.IntegerOverrideExamples | config/config.go:115-119 | "abc" is ignored; "-3" and "42" are applied |
| Configuration.EnvOverridesIdempotent | config/config.go:88-120 | applying the overrides twice is the same as applying them once |
| Configuration.UnmarshalMergesEntryMap | config/config.go:70-75 | an "entry_map" object in the file overrides the keys it names and keeps the default keys it does not name |
| Configuration.LoadSpec | config/config.go:55-85 | a loaded configuration always validates; the read error and the decode error are returned if and only if the file exists and cannot be read, or does not decode |
| Configuration.LoadNullEntryMap | config/config.go:70-75 | an "entry_map": null in the file empties the map, so with form_url set `Load` fails on the empty entry map |
| Configuration.LoadPrecedence | config/config.go:55-85 | a loaded configuration is the environment over the file over the defaults; it always validates; a set variable beats the file |
| Configuration.LoadLayered | config/config.go:55-85 | with no file or a file that decodes, `Load` returns the environment over the file over the defaults when that validates, and the validation error otherwise |
| Configuration.LoadMissingFile | config/config.go:63-69 | a missing file is not an error: the defaults with the environment over them are validated, and without FORM_URL that fails on form_url |
| Configuration.LoadFileErrors | config/config.go:63-74 | an existing file that cannot be read, or that does not decode, fails `Load` whatever the environment says |
| Configuration.LoadWithoutFileFails | config/config.go:55-85 | without a file `Load` always fails, because no variable sets the entry ids |
| Configuration.Config.Default | config/config.go:30-52 | the new configuration holds exactly the default settings |
| Configuration.Config.Unmarshal | config/config.go:71 | the new settings are `Unmarshalled` of the old settings and the decoded file |
| Configuration.Config.ApplyEnvOverrides | config/config.go:88-120 | the new settings are `EnvOverridden` of the old settings |
| Configuration.Load | config/config.go:55-85 | the result is exactly `LoadSpec`; on success it is a freshly made configuration |

## Left out

- HTTP transport is not modelled. This covers `http.NewRequest`, `Client.Do`, the 30-second timeout, headers and the response body. A POST is an abstract `SendOutcome`. Whether the form URL builds a request is the flag `formUrlParses`.
- Byte-level `url.Values.Encode` is not modelled: the payload is the map it encodes.
- Concurrency is not modelled. This covers the mutex, the goroutine launched by `Start`, robfig/cron's own goroutine, `time.NewTimer`/`select` and `time.Sleep`. Everything runs sequentially with an explicit `now`. A `Stop` during the wait is modelled as a `Stop` before `ExecuteWithPrecision`. Sleeps are counted, not performed.
- Scheduler.Scheduler.ExecuteWithPrecision: a `Stop` that races a timer that fires at the same moment is not modelled. `Stop` does not wait for a cycle in flight, and the model has no such cycle.
- Scheduler.SubmitWithRetry: the rebuild of the request before a retry is assumed to succeed. It parses the same URL that `prepareSubmission` already parsed, so its error branch (models/scheduler.go:278-281) is unreachable.
- Scheduler.ExecuteWithPrecision: `time.Until` saturating at the `Duration` range for targets centuries away is not modelled. The wait is the exact difference.
- The local time zone, DST and `time.ParseInLocation` are not modelled: midnight of a date and the calendar reading of an instant are abstract (`Zone`).
- `Dates.ParseDate` covers the numeric `2006-01-02` layout only; Go's parser is not modelled beyond that layout.
- SQLite is not modelled: connections, `initDB`, row scanning, `Close` and driver errors. Only "row not found" and "no row affected" are modelled as errors.
- Storage.Store.List: the `ORDER BY created_at DESC` order is not modelled. The contract states each row exactly once.
- `IsRunning` and `GetNextRunTime` are plain field reads, modelled as functions without a contract of their own; `calculateTargetTime` is inlined in `ExecuteWithPrecision` as a read of `targetTime`.
- Configuration.Load: reading the file and JSON decoding are inputs: the file system maps a path to `Unreadable`, `Malformed` or the members it decodes to. A JSON `null` is modelled for "entry_map", where it sets the map to nil; for the other members it leaves the field as it was, as in Go. Integers out of range are not distinguished beyond `Malformed`.
- Logging and the warning printed for a missing configuration file are not modelled.
- The HTTP controllers, HTML rendering and main.go wiring are not part of this model. The controllers call `StartWithConfig` and `GetConfig`, which no source file defines.
