# Verified model of domainturva

domainturva watches web sites. A worker for each (site, check) pair runs HTTP, certificate and
domain-registration checks on a timer and sends its results into one bounded channel. A single
consumer takes the results out, runs the alerting engine on them, stores the site's state and
dispatches alerts. Background senders deliver the alerts and write the alert log, which the engine
later reads to avoid repeating itself. `/healthz` reports whether the monitor is still checking.

The project models that system in Dafny and proves what its parts promise each other. A module is a file.
The ones that follow a source file: `MemoryStore`, `SQLiteStore`, `Backends` (the log query of either),
`Timestamps`, `Migrations` (storage), `Alerting`, `AlertRules` (its rules in numbers), `Durations`
(alerting), `HTTPCheck`, `DomainCheck` (checker), `Dispatching` (notifier), `Scheduler`, `Health`,
`Config`. What the source updates in place is a class here, proved against functions on values; the laws
are lemmas about those functions. `System` is the whole monitor as interleaved steps: 23 actions of
workers, consumer, senders, clock and cancellation, whose arguments are what the outside world decides.
`SystemLog`, `Deduplication`, `Queue`, `Sends`, `Stream`, `Lookups`, `Spacing`, `DomainResults`,
`PromptSends`, `Shutdown`, `Freshness` and `HealthRuns` prove properties of all its reachable states and
runs; `PunctualRuns` and `RepeatedAlerts` build runs of validated configurations in which a promise fails
although nothing is late; `Uninterrupted` proves that its steps do what the classes' methods do.
`History` and `HealthHistory` describe the stored rows and the health answer by the history of results.

## What the proofs say about the code and its documentation

Where the two differ the model follows the code, and the exact condition is proved.

- **Text timestamps.** `formatTS` drops trailing zeros of the fraction, so byte-wise order is not time
  order: 12:00:03.5Z sorts before 12:00:03Z. `Timestamps.TextOrderExactly` gives the condition for all
  instants that RFC 3339 can write: two of them are sorted the wrong way round exactly when the earlier
  one is the later one cut to a coarser decimal unit (tens of nanoseconds up to whole seconds), or the
  later one is the zero time, whose text is empty. Hence the two stores select the same log records
  exactly when no record and cutoff are such a pair (`SQLiteStore.SameSelection`), always within one
  second unless the zero time is one of them; and SQLite's answer, which the interface promises newest
  first, is so exactly when no two of its records are such a pair (`SQLiteStore.NewestFirstExactly`).
- **The HTTP retry comment** (internal/checker/http.go:46-47) says retries cannot exceed the next check
  interval. The deadline bounds only when an attempt starts. `HTTPCheck.OverBeforeTheNext` gives the
  longest possible check as a function of the configuration and proves that every check is over within
  the interval if and only if that worst time is; a timeout longer than the interval already breaks it.
- **"Each band transition produces exactly one alert"** (internal/alerting/alerting.go:302-303) relies on
  the log, which somebody else writes later, and on a window of 90 days (365 for registrations).
  `Deduplication.NoRepeatExactly` gives the condition: no key is alerted twice if and only if every
  visit of a key after its alert finds, in the log as it then is, a sent record of that key no older
  than the window. `Deduplication.OncePerBandExactly` adds when every visited key is alerted at all.
  It fails in runs of validated configurations in which every timer is served when it is due and the
  certificate stays in its band: when the first alert has no record by the next check, because its send
  is under way or nobody receives it (`RepeatedAlerts.RepeatBeforeRecord`); when its send has failed
  (`RepeatedAlerts.RepeatAfterFailure`); and at the first check at which its record has left the window,
  however promptly it was made (`RepeatedAlerts.RepeatAfterWindow`, as with a threshold of 120 days).
  There are no other causes (`RepeatedAlerts.CausesOfRepeats`). It holds when each alert is recorded as
  sent before its key is visited again and the visits lie within one window (`Deduplication.OncePerBand`);
  the first is so when two calls to a notifier and the wait between them take less than the checks are
  apart, and sends succeed (`PromptSends.TimedPrompt`).
- **Baseline.** A site whose first result is a failure is down silently; its first alert is then a
  "recovered" that no "down" came before (`History.FirstAlert`). After a restart the stored row takes the
  place of the baseline, and the outage goes on (`History.HTTPClosedForm`).
- **/healthz** is documented (the repository's README.md, lines 113-121) by HTTP checks, but SSL and
  domain results refresh the same check time; and the startup grace is not given on a store that holds
  a check time from before. `HealthHistory.HealthyExactly` states the answer by the history, on whatever
  store the process starts, `HealthHistory.DocumentedExactly` proves when it is the documented one,
  and `Health.GraceExactly` when there is a grace. `HealthRuns` carries both over to
  every reachable state. `HealthRuns.HealthyWhileHTTPHangs` (an HTTP check within a timeout longer than
  the threshold) and `Health.NoGraceAfterOldChecks` are cases in which the two differ.
- **Retries.** `Validate` allows 0 retries, but defaults are applied first and turn 0 into 2, so no
  loaded site has none (`Config.DefaultsKeepValid`). `Validate` does not look at the SSL and domain
  intervals, so `Sends.ValidConfigGivesSetup` asks for them to be positive.

## Idealisations

Time is an integer count of nanoseconds from 0001-01-01T00:00Z, so 0 is Go's zero time; one clock is
shared and never goes back. Sleeps last their duration, or longer as far as a retry is concerned; an HTTP
attempt lasts at most the site's timeout. Checks, lookups and notifiers are oracles: their answers are
arguments. The whole days left to an expiry are part of the answer. Job intervals are positive, and a
timer that has just been reset is not ready at the worker's next select unless the clock has moved on;
once the context has ended, a timer set after that moment is not taken in preference to the cancellation.
Counters and ids are unbounded integers. Each store operation is one step that does not fail, as the
in-memory store's mutex makes it. The system is parameterised by the store behind the engine's log query:
in memory, or SQLite's comparison of texts, on which the program runs; what else SQLite reads back is
what was written, for the years 0 to 9999. Statements on SQLite hold until the context ends: from then on
it refuses operations under the cancelled context, so that the record of a send that gives up is lost
there. Statements that compare times of the log ask, on SQLite, for a second's tolerance and for times in
that range.

## Model

| member | source | states |
|---|---|---|
| Timestamps.RoundTrip | internal/storage/sqlite.go:108-130 | Reading back a stored timestamp gives the instant that was written, to the nanosecond, for the zero time and every UTC instant of the years 0 to 9999, whatever its fraction; the calendar is that of Calendar.DaysBeforeYearExactly |
| Timestamps.RoundTripExactly | internal/storage/sqlite.go:108-130 | For every instant: read back as it was, or as the zero time if its year has not four digits |
| Timestamps.OlderEntries | internal/storage/sqlite.go:121-127 | Entries written without a fraction read back as their whole second |
| Timestamps.ParsedStamp | internal/storage/sqlite.go:117-130 | A text that parses is, up to the second, the text of the instant it parses to: no date and no time of day that does not exist is accepted |
| Timestamps.UnixEpoch | internal/storage/sqlite.go:108-115 | 62135596800 seconds after the zero time is written as 1970-01-01T00:00:00Z |
| Timestamps.LeapDay | internal/storage/sqlite.go:108-115 | 738944 days after the zero time the date is 29 February 2024, with the time of day and half a second written out |
| Timestamps.SecondsOrder | internal/storage/sqlite.go:108-115 | For instants in different seconds, none of them the zero time, the byte-wise order of the stored texts is the order in time |
| Timestamps.TextOrder | internal/storage/sqlite.go:108-115 | For a < b, neither the zero time, the text of a sorts before the text of b if and only if a is not a decimal cut of b |
| Timestamps.TextOrderExactly | internal/storage/sqlite.go:108-115 | The same for every a < b, the zero time and its empty text included |
| Timestamps.TextComparison | internal/storage/sqlite.go:180-186 | What `sent_at >= ?` selects on the texts, in terms of the two instants, for every pair including the zero time |
| Timestamps.WholeSecondSortsLast | internal/storage/sqlite.go:108-115 | The failing family: a whole second sorts after every other instant of that second |
| Timestamps.KeyIsTheSecond | internal/alerting/alerting.go:258-268 | Two registrations have the same dedup key if and only if they expire in the same second |
| Calendar.DaysOfDateOf | internal/storage/sqlite.go:108-130 | Splitting a day count into year, month and day loses nothing |
| Calendar.DateOfDaysOf | internal/storage/sqlite.go:108-130 | A date that exists is the date of its day count |
| Calendar.DaysBeforeYearExactly | internal/storage/sqlite.go:108-130 | Before a year there are 365 days for each year since year 1 and one for each fourth, without the hundredths, with the four hundredths |
| Calendar.DaysBeforeMonthExactly | internal/storage/sqlite.go:108-130 | The days before each month, in closed form |
| Calendar.DateOrder | internal/storage/sqlite.go:108-115 | Later days have later (year, month, day) |
| Text.PadOrder | internal/storage/sqlite.go:108-115 | Zero-padded decimal fields sort byte-wise as the numbers do |
| MemoryStore.Memory.RecordAlert | internal/storage/memory.go:40-50 | The log grows by one record at its end, numbered next, "sent" for a missing status; ids stay 1..n in log order; nothing else changes |
| MemoryStore.Memory.FindRecentAlerts | internal/storage/memory.go:52-63 | Exactly the records of the site and type from the cutoff on, with multiplicity, newest first |
| MemoryStore.Recent | internal/storage/memory.go:56-60 | A record is selected if and only if it is in the log with that site and type and not before the cutoff |
| MemoryStore.Memory.UpsertSiteState | internal/storage/memory.go:33-38 | The row of one site is replaced, everything else in the store is as before |
| MemoryStore.Memory.GetSiteState | internal/storage/memory.go:26-31 | The stored row, or the zero value and false |
| MemoryStore.Memory.UpsertDomainCache | internal/storage/memory.go:72-77 | The cached row of one site is replaced, everything else in the store is as before |
| MemoryStore.Memory.GetDomainCache | internal/storage/memory.go:65-70 | The cached row, or the zero value and false |
| SQLiteStore.SQLite.GetSiteState | internal/storage/sqlite.go:132-152 | Through the text columns the caller gets the row that was stored, with instants outside the years 0 to 9999 read as the zero time |
| SQLiteStore.SQLite.UpsertSiteState | internal/storage/sqlite.go:154-167 | The rows stay the encoding of the in-memory store after the same call |
| SQLiteStore.SQLite.RecordAlert | internal/storage/sqlite.go:169-178 | The rows stay the encoding of the in-memory store after the same call |
| SQLiteStore.SQLite.FindRecentAlerts | internal/storage/sqlite.go:180-213 | The rows whose text is not below the cutoff's text, with multiplicity, in descending text order, decoded; where all can be read back, exactly the records so selected |
| SQLiteStore.SQLite.SelectRows | internal/storage/sqlite.go:182-186 | The WHERE clause picks the rows of exactly the records that the text comparison selects, in log order |
| SQLiteStore.SQLite.GetDomainCache | internal/storage/sqlite.go:215-245 | Through the text columns the caller gets the cached row that was stored, with instants outside the years 0 to 9999 read as the zero time |
| SQLiteStore.SQLite.UpsertDomainCache | internal/storage/sqlite.go:247-259 | The rows stay the encoding of the in-memory store after the same call |
| SQLiteStore.MisjudgedExactly | internal/storage/sqlite.go:180-187 | The stores disagree about a record if and only if it and the cutoff are inverted in the text order, and then they share a whole second unless one is the zero time |
| SQLiteStore.SameSelection | internal/storage/sqlite.go:180-187 | The stores select the same records, in log order, if and only if the log holds no misjudged record |
| SQLiteStore.NewestFirstExactly | internal/storage/storage.go:45 | An answer sorted by text is newest first if and only if no record of it is inverted with another |
| SQLiteStore.SameAnswer | internal/storage/sqlite.go:180-187 | SQLite's answer is one the in-memory store may give (the selected records, newest first) if and only if no record is misjudged and no two selected records are inverted |
| SQLiteStore.WholeSecondComesFirst | internal/storage/storage.go:45 | The failing family: with a record at a whole second and a later one in that second the answer is not newest first |
| Backends.ComparedRightly | internal/storage/sqlite.go:180-187 | Beyond a second (in memory, at all) both stores compare a record with the cutoff as time does |
| Migrations.SortNames | internal/storage/sqlite.go:62 | A sorted permutation of the file names |
| Migrations.ListMigrations | internal/storage/sqlite.go:56-61 | The names of the SQL files of the listing, in its order: each name that is some stem and ".sql" as often as it is listed for no directory, and no other |
| Migrations.NamesExactly | internal/storage/sqlite.go:56-61 | How often a name is listed: as often as the directory has a file of it if it ends in .sql, else not at all |
| Migrations.Database.ApplyFile | internal/storage/sqlite.go:87-101 | A file's body and its version row are committed together or not at all, at whichever statement the run is cut off |
| Migrations.Database.Migrate | internal/storage/sqlite.go:46-104 | A start commits a prefix of the pending files in sorted order, the step that runs are made of; done means that every file of the directory named some stem and ".sql" is applied; whatever it adds is the name of such a file; without a failing file it stops early only when cut off |
| Migrations.CommittedOnce | internal/storage/sqlite.go:64-102 | Over any runs, with any files and any cuts, no migration is committed twice and none that no run found |
| Migrations.AlwaysAPrefix | internal/storage/sqlite.go:46-104 | With one set of files the applied versions are always a prefix of the sorted names, and all of them from the first completed run on |
| Alerting.ScanThresholds | internal/alerting/alerting.go:304-316 | Sorting and scanning finds the smallest threshold that the days have reached, 0 for none |
| Alerting.CurrentThresholdBand | internal/alerting/alerting.go:290-304 | The least configured threshold at or above the days left, or 0 when all are below |
| Alerting.BandsShrink | internal/alerting/alerting.go:290-304 | With fewer days left the band is there again and not larger |
| Alerting.Engine.Process | internal/alerting/alerting.go:49-83 | The new state and the alerts are the decision functions of the stored row (or the unknown baseline), the cache and the log |
| Alerting.Engine.ProcessSSL | internal/alerting/alerting.go:154-221 | Reading the log and looping over its answer decides the certificate alert, whose rule AlertRules states in numbers |
| Alerting.Engine.ProcessDomain | internal/alerting/alerting.go:223-288 | Reading cache and log and looping over the answer decides the registration alert, whose rule AlertRules states in numbers |
| Alerting.RaisedOnlyIfQuiet | internal/alerting/alerting.go:157-203 | No alert of the four deduplicated types is raised while the store finds a record that silences it in its window |
| Alerting.QuietOnSQLite | internal/alerting/alerting.go:157-203 | On SQLite every record that silences a raised alert is before the window, or misjudged within the cutoff's second |
| Alerting.RaisedExactly | internal/alerting/alerting.go:154-288 | An SSL or domain result raises the alert it calls for if and only if no record in the window silences it, and raises nothing else |
| Alerting.UnrecordedAlertRepeats | internal/alerting/alerting.go:189-199 | From an unchanged log in memory the same certificate result raises its alert again at any later time |
| AlertRules.SSLExpiringExactly | internal/alerting/alerting.go:180-220 | The alerts of a trusted certificate are one for its band, critical from 7 days on, unless it has no expiry, is in no band, or a sent record of that threshold and serial is found in the last 90 days |
| AlertRules.NinetyDays | internal/alerting/alerting.go:189-199 | In memory and in nanoseconds: the certificate alert is withheld if and only if a sent record of its key is no older than 90 days |
| AlertRules.SSLUntrustedExactly | internal/alerting/alerting.go:155-178 | An untrusted or self-signed certificate raises one alert unless any such record is found in the last 7 days |
| AlertRules.DomainExpiringExactly | internal/alerting/alerting.go:250-288 | The alerts of a registration are one for its band and expiry, critical from 7 days on, unless it has no expiry, is in no band, or a sent record of that threshold and expiry is found in the last 365 days |
| AlertRules.DegradedExactly | internal/alerting/alerting.go:224-247 | A failed lookup raises one alert exactly when the last success is more than 3 days ago and no such record is found in the last 7 days |
| AlertRules.ExpiryKeyReadsBack | internal/alerting/alerting.go:263 | The key of a registration's alert reads back as its expiry cut to the second |
| Durations.RoundedIsNearest | internal/alerting/alerting.go:319 | Rounding goes to the nearest whole second, halves up |
| Durations.SecondsTextParses | internal/alerting/alerting.go:318-334 | The printed text parses back to the seconds with everything below the smallest unit dropped |
| Durations.LosesLessThanAUnit | internal/alerting/alerting.go:318-334 | A printed duration parses to the largest multiple of its smallest unit not above the rounded duration |
| Durations.Unambiguous | internal/alerting/alerting.go:318-334 | Two durations print the same text if and only if they show the same number of seconds |
| Durations.FieldsInRange | internal/alerting/alerting.go:318-334 | Minutes and seconds stay below 60 and hours below 24, in all four forms of the text |
| Durations.NegativeText | internal/alerting/alerting.go:318-322 | A negative duration is printed as its whole seconds with a sign, or as 0s when it rounds to zero |
| History.NonInterference | internal/alerting/alerting.go:49-83 | Deleting all SSL and domain results and all results of other sites leaves a site's HTTP alerts, status, failure count, last error and time of last change as they were |
| History.ClosedFormOfHistory | internal/alerting/alerting.go:97-152 | After any HTTP results of a site its row and its alerts are closed forms of its starting row and of them |
| History.HTTPClosedForm | internal/scheduler/scheduler.go:127-150 | After any interleaved stream, from any store: the row has the last HTTP status, the length of the trailing run of failures and the start of the trailing run, both continued from the starting row where the run reaches back to it; the alerts are the status changes |
| History.NewSiteRow | internal/alerting/alerting.go:55-59 | For a site without a row these are the run of failures itself and its first result |
| History.NewSiteAlerts | internal/alerting/alerting.go:102-151 | For a site without a row each alert is a change between adjacent results, each down alert tells of one failure, and each recovery is measured from the outage's first failure |
| History.UnknownRow | internal/alerting/alerting.go:55-79 | A new site without HTTP results, whatever certificate and registration results it had, is unknown since its first result, checked at its last, without failures |
| History.ChangesAlternate | internal/alerting/alerting.go:102-152 | Down and recovered alerts strictly alternate, across restarts too, and the last one tells the current status |
| History.FirstAlert | internal/alerting/alerting.go:134-140 | The first alert of a site is a recovery if and only if it started down, or without a status and its first result was a failure |
| Config.CheckSites | internal/config/config.go:219-247 | The loop accepts if and only if every site keeps the rules and no name occurs twice |
| Config.CheckNotifiers | internal/config/config.go:249-270 | The loop accepts if and only if every notifier keeps the rules and no name occurs twice, and has then collected exactly their names |
| Config.CheckRouting | internal/config/config.go:272-287 | Accepts if and only if every routed name of every group is known, in whatever order the map is visited |
| Config.Config.Validate | internal/config/config.go:215-308 | Accepts exactly the valid configurations; a refusal names something that is wrong |
| Config.Config.ApplyDefaults | internal/config/config.go:185-213 | Every zero field of the configuration and of each site has its default, nothing else changes |
| Config.DefaultsIdempotent | internal/config/config.go:185-213 | Applying defaults twice is applying them once |
| Config.DefaultsKeepValid | internal/config/config.go:144-163 | Defaults keep a valid configuration valid and leave no site with zero retries, timeout or interval |
| Config.DefaultValues | internal/config/config.go:125-142 | The default of each field in numbers, and that a field that is set keeps its value |
| Config.BuildNotifiers | cmd/domainturva/main.go:236-249 | The keys of the map are the names of the notifiers of a known type, each with that type |
| Config.RoutingIsTotal | internal/config/config.go:112-117 | After validation every name routed for every alert type is a key of that map |
| HTTPCheck.HTTPChecker.Check | internal/checker/http.go:48-71 | The result is up if and only if some attempt was, which was then the last, and is the last attempt's unless a pause was cut short; the number of attempts and the time taken are those of the attempts' outcomes; also when cancelled, the check ends within the interval less 100 ms plus a timeout |
| HTTPCheck.GoesOnExactly | internal/checker/http.go:50-68 | The check goes on exactly as long as no attempt was up, a retry is left, and the next one starts no later than 100 ms before the interval is over |
| HTTPCheck.RetryBound | internal/checker/http.go:48-71 | Between 1 and min(retries + 1, 1 + pauses that fit) attempts, every retry starts at least 100 ms before the interval is over, the check ends within the interval less 100 ms plus a timeout |
| HTTPCheck.WorstIsUpperBound | internal/checker/http.go:45-71 | No check takes longer than the worst time computed from the configuration |
| HTTPCheck.WorstIsReached | internal/checker/http.go:45-71 | Some outcomes of the attempts make a check take exactly the worst time |
| HTTPCheck.OverBeforeTheNext | internal/checker/http.go:45-47 | Every check is over within the interval if and only if the worst time is at most the interval |
| HTTPCheck.TimeoutLongerThanInterval | internal/checker/http.go:45-47 | A timeout longer than the interval lets a check outlast it |
| DomainCheck.DomainChecker.Check | internal/checker/domain.go:82-132 | A lookup is made if and only if the host is usable and there is no row, its expiry is zero, or its lookup began a cache lifetime or more ago; the result, field by field, and the new row in each of the cases |
| DomainCheck.ReplayClosedForm | internal/checker/domain.go:102-125 | The cached row holds start and error of the last lookup, and start, source and expiry of the last successful one |
| DomainCheck.LooksUpWhenDue | internal/checker/domain.go:93-102 | Over any run, each check of a usable host makes a lookup, at its own time, exactly when there was none, the last success gave no expiry, or the last lookup began a cache lifetime or more ago |
| DomainCheck.RunIsChecks | internal/checker/domain.go:82-132 | The results and rows of a run are those of DomainChecker.Check called again and again from an empty store |
| DomainCheck.CacheProtocol | internal/checker/domain.go:93-132 | Over any run of checks of a site: last success not after last lookup, an expiry exactly when the last success gave one, every OK result carries the last success's expiry, lookups a TTL apart once an expiry is cached |
| Dispatching.Dispatcher.Dispatch | internal/notifier/dispatcher.go:38-47 | One send for each occurrence of a known name, in order |
| Dispatching.Dispatcher.SendOne | internal/notifier/dispatcher.go:49-88 | One or two calls, two exactly after a failure without cancellation, and one record, "sent" exactly when a call succeeded |
| Dispatching.RecipientsFilter | internal/notifier/dispatcher.go:39-46 | An unknown name is skipped, and a known one is sent to where it stands, whatever names are before and after it |
| Dispatching.NobodySkipped | internal/notifier/dispatcher.go:39-46 | All names are sent to if and only if all are known |
| Scheduler.BuildJobs | internal/scheduler/scheduler.go:53-62 | The job list of the configuration, whose members Scheduler.JobsExactly states |
| Scheduler.JobsExactly | internal/scheduler/scheduler.go:53-62 | There is a worker for each enabled check of each site, at the site's own interval or that of its kind of check, and no other |
| Scheduler.JobsAreDistinct | internal/scheduler/scheduler.go:53-62 | One worker for each check of each site, and each of a configured site |
| Scheduler.HTTPWorkerOf | internal/scheduler/scheduler.go:54-55 | Every site has an HTTP worker at its own interval |
| Scheduler.ChannelCapacity | internal/scheduler/scheduler.go:64 | The larger of 16 and four times the number of workers |
| Scheduler.JitterDuration | internal/scheduler/scheduler.go:187-195 | A delay from 0 up to but not including the given one; 0 for none |
| Scheduler.FirstDelay | internal/scheduler/scheduler.go:86-95 | The first check is due within the interval and within five seconds |
| Scheduler.Scheduler.Process | internal/scheduler/scheduler.go:141-159 | One result takes the stored states one step and spawns the sends of the alerts that the engine decides |
| Scheduler.SpawnsByGroup | internal/scheduler/scheduler.go:152-158 | Whatever else is dispatched with it, an alert is sent, in order, to the known names of the group that its type has as a routing key, or of the default when the configuration has no such group |
| System.RetryWaits | internal/notifier/dispatcher.go:27 | A send's retry is enabled exactly from 30 seconds after its failed call on |
| System.BootIsInit | internal/scheduler/scheduler.go:47-95 | A first start on an empty store is a reachable state, whatever delays are drawn |
| Uninterrupted.ConsumerPass | internal/scheduler/scheduler.go:127-159 | Without interruption the consumer's steps change the store and spawn the sends as Scheduler.Process does |
| Uninterrupted.SendPass | internal/notifier/dispatcher.go:49-88 | With nothing in between but the wait, a send's steps make the calls and the record that Dispatcher.SendOne makes |
| Uninterrupted.DomainPass | internal/checker/domain.go:82-132 | Without interruption a domain worker's steps give the result and the row that DomainChecker.Check gives |
| SystemLog.LogAlways | internal/notifier/dispatcher.go:49-88 | In every state of every run each log record belongs to its own finished send of a raised alert and carries its fields, and each raised alert is what the engine decides from the log as it was |
| Deduplication.DedupSafety | internal/alerting/alerting.go:157-203 | Of two alerts of one key within the window (90 or 365 days, 7 days for the two site-wide types; on SQLite up to a second), no send of the first had left a silencing record when the second was decided, under every interleaving |
| Deduplication.NoRepeatExactly | internal/alerting/alerting.go:302-303 | For each of the four types: no key is alerted twice if and only if every visit of a key after its alert finds a record in the log that silences it and is still in the window |
| Deduplication.OncePerBandExactly | internal/alerting/alerting.go:302-303 | Visited keys and alerts correspond one to one if and only if, besides, every visited key has a visit that nothing silences |
| Deduplication.AlertedExactly | internal/alerting/alerting.go:154-288 | A key has been alerted if and only if some visit of it found no silencing record |
| Deduplication.NoKeyTwice | internal/alerting/alerting.go:189-199 | When each alert is recorded as sent before its key is visited again, and the visits lie within one window, no key is alerted twice |
| Deduplication.EveryVisitAlerted | internal/alerting/alerting.go:184-220 | From a log without alerts of the site and type, every visited key has been alerted |
| Deduplication.OncePerBand | internal/alerting/alerting.go:302-303 | A case in which exactly one alert per visited key is raised, for certificates and registrations: no earlier alerts, prompt records, visits within one window |
| Deduplication.ThresholdsDecrease | internal/alerting/alerting.go:290-303 | For one certificate or registration whose days run down, and without repeats, the alerts' thresholds strictly decrease |
| Deduplication.AlertsPerCertificate | internal/alerting/alerting.go:290-303 | One certificate or registration gets then at most as many alerts as there are different thresholds |
| RepeatedAlerts.CausesOfRepeats | internal/alerting/alerting.go:157-203 | When a key is alerted twice, each record of the first alert was made after the second was decided, or says that the send failed, or was outside the window by then |
| RepeatedAlerts.RepeatBeforeRecord | internal/alerting/alerting.go:189-199 | For every validated configuration of one site with certificate checks and every certificate in a band: a run in which nothing is late and the next check repeats the alert, as no record was made |
| RepeatedAlerts.RepeatAfterFailure | internal/notifier/dispatcher.go:51-68 | The same with the first alert's send tried twice and recorded as failed well inside the window |
| RepeatedAlerts.RepeatAfterWindow | internal/alerting/alerting.go:189-199 | The same with the first alert sent and recorded at once: checks on time are silenced up to the first at which the store does not find the record any more, and that one repeats it |
| PunctualRuns.SuchConfigurations | internal/config/config.go:215-308 | There are such configurations, for all valid intervals, timeouts and thresholds |
| PromptSends.TimedPrompt | internal/notifier/dispatcher.go:49-69 | When calls take at most some time and succeed, nothing else waits, and two calls with the wait take less than the checks are apart, every alert is recorded as sent before its key is visited again |
| PromptSends.TimedOncePerBand | internal/alerting/alerting.go:302-303 | Then, within one window and without earlier alerts, there is exactly one alert for each visited key |
| Spacing.ResultsAreSpaced | internal/scheduler/scheduler.go:98-106 | Two results of one worker are sent at least its interval apart, under every interleaving |
| Queue.ResultsAreConserved | internal/scheduler/scheduler.go:64-139 | A worker's results are, in order, those processed, in the consumer's hand, in the channel and held; at most one is dropped, and only after cancellation; the channel keeps its capacity |
| Sends.SendsAreConserved | internal/notifier/dispatcher.go:38-88 | Records made plus sends in flight are the known recipients of the dispatched alerts, one for one and in order; record ids are 1..n; each record is that of its own send's one or two calls |
| Sends.EveryRoutedRecipient | internal/notifier/dispatcher.go:38-46 | With a validated configuration the recipients of any alert are exactly the names that it gives for the alert's routing key, and none is skipped |
| Sends.SendersByGroup | internal/notifier/notifier.go:20-29 | In every reachable state the sends of each dispatched alert are, in order, those to the known names that the configuration gives for the routing key of its type |
| Sends.ValidConfigGivesSetup | internal/config/config.go:215-308 | A validated configuration with positive SSL and domain intervals is one that the system model runs on, with a cache lifetime of 6 hours |
| Stream.SystemClosedForm | internal/scheduler/scheduler.go:127-150 | In every reachable state, on whatever store the run started, a site's raised down and recovered alerts are the changes of its handled HTTP results, and its row is their closed form on top of its starting row |
| Shutdown.ShutdownTerminates | internal/scheduler/scheduler.go:82-139 | After cancellation the scheduler takes at most as many steps as the rank of the state, however they interleave, and every worker and the consumer has a step of its own until it has exited |
| Shutdown.WorkerCanStep | internal/scheduler/scheduler.go:98-125 | After cancellation no worker is ever stuck, even at a full channel |
| Shutdown.ConsumerCanStep | internal/scheduler/scheduler.go:127-138 | After cancellation the consumer is never stuck |
| Shutdown.NothingIsLostUnseen | internal/scheduler/scheduler.go:121-139 | When all have exited, what a worker produced was handled, is in the channel, or is its one dropped result |
| Lookups.SystemCache | internal/checker/domain.go:93-125 | In every reachable state the cached row of each site is the closed form of its lookups, which are in order of time |
| Lookups.LookupsAreSpaced | internal/checker/domain.go:93-116 | Under every interleaving: once an expiry is cached for a site, two lookups of it in a row began at least the cache's lifetime apart, failed ones included |
| Lookups.CheckLooksUpWhenDue | internal/checker/domain.go:93-102 | In every reachable state, a check that reads its cache goes on to a lookup exactly when the site's lookups so far make one due, and answers with the last success's expiry otherwise |
| DomainResults.HandledCarriesExpiry | internal/checker/domain.go:94-131 | Under every interleaving: each handled domain result marked OK carries the expiry of the last successful lookup of its site that had begun when the result was sent |
| Lookups.DegradedIsSound | internal/alerting/alerting.go:224-247 | A degraded-monitoring alert means that some lookup of the site had succeeded and none that began in the last three days had, among those finished when the engine read the cache |
| Health.Server.HandleHealthz | internal/health/health.go:87-120 | 503 if and only if the newest check time, or the process start for want of one, is longer ago than the threshold |
| Health.Server.HealthState | internal/health/health.go:126-144 | The newest check time stored for a configured site |
| Health.Server.Threshold | internal/health/health.go:146-157 | Twice the longest interval of the sites, two minutes when there is none |
| Health.GraceExactly | internal/health/health.go:100-111 | A store gives no stale answer in the startup window if and only if it holds no check time of a configured site, or one of this process already |
| Health.NoGraceAfterOldChecks | internal/health/health.go:100-111 | On a store whose check times are all older than the threshold a process is stale from its start on |
| HealthHistory.HealthyExactly | internal/health/health.go:87-144 | On any starting store: healthy if and only if some check of a configured site was handled within the threshold, or the store's newest earlier check time is within it, or it had none and the process started within it |
| HealthHistory.DocumentedExactly | internal/health/health.go:100-111 | On any starting store: the answer is the documented one exactly unless only SSL or domain checks are recent, or the startup window meets check times from before that are too old |
| HealthHistory.HealthyWithoutHTTP | internal/health/health.go:100-111 | A stream of results, of a certificate check alone, after which the documented answer and the code's differ |
| HealthRuns.SystemHealthy | internal/health/health.go:87-144 | HealthyExactly in every reachable state in which the last decision is stored, on any starting store from the past |
| HealthRuns.SystemDocumented | internal/health/health.go:100-111 | DocumentedExactly in every such state |
| HealthRuns.HealthyWhileHTTPHangs | internal/health/health.go:100-111 | For every validated configuration of one site whose timeout exceeds twice its interval: a run in which nothing is late, no HTTP check has ended within the threshold, and the answer is 200 |
| Freshness.NeverStale | internal/health/health.go:87-157 | While one site's HTTP checks end and are stored within its interval, the health check is stale before cancellation at most as long as the newest check time is from before the start, so from a store without check times never |
| Freshness.UndelayedIsOnTime | internal/scheduler/scheduler.go:93-107 | Without queueing delay, checks no longer than the interval are stored in time |
| Freshness.ConfiguredSiteStaysFresh | internal/checker/http.go:48-71 | For a validated configuration and a site whose longest possible check is at most its interval, a run in which its worker is delayed by nothing but its own attempts and pauses is never stale before cancellation |

## Left out

- HTTP, TLS, RDAP, WHOIS, Slack and SMTP traffic, including `attempt`, the certificate check and the lookups: outside calls, whose answers are arguments of the model.
- The SQL engine beyond atomic transactions, upsert by key and byte-wise comparison of text: write-ahead log, locking, driver errors, NULL columns.
- Errors of storage operations: the in-memory store has none, and the SQLite model leaves them out.
- YAML decoding, environment variables, command-line flags, URL parsing and splitting of the listen address: a parsed configuration is the starting point.
- Logging, JSON, alert titles, messages, payloads and the details that copy a result's fields; of an alert's text only the printed duration is modelled.
- The floating-point computation of days left and adjustments of the wall clock: the days are part of a result, the clock never goes back.
- The order of deliveries of different alerts, and sends that outlive the scheduler: the code promises nothing about them.
- The workers' and the consumer's endless loops as methods: they are the steps of `System`, where their interleaving is what matters.
- Statuses other than up, down, unknown and empty in a stored row.
- Timestamps.RoundTrip: the parser model accepts the UTC form that the store writes; other zones and the rest of what Go's parser tolerates are outside. Years outside 0 to 9999 are in Timestamps.RoundTripExactly.
- SQLiteStore.SameSelection: for times in the years 0 to 9999, those that RFC 3339 can write; so are the other statements about the order of texts.
- Alerting.Engine.Process: the class reads the in-memory store; on SQLite the decisions are the same functions with its query.
- Alerting.UnrecordedAlertRepeats: in memory; on SQLite a record within the cutoff's second can be selected at one time and not a moment before.
- Migrations.Database.Migrate: a file whose SQL fails is an argument; that the directory lists no name twice is required, as a directory cannot.
- Freshness.ConfiguredSiteStaysFresh: queueing delay is excluded by hypothesis, since the code bounds neither the time of the other checks' processing nor of the store; the length of a check is that of the retry loop.
