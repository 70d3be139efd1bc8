# TeSLA CE decision core in Dafny

TeSLA CE is an e-assessment platform. A browser plugin captures learner data
(face, keystrokes, voice, documents) and alerts, and the server routes them to
identity and originality providers, aggregates the results and reports them.
This project models the parts of the system that decide things:

- the browser delivery client (`TeslaCommunication`) and its event bus
  (`TeslaEvents`), as classes whose methods are the timer ticks and request
  callbacks;
- the server's status aggregation, informed-consent versions, report levels,
  histograms, UI routes, enrolment-model locks and provider status changes;
- storage paths, configuration merging and checks, the client library's
  token and launcher logic, Vault policy rewriting, the admin user
  serializer, JWT authentication, deployment scripts and the database
  manager.

Database queries, Celery, Vault, storage and HTTP calls are replaced by
parameters: sequences, maps and sets for what the code reads, and returned
values or class fields for what it writes. Each file is one Dafny module;
`wrappers.dfy`, `text.dfy` and `collections.dfy` hold the Option and Result
types, Python's string operations on ASCII text, and sequence helpers.

The delivery client behaves as follows:

- the network-speed buffer replaces its newest sample when it is full;
- a data item whose retries are used up stays in its transmission slot for
  good, and nothing counts it;
- a send answered with any HTTP status other than 200, a 401 included,
  reaches the load callback, which neither re-queues the item nor frees the
  slot: the item stays in its slot for good and that buffer sends nothing
  more (RejectedLoadBlocksBuffer);
- the buffers' status counters are never updated, so they are not modelled;
- the first token refresh is scheduled at the expiry time itself; only a
  refresh after a successful refresh is scheduled one minute early.

## Model

| member | source | states |
|---|---|---|
| TeslaEvents.Notifies | src/tesla_ce/static/et/TeslaEvents.js:48-53 | an alert is retained iff its explicit flag says so, or, with a null flag, iff its level is not 'info' |
| TeslaEvents.CallsInRegistrationOrder | src/tesla_ce/static/et/TeslaEvents.js:81-98 | delivering a message calls each registered handler exactly once, in registration order |
| TeslaEvents.CallsAppend | src/tesla_ce/static/et/TeslaEvents.js:94-98 | calling one list of handlers and then another makes exactly the calls of their concatenation |
| TeslaEvents.IndexOf | src/tesla_ce/static/et/TeslaEvents.js:94-98 | the position found holds the handler and no earlier position does, as indexOf |
| TeslaEvents.EventBus.constructor | src/tesla_ce/static/et/TeslaEvents.js:22-29 | the bus starts with no handlers, no retained alerts and no calls |
| TeslaEvents.EventBus.RegisterEventHandler | src/tesla_ce/static/et/TeslaEvents.js:107-109 | appends the handler to the event handlers and changes nothing else |
| TeslaEvents.EventBus.RegisterAlertHandler | src/tesla_ce/static/et/TeslaEvents.js:118-120 | appends the handler to the alert handlers and changes nothing else |
| TeslaEvents.EventBus.OnAlert | src/tesla_ce/static/et/TeslaEvents.js:81-85 | every alert handler is called with the alert, in order; registries and retained alerts unchanged |
| TeslaEvents.EventBus.OnEvent | src/tesla_ce/static/et/TeslaEvents.js:94-98 | every event handler is called with the event, in order; registries and retained alerts unchanged |
| TeslaEvents.EventBus.OnEventBetween | src/tesla_ce/static/et/TeslaEvents.js:94-98 | the handlers at the given stretch of positions are called with the event, in order; registries and retained alerts unchanged |
| TeslaEvents.EventBus.RaiseAlert | src/tesla_ce/static/et/TeslaEvents.js:42-55 | the alert carries the time, level and info; it is appended to the retained alerts iff it notifies; all alert handlers are called with it |
| TeslaEvents.EventBus.RaiseEvent | src/tesla_ce/static/et/TeslaEvents.js:65-72 | the event carries the time, type and info and is passed to every event handler |
| TeslaEvents.EventBus.ClearAlerts | src/tesla_ce/static/et/TeslaEvents.js:126-129 | the retained alerts become empty and ALERTS_CLEARED with a null payload is raised |
| TeslaEvents.EventBus.GetAlerts | src/tesla_ce/static/et/TeslaEvents.js:131-133 | returns the retained alerts in the order they were raised |
| TeslaCommunication.Drain | src/tesla_ce/static/et/TeslaCommunication.js:276-284 | a drain tick changes nothing when the queue is empty or the slot is busy; otherwise it moves the most recently queued item into the slot |
| TeslaCommunication.Loaded | src/tesla_ce/static/et/TeslaCommunication.js:292-309 | only status 200 empties the slot; any other status leaves the item in it; the queue is unchanged |
| TeslaCommunication.Failed | src/tesla_ce/static/et/TeslaCommunication.js:310-323 | the retry counter grows only when the status is positive; under 3 retries the item goes back on the queue and the slot is freed, otherwise it stays in the slot |
| TeslaCommunication.BufferStepsKeepInvariant | src/tesla_ce/static/et/TeslaCommunication.js:276-323 | drain, load, error and push keep the slot discipline (slot filled iff a start time is set) and every queued item under 3 retries |
| TeslaCommunication.ExhaustedItemBlocksBuffer | src/tesla_ce/static/et/TeslaCommunication.js:316-321 | an item failing with its retries used up keeps the slot, and no later run of drain ticks sends anything |
| TeslaCommunication.RejectedLoadBlocksBuffer | src/tesla_ce/static/et/TeslaCommunication.js:292-309 | a load answered with any status but 200 keeps the item in the slot, and no later run of drain ticks sends anything from that buffer |
| TeslaCommunication.SpeedStatus | src/tesla_ce/static/et/TeslaCommunication.js:94-101 | tier 1 iff the mean is above 5, tier 3 iff it is at most 1, tier 2 otherwise |
| TeslaCommunication.AddSample | src/tesla_ce/static/et/TeslaCommunication.js:88-91 | the buffer never exceeds 10 samples; when full the newest sample is replaced, the older ones kept, and the new one is last |
| TeslaCommunication.UniformSamplesStatus | src/tesla_ce/static/et/TeslaCommunication.js:92-101 | samples all above 5 kb/s give tier 1; samples all at most 1 kb/s give tier 3 |
| TeslaCommunication.OneAlertPerOutage | src/tesla_ce/static/et/TeslaCommunication.js:439-450 | any number of consecutive network errors raise exactly one CONNECTION_ERROR alert, none if the flag was already set; Client.Replay shows the client retains exactly this count |
| TeslaCommunication.RecoveryRearmsAlert | src/tesla_ce/static/et/TeslaCommunication.js:78-87 | a speed sample between errors clears the flag, so the next error alerts again |
| TeslaCommunication.OutageAlertsAppend | src/tesla_ce/static/et/TeslaCommunication.js:439-450 | the alerts of a run extended by one signal are those of the run plus those of the signal from the flag the run ends with, and the flag then moves as that signal says |
| TeslaCommunication.RemoveFirst | src/tesla_ce/static/et/TeslaCommunication.js:404-407 | a path that is not pending leaves the list unchanged |
| TeslaCommunication.RemoveFirstAt | src/tesla_ce/static/et/TeslaCommunication.js:404-407 | for a pending path the result is the list without its first occurrence, the paths before and after it kept in order |
| TeslaCommunication.RemoveFirstCount | src/tesla_ce/static/et/TeslaCommunication.js:404-407 | removing a pending path drops exactly one copy of it and shortens the list by one |
| TeslaCommunication.PruneShrinks | src/tesla_ce/static/et/TeslaCommunication.js:399-414 | processing a status response never adds a path and removes at most one per response entry |
| TeslaCommunication.PendingEntriesChangeNothing | src/tesla_ce/static/et/TeslaCommunication.js:403 | a response whose entries are all PENDING leaves the pending list unchanged |
| TeslaCommunication.DuplicatesRemovedOneAtATime | src/tesla_ce/static/et/TeslaCommunication.js:404-407 | a path pending twice is still pending after one finished entry for it |
| TeslaCommunication.DataItem | src/tesla_ce/static/et/TeslaCommunication.js:207-224 | the queued item carries the type, learner and institution, retry count 0, no transmit start, the data and instruments, a null context and filename, and a verification body iff the type is verification |
| TeslaCommunication.AlertItem | src/tesla_ce/static/et/TeslaCommunication.js:236-244 | the queued alert has no type, retry count 0, the alert's level and the alert itself as data, and no instruments |
| TeslaCommunication.ErrorCallsWithoutAlert | src/tesla_ce/static/et/TeslaCommunication.js:439-450 | when no alert is raised, NETWORK_ERROR reaches every event handler once, in registration order |
| TeslaCommunication.ErrorCallsWithAlert | src/tesla_ce/static/et/TeslaCommunication.js:439-450 | when the alert is raised, the calls are one per handler: the client's event handler, then every alert handler with the CONNECTION_ERROR alert, then the event handlers registered after the client's |
| TeslaCommunication.Client.Configure | src/tesla_ce/static/et/TeslaCommunication.js:431-462 | registers one alert and one event handler, starts with empty buffers and samples, and refreshes at once when the token expires within a minute, else schedules a refresh at expiry |
| TeslaCommunication.Client.SendData | src/tesla_ce/static/et/TeslaCommunication.js:207-225 | queues exactly one data item iff the type is enrolment or verification; nothing else changes |
| TeslaCommunication.Client.SendAlert | src/tesla_ce/static/et/TeslaCommunication.js:236-244 | queues the alert on the alert buffer; nothing else changes |
| TeslaCommunication.Client.DrainTick | src/tesla_ce/static/et/TeslaCommunication.js:276-289 | sends an item iff the queue is non-empty and the slot free; the item sent is the last queued and now fills the slot; the other buffer is untouched |
| TeslaCommunication.Client.RaiseNetworkError | src/tesla_ce/static/et/TeslaCommunication.js:439-450 | NETWORK_ERROR sets the error flag; the handler calls are ErrorCalls: the event handlers up to the client's, the alert handlers when the alert is raised, then the rest; the 'error' CONNECTION_ERROR alert is retained and queued only when the flag was clear; nothing else changes |
| TeslaCommunication.Client.OnNetworkErrorEvent | src/tesla_ce/static/et/TeslaCommunication.js:439-450 | the first error of an outage sets the flag, retains and queues the CONNECTION_ERROR alert and calls every alert handler with it; a later error changes nothing |
| TeslaCommunication.Client.Replay | src/tesla_ce/static/et/TeslaCommunication.js:77-87 | any run of network errors and speed samples on the client ends with the flag FlagAfter gives and retains exactly the CONNECTION_ERROR alerts OutageAlerts counts |
| TeslaCommunication.Client.UpdateNetworkSpeed | src/tesla_ce/static/et/TeslaCommunication.js:77-110 | adds the sample, sets the tier from the mean, and on recovery clears the flag and resets the tier to -1; the calls are the non-retained 'info' CONNECTION_RECOVERED alert to every alert handler on recovery, then NETWORK_SPEED_CHANGE to every event handler only on a tier change; no alert is retained |
| TeslaCommunication.Client.RefreshToken | src/tesla_ce/static/et/TeslaCommunication.js:251-271 | one more refresh request is sent; nothing else changes |
| TeslaCommunication.Client.Delivered | src/tesla_ce/static/et/TeslaCommunication.js:295-307 | after a 200 the path waits for confirmation, the speed buffer gains the sample, the speed status is the mean's class, a network error ends with a recovery alert queued, and the slot is empty |
| TeslaCommunication.Client.OnLoad | src/tesla_ce/static/et/TeslaCommunication.js:292-309 | a 401 triggers one refresh; a 200 appends the path to the pending confirmations, records a speed sample and frees the slot; any other status leaves the slot occupied |
| TeslaCommunication.Client.OnError | src/tesla_ce/static/et/TeslaCommunication.js:310-323 | the buffer becomes Failed of the old one (retried or kept in the slot) and NETWORK_ERROR is raised on every error, with the calls and the alert of RaiseNetworkError |
| TeslaCommunication.Client.PollTick | src/tesla_ce/static/et/TeslaCommunication.js:382-422 | no request while nothing awaits confirmation; otherwise the request lists the learner and every pending path |
| TeslaCommunication.Client.OnStatusResponse | src/tesla_ce/static/et/TeslaCommunication.js:395-415 | on 200 the pending list is pruned by the response; a 401 triggers one refresh; other state unchanged |
| TeslaCommunication.Client.OnRefreshLoad | src/tesla_ce/static/et/TeslaCommunication.js:256-264 | on 200 the new expiry is kept and the next refresh is scheduled one minute before it; otherwise nothing changes |
| TeslaCommunication.Client.OnRefreshError | src/tesla_ce/static/et/TeslaCommunication.js:265-269 | a retry is scheduled 30 seconds later and NETWORK_ERROR is raised, with the calls and the alert of RaiseNetworkError |
| TeslaCommunication.Client.OnPollError | src/tesla_ce/static/et/TeslaCommunication.js:416-418 | NETWORK_ERROR is raised, with the calls and the alert of RaiseNetworkError, and nothing else changes |
| InformedConsent.ParseAll | src/tesla_ce/models/informed_consent.py:39-40 | the parts parse iff every part is an integer, and the result holds each part's value in order |
| InformedConsent.FormatParses | src/tesla_ce/models/informed_consent.py:73-75 | a version joined with dots reads back as the same three numbers |
| InformedConsent.NewerIsStrictTotalOrder | src/tesla_ce/apps/api/v2/views/institution/learner.py:52-59 | the (major, minor, patch) comparison is irreflexive, asymmetric, transitive and total on distinct versions |
| InformedConsent.IsNewerVersions | src/tesla_ce/apps/api/v2/views/institution/learner.py:41-59 | undefined when either string has a part that is not an integer; for two three-part versions, true iff the candidate is lexicographically larger on major, minor, patch; shorter versions are compared as the chained or/and reads them, undefined only where a missing part is read |
| InformedConsent.NewerParts | src/tesla_ce/apps/api/v2/views/institution/learner.py:52-59 | different majors decide at once; the minor is read only on equal majors and the patch only on equal minors; undefined exactly when a part it reads is missing |
| InformedConsent.ShortVersionsCompare | src/tesla_ce/apps/api/v2/views/institution/learner.py:52-59 | version 2 is newer than version 1, while comparing 1 with 1 reads a missing minor |
| InformedConsent.SameVersionIsNotNewer | src/tesla_ce/apps/api/v2/views/institution/learner.py:41-59 | a version is never newer than itself |
| InformedConsent.ValidVersion | src/tesla_ce/models/informed_consent.py:27-43 | equal strings are valid without parsing; otherwise different majors are invalid at once, a missing minor is undefined after equal majors, and two versions with minors are valid iff major and minor agree |
| InformedConsent.ValidVersionIgnoresPatch | src/tesla_ce/models/informed_consent.py:41-43 | between two formatted versions, valid iff major and minor agree, whatever the patch |
| InformedConsent.NewestIsMaximum | src/tesla_ce/models/informed_consent.py:59-72 | the newest of a list exists iff the list is non-empty, is one of its members, and no member is newer |
| InformedConsent.InForceVersionsAreInForce | src/tesla_ce/models/informed_consent.py:55-72 | the versions scanned are exactly those of the consents already valid at the given time |
| InformedConsent.LatestIsMaximum | src/tesla_ce/models/informed_consent.py:47-75 | no current version iff no consent is in force; otherwise it belongs to a consent in force and none in force is newer |
| InformedConsent.CurrentVersion | src/tesla_ce/models/informed_consent.py:47-75 | the loop returns None iff nothing is in force, else the newest in-force version re-joined with dots |
| InformedConsent.Status | src/tesla_ce/models/informed_consent.py:98-111 | the status is one of the four names, and NOT_VALID_YET for a consent not yet in force |
| InformedConsent.StatusInForce | src/tesla_ce/models/informed_consent.py:98-111 | for a consent in force: VALID when it is the current version, VALID_NEED_UPDATE when only the patch differs, NOT_VALID otherwise |
| InformedConsent.ValidateVersion | src/tesla_ce/apps/api/v2/serializers/institution/informed_consent.py:60-76 | accepted iff the value has exactly three integer parts |
| InformedConsent.ValidateVersionNormalises | src/tesla_ce/apps/api/v2/serializers/institution/informed_consent.py:70-76 | the accepted value reads as the same numbers as the input, and validating it again gives the same result |
| InformedConsent.FormatValidates | src/tesla_ce/apps/api/v2/serializers/institution/informed_consent.py:70-76 | a version written as X.Y.Z is accepted unchanged and reads back as its three numbers |
| Learners.RequestedVersion | src/tesla_ce/apps/api/v2/serializers/institution/learner.py:115-117 | a version is present iff the field is given and not blank; it is the field with surrounding whitespace removed |
| Learners.FindConsent | src/tesla_ce/apps/api/v2/views/institution/learner.py:106-115 | a consent found has exactly the requested version; none found means no consent of the institution has it |
| Learners.ValidPrefix | src/tesla_ce/tasks/requests/verification.py:36 | the statuses starting with VALID are exactly VALID_EXTERNAL, VALID and VALID_NEED_UPDATE |
| Learners.Learner.constructor | src/tesla_ce/models/learner.py:198-208 | a new learner has no consent, no acceptance and no rejection |
| Learners.Learner.IcStatus | src/tesla_ce/models/learner.py:227-239 | VALID_EXTERNAL for external consent, NOT_VALID_REJECTED after a rejection, NOT_VALID_MISSING with no consent, else the consent's status |
| Learners.Learner.Ic | src/tesla_ce/apps/api/v2/views/institution/learner.py:90-134 | only the learner itself may act; an accept succeeds iff the version exists and, while an unrejected consent is held, is strictly newer; it sets the consent and clears any rejection; a reject succeeds iff an unrejected consent is held and marks it rejected; refusals change nothing |
| Learners.Learner.Accept | src/tesla_ce/apps/api/v2/views/institution/learner.py:102-123 | succeeds iff a non-blank version names one of the institution's consents and, while an unrejected consent is held, that version is strictly newer; then the consent is set, the acceptance date is now and any rejection is cleared; a refusal changes nothing |
| Learners.Learner.Reject | src/tesla_ce/apps/api/v2/views/institution/learner.py:125-131 | succeeds iff an unrejected consent is held; only the rejection date changes; a refusal changes nothing |
| Learners.DisabledByIsUnion | src/tesla_ce/models/learner.py:47-52 | an instrument is disabled iff some unexpired SEND category lists it |
| Learners.LearnerSend | src/tesla_ce/models/learner.py:29-60 | is_send iff some category is unexpired; the disabled instruments and enabled options are the unions over unexpired categories |
| Learners.MatchRow | src/tesla_ce/models/learner.py:177-181 | one status row: it stops iff its instrument belongs to the activity but is not required, as list.remove raises; otherwise the loop state moves on by that row |
| Learners.MatchEnrolled | src/tesla_ce/models/learner.py:176-181 | fails iff an enrolled instrument of the activity is not required; otherwise the missing list holds, as a multiset, the required instruments less one copy of each enrolled one, the enrolled instruments enter the report with their row, and the flag is set iff one of them cannot be analysed |
| Collections.RemoveValueCount | src/tesla_ce/models/learner.py:178 | list.remove of a present value drops exactly one copy of it |
| Learners.AddPlaceholders | src/tesla_ce/models/learner.py:182-193 | every still-missing instrument gets a zero placeholder row, overwriting its status row; other rows are kept |
| Learners.CompleteReport | src/tesla_ce/models/learner.py:182-193 | the flag is raised when the missing list is not empty, and the report then adds a placeholder for each instrument on it |
| Learners.MissingEnrolment | src/tesla_ce/models/learner.py:152-194 | nothing is reported for a disabled activity; otherwise it fails with the ValueError of list.remove iff an enrolled instrument needs no enrolment, and else missing iff some required instrument is still missing (no row, or listed twice) or some enrolled one cannot be analysed; the report holds exactly the enrolled and the still-missing instruments, a still-missing one with its placeholder |
| Learners.RequiredAmongInstruments | src/tesla_ce/models/learner.py:172-175 | the required instruments are among the activity's, and listed once each when the activity lists each instrument once |
| Learners.DistinctLeavesUnmatched | src/tesla_ce/models/learner.py:175-181 | when the activity lists each instrument once, the still-missing instruments are exactly the required ones without a status row |
| Learners.RepeatedInstrumentStaysMissing | src/tesla_ce/models/learner.py:175-193 | an instrument listed twice by the activity (src/tesla_ce/models/activity.py:82-93 allows it) stays missing despite a usable status row, and is reported with the placeholder |
| VerificationTasks.CreateRequest | src/tesla_ce/tasks/requests/verification.py:29-64 | a request is queued iff the learner exists, its consent status starts with VALID and every instrument exists; the file is deleted exactly on a consent refusal; a stored request is marked with a .valid file and status 0, or an .error file and status 2 |
| VerificationTasks.ProviderOutcomes | src/tesla_ce/tasks/requests/verification.py:96-113 | one provider result per enabled provider, status 5 exactly where enrolment is required and unusable; no task launched iff every provider is so blocked |
| VerificationTasks.IdleRequestStatus | src/tesla_ce/tasks/requests/verification.py:121-132 | with no task launched the request reads Missing Provider when an instrument had no provider, else Error |
| VerificationTasks.IdleStatusAsWrittenMisnamed | src/tesla_ce/tasks/requests/verification.py:123-131 | the status codes written for an idle request name Error and Timeout on the request scale, not the missing provider or enrolment the comments describe, and Processing in the branch commented as an error, where the corrected status is Error |
| VerificationTasks.LaunchProviders | src/tesla_ce/tasks/requests/verification.py:96-116 | the provider loop yields the provider statuses and the launched tasks of the instrument |
| VerificationTasks.VerifyRequest | src/tesla_ce/tasks/requests/verification.py:67-138 | one result per instrument (4 without providers, 5 when all are blocked), provider statuses per instrument, all launched tasks in order, and a request status only when nothing was launched, taken from the corrected IdleRequestStatus (see Findings) |
| VerificationTasks.NoTasksIffAllBlocked | src/tesla_ce/tasks/requests/verification.py:114-121 | no task is launched iff every instrument ends in status 4 or 5 |
| VerificationTasks.Statuses | src/tesla_ce/tasks/requests/verification.py:160-162 | the statuses read are those of the provider results, in order |
| VerificationTasks.SummaryStatus | src/tesla_ce/tasks/requests/verification.py:164-167 | the instrument status is 0 iff some provider result is pending, otherwise the largest provider status |
| VerificationTasks.ProcessedMaxResult | src/tesla_ce/tasks/requests/verification.py:156-169 | None iff no provider result is processed; otherwise the largest result of a processed one |
| VerificationTasks.ProcessedMaxCode | src/tesla_ce/tasks/requests/verification.py:156-171 | None iff no provider result is processed; otherwise the largest code of a processed one |
| VerificationTasks.RequestStatusAfter | src/tesla_ce/tasks/requests/verification.py:177-193 | scheduled iff every result is pending, processing iff some are pending and some are not, processed iff all are processed; with nothing pending, the highest status plus two when it is below 5, else 4 (Error); within 1..6 |
| VerificationTasks.VerificationSummary | src/tesla_ce/tasks/requests/verification.py:141-199 | the result's status, result and code are the aggregates above; the request status is updated and the report queued iff the result is no longer pending |
| EnrolmentTasks.CreateSample | src/tesla_ce/tasks/requests/enrolment.py:27-63 | a sample is queued iff the learner exists, its consent status starts with VALID and every instrument exists; the file is deleted exactly on a consent refusal; an unknown learner or an instrument mismatch leaves an .error marker, the latter with sample status 2 |
| EnrolmentTasks.ValidatorsOf | src/tesla_ce/tasks/requests/enrolment.py:84-86 | an instrument has no validator iff none of its providers is enabled with validation allowed and active |
| EnrolmentTasks.ValidateRequest | src/tesla_ce/tasks/requests/enrolment.py:66-116 | the first instrument without validators stops the sample with its named message; otherwise every instrument has validators and all of them are started, instrument by instrument |
| EnrolmentTasks.RetryCountdown | src/tesla_ce/tasks/requests/enrolment.py:137 | the retry countdown starts at 15 seconds and grows by 90 per retry |
| EnrolmentTasks.ValidationSummaryOf | src/tesla_ce/tasks/requests/enrolment.py:119-188 | retried iff a validation is pending and fewer than five retries were made; otherwise pending validations time out, the sample is valid (1) iff no validation ends above 1, timed out (3) iff one was pending, else error (2), with the matching marker, and enrolment starts iff valid |
| ReportResults.ShiftCode | src/tesla_ce/tasks/reports/results.py:66-69 | a result code moved onto the alert scale keeps its name (Pending, Ok, Warning, Alert) and never lands on No Information |
| ReportResults.Round | src/tesla_ce/tasks/reports/results.py:64-89 | round() lies within one half of its argument, strictly unless it is even (halves go to the even neighbour), and is exact on integers |
| ReportResults.RoundMonotone | src/tesla_ce/tasks/reports/results.py:84-89 | round() is monotone, so rounding the minimum percentage gives the minimum rounded value |
| ReportResults.Processed | src/tesla_ce/tasks/reports/results.py:63-65 | the processed results are exactly the rows with status 1 |
| ReportResults.Codes | src/tesla_ce/tasks/reports/results.py:63 | the codes aggregated are those of the rows, in order |
| ReportResults.Results | src/tesla_ce/tasks/reports/results.py:63 | the results averaged are those of the rows, in order |
| ReportResults.SumBounds | src/tesla_ce/tasks/reports/results.py:63-64 | a sum of values within bounds lies within the bounds times the count |
| ReportResults.RatioAtMostOne | src/tesla_ce/tasks/reports/results.py:65 | a share of a larger positive count lies between 0 and 1 |
| ReportResults.Confidence | src/tesla_ce/tasks/reports/results.py:65 | the confidence is a percentage, 100 when every result is processed |
| ReportResults.MeanPercent | src/tesla_ce/tasks/reports/results.py:63-64 | the mean of results in [0, 1], times 100, lies in [0, 100] |
| ReportResults.Level | src/tesla_ce/tasks/reports/results.py:71-82 | an applicable column takes the name of the worst processed code; any other reads No Information |
| ReportResults.UpdateInstrumentReportAsWritten | src/tesla_ce/tasks/reports/results.py:75-78 | for an instrument informing neither originality nor authorship the content level keeps its previous value |
| ReportResults.UpdateInstrumentReport | src/tesla_ce/tasks/reports/results.py:25-93 | each level is the worst processed code where the instrument applies and No Information elsewhere; confidence, result and enrolment are the rounded share, mean and minimum |
| ReportResults.UpdatedReport | src/tesla_ce/tasks/reports/results.py:63-89 | the confidence is a percentage (100 when all are processed), the result is the rounded mean and the enrolment the lowest rounded percentage |
| ReportResults.MinPercent | src/tesla_ce/tasks/reports/results.py:84-89 | the minimum is one of the percentages and no larger than any, also after rounding |
| ReportResults.ContentLevelStaysPending | src/tesla_ce/tasks/reports/results.py:75-78 | for a new identity-only instrument the code as written leaves the content level Pending, the corrected update reports No Information |
| ReportResults.UpdatedTimes | src/tesla_ce/tasks/reports/results.py:107 | the update times read are those of the instrument rows |
| ReportResults.IdentityLevels | src/tesla_ce/tasks/reports/results.py:110-114 | the identity levels read are those of the instrument rows |
| ReportResults.ContentLevels | src/tesla_ce/tasks/reports/results.py:110-115 | the content levels read are those of the instrument rows |
| ReportResults.IntegrityLevels | src/tesla_ce/tasks/reports/results.py:110-116 | the integrity levels read are those of the instrument rows |
| ReportResults.UpdateActivityReport | src/tesla_ce/tasks/reports/results.py:96-118 | refused without a report; with no rows the comparison with the None aggregate raises TypeError; otherwise refused with No new results iff the report is newer than every row; otherwise each level is the maximum over the rows and the report is stamped with the time of the save |
| ReportResults.SecondUpdateRefused | src/tesla_ce/tasks/reports/results.py:96-118 | once saved, the report is refused with No new results by the next run over the same rows when every row was written before the save |
| Histograms.Truncate | src/tesla_ce/models/request_provider_result.py:80 | int() on a float truncates toward zero: within one unit below a non-negative value and above a negative one |
| Histograms.Bin | src/tesla_ce/models/request_provider_result.py:80 | the bin of a non-negative result is one of ten; below 1.0 it is the tenth the result falls in, from 1.0 up it is the last |
| Histograms.Bump | src/tesla_ce/models/request_provider_result.py:82-91 | an existing histogram gains one in the bin; a missing one starts with one in the bin and zero elsewhere |
| Histograms.TotalOfUpdate | src/tesla_ce/models/request_provider_result.py:85 | overwriting one bin changes the total by the difference |
| Histograms.TotalOfZeros | src/tesla_ce/models/request_provider_result.py:88-90 | a histogram of zero counts totals zero |
| Histograms.BumpCountsOne | src/tesla_ce/models/request_provider_result.py:82-91 | every bump adds exactly one result to the histogram's total |
| Histograms.Record | src/tesla_ce/models/request_provider_result.py:82-121 | recording touches only the histogram of its key, creating it when absent |
| Histograms.RecordTwiceCountsTwice | src/tesla_ce/models/request_provider_result.py:75-121 | saving the same processed result twice counts it twice in its bin |
| Histograms.Histograms.constructor | src/tesla_ce/models/request_provider_result.py:75-121 | the four histogram tables start empty |
| Histograms.Histograms.Save | src/tesla_ce/models/request_provider_result.py:75-121 | a processed result is recorded in its bin in each of the four histograms (learner and activity, by instrument and by provider); any other status changes nothing |
| ActivityReport.ResultBin | src/tesla_ce/apps/api/v2/serializers/institution/activity_report.py:95-96 | the bin of a non-negative percentage is the tenth it falls in, the last from 100 up |
| ActivityReport.Polarity | src/tesla_ce/apps/api/v2/serializers/institution/activity_report.py:91-92 | the polarity is +1 or -1, +1 exactly when the first provider's polarity is not inverted |
| ActivityReport.TotalAppend | src/tesla_ce/apps/api/v2/serializers/institution/activity_report.py:120 | the total of a concatenation is the sum of the totals |
| ActivityReport.TotalNonNegative | src/tesla_ce/apps/api/v2/serializers/institution/activity_report.py:120 | a histogram of non-negative counts has a non-negative total |
| ActivityReport.TotalAroundBin | src/tesla_ce/apps/api/v2/serializers/institution/activity_report.py:147-149 | a histogram's total is the part below a bin, the bin, and the part above |
| ActivityReport.ProbNumerator | src/tesla_ce/apps/api/v2/serializers/institution/activity_report.py:112-118 | the weight of a bin counts the bin in full and never exceeds the total |
| ActivityReport.HigherNumerator | src/tesla_ce/apps/api/v2/serializers/institution/activity_report.py:144-149 | the results on the better side of a bin never exceed the total minus the bin |
| ActivityReport.HigherSplitsHistogram | src/tesla_ce/apps/api/v2/serializers/institution/activity_report.py:144-149 | the results above a bin, the bin and the results below it make up the whole histogram |
| ActivityReport.Prob | src/tesla_ce/apps/api/v2/serializers/institution/activity_report.py:106-136 | the probability of the learner's or the context's bin lies in [0, 1] |
| ActivityReport.HigherProb | src/tesla_ce/apps/api/v2/serializers/institution/activity_report.py:138-166 | the probability of a better result lies in [0, 1] and is the share of results on the better side of the bin |
| UIOptions.BaseRoutes | src/tesla_ce/models/ui_option.py:36-43 | a route is a base route iff some enabled global option without roles has it |
| UIOptions.RoleRoutesMeaning | src/tesla_ce/models/ui_option.py:48-53 | a route is listed under a role iff some enabled global option with roles names that role |
| UIOptions.RoleNamesMeaning | src/tesla_ce/models/ui_option.py:48-52 | a role is a key iff some enabled global option names it |
| UIOptions.AddUnderRoles | src/tesla_ce/models/ui_option.py:50-53 | the route is added under every role of the list, creating missing keys, and nothing else changes |
| UIOptions.UnnamedRoleHasNoRoutes | src/tesla_ce/models/ui_option.py:48-53 | a role no option names has no routes |
| UIOptions.AddOptionRoles | src/tesla_ce/models/ui_option.py:48-53 | after each option the map holds the base routes under __all__ and, per role, the routes of the options seen so far |
| UIOptions.RoleBaseRoutes | src/tesla_ce/models/ui_option.py:29-59 | the keys are __all__ and every named role; each holds the base routes (for __all__) plus the routes of the options listing it |
| UIOptions.RolesUnion | src/tesla_ce/models/ui_option.py:89-91 | a route is granted by the roles iff one of the user's roles is known and lists it |
| UIOptions.UserRoutes | src/tesla_ce/models/ui_option.py:62-102 | nothing for a user with no institution who is not a global admin; a global admin without institution gets __all__ and GLOBAL_ADMIN; otherwise the granted routes minus those the institution or the user has disabled; every route comes from the role map |
| UIOptions.UpperAll | src/tesla_ce/apps/api/v2/serializers/admin/ui_option.py:62 | each item upper-cased, in order |
| UIOptions.CheckRoles | src/tesla_ce/apps/api/v2/serializers/admin/ui_option.py:59-62 | accepted iff every upper-cased item is a valid role, giving the upper-cased items; otherwise the error names the first invalid item |
| UIOptions.RolesValidation | src/tesla_ce/apps/api/v2/serializers/admin/ui_option.py:47-63 | no value or a blank one gives no roles; accepted roles are the upper-cased comma items joined in order |
| UIOptions.CheckRolesFirstInvalid | src/tesla_ce/apps/api/v2/serializers/admin/ui_option.py:59-61 | the error names the first item that is not a valid role |
| UIOptions.CheckItems | src/tesla_ce/apps/api/v2/serializers/admin/ui_option.py:57-62 | the loop over the comma items computes the role check |
| UIOptions.ValidateRoles | src/tesla_ce/apps/api/v2/serializers/admin/ui_option.py:47-63 | the serializer method computes the roles validation |
| UIOptions.UpperKeepsComma | src/tesla_ce/apps/api/v2/serializers/admin/ui_option.py:62 | upper-casing adds no comma |
| UIOptions.JoinedNotBlank | src/tesla_ce/apps/api/v2/serializers/admin/ui_option.py:53-63 | a joined list of valid non-blank roles is not blank |
| UIOptions.JoinedRolesRevalidate | src/tesla_ce/apps/api/v2/serializers/admin/ui_option.py:47-63 | valid, upper-case, comma-free roles joined with commas validate to themselves |
| UIOptions.RolesValidationIdempotent | src/tesla_ce/apps/api/v2/serializers/admin/ui_option.py:47-63 | validating accepted roles again returns them unchanged |
| UIOptions.RouteValidation | src/tesla_ce/apps/api/v2/serializers/admin/ui_option.py:31-45 | a missing route is refused; a route is accepted iff no other option than the one edited uses it, and is returned unchanged |
| LearnerApi.GetPathStatus | src/tesla_ce/apps/lapi/views/status.py:31-40 | NOT_FOUND for a missing sample; otherwise the first marker among error, valid and timeout decides, with its content; PENDING iff there is none |
| LearnerApi.StatusPost | src/tesla_ce/apps/lapi/views/status.py:42-60 | an invalid body is a bad request, a bad token is forbidden; otherwise one entry per sample, in order, with its path status |
| LearnerApi.VerificationPath | src/tesla_ce/apps/lapi/views/verification.py:29-65 | the path splits into institution, requests, learner, course, activity, then documents or the session, and the stamped file name (request without metadata, document without a filename) |
| LearnerApi.SplitsBack | src/tesla_ce/apps/lapi/views/verification.py:47-64 | segments free of '/' joined with '/' split back into themselves |
| LearnerApi.EnqueueVerification | src/tesla_ce/apps/lapi/views/verification.py:67-82 | the create_request task gets the request's activity, learner, instruments and session and the stored path |
| LearnerApi.AlertPath | src/tesla_ce/apps/lapi/views/alert.py:29-60 | the path splits into institution, alerts, learner, course, activity, then the session or documents, and the stamped upper-cased level |
| LearnerApi.UpperKeepsSlash | src/tesla_ce/apps/lapi/views/alert.py:48-57 | upper-casing a segment adds no '/' |
| LearnerApi.EnqueueAlert | src/tesla_ce/apps/lapi/views/alert.py:62-79 | the create_alert task gets the level, activity, learner, session, instruments and raised_at as posted and the stored path |
| LearnerApi.EnrolmentPath | src/tesla_ce/apps/lapi/views/enrolment.py:29-52 | the path splits into institution, enrolment, learner, samples and the stamped file name (request unless metadata names a file) |
| LearnerApi.EnrolmentPathIgnoresContext | src/tesla_ce/apps/lapi/views/enrolment.py:46-50 | course, activity and session never reach an enrolment path |
| LearnerApi.EnqueueSample | src/tesla_ce/apps/lapi/views/enrolment.py:54-67 | the create_sample task gets exactly the learner, the stored path and the instruments |
| Levels.AlertFromValue | src/tesla_ce/models/alert.py:35-51 | INFO, WARNING, ALERT and ERROR in any letter case give levels 0 to 3, every other name gives None, and every level given is a declared one |
| Levels.AlertFromValueInjective | src/tesla_ce/models/alert.py:43-50 | two names giving the same level agree once upper-cased |
| Levels.AlertNamesRoundTrip | src/tesla_ce/models/alert.py:35-51 | the display name of every declared level reads back as that level |
| Levels.FindType | src/tesla_ce/models/vle.py:34-37 | None iff no type's name matches in any letter case; otherwise the id of the first matching type |
| Levels.GetTypeId | src/tesla_ce/models/vle.py:28-37 | MOODLE in any letter case gives type 0; every other name gives None |
| Activities.IsEnabled | src/tesla_ce/models/activity_instrument.py:62-73 | an active configuration is enabled, an inactive primary is not, an inactive alternative is enabled iff the configuration it replaces is |
| Activities.EnabledTerminates | src/tesla_ce/models/activity_instrument.py:62-73 | on acyclic alternative chains the answer is reached within the chain's length |
| Activities.EnabledMoreFuel | src/tesla_ce/models/activity_instrument.py:62-73 | following the chain further never changes an answer already reached |
| Activities.GetOptions | src/tesla_ce/models/activity_instrument.py:82-92 | no options stay None; stored options are decoded |
| Activities.DisabledInstruments | src/tesla_ce/models/activity.py:78-80 | instruments are disabled only for a SEND learner whose SEND data lists them, and then exactly those |
| Activities.Primaries | src/tesla_ce/models/activity.py:82-87 | exactly the active primaries whose instrument is, or is not, disabled |
| Activities.AlternativesTo | src/tesla_ce/models/activity.py:90 | exactly the active alternatives to the given configuration |
| Activities.AlternativesOfMembers | src/tesla_ce/models/activity.py:89-91 | a configuration is gathered iff it is an active member of the configuration and an alternative to one of the given primaries |
| Activities.GetLearnerInstruments | src/tesla_ce/models/activity.py:69-93 | the active primaries not disabled, in order, followed by the active alternatives of the disabled active primaries |
| Activities.CollectAlternatives | src/tesla_ce/models/activity.py:88-91 | the loop gathers the active alternatives of each excluded primary, in the order of the excluded primaries |
| Activities.NoSendMeansPrimaries | src/tesla_ce/models/activity.py:78-93 | without disabled instruments no primary is excluded and no alternative is added |
| Activities.AttachmentFilterMembers | src/tesla_ce/apps/api/v2/views/vle/activity.py:76-86 | the filter keeps exactly plagiarism and forensic instruments and face or voice recognition set offline, never another instrument |
| Activities.AttachmentInstruments | src/tesla_ce/apps/api/v2/views/vle/activity.py:73-87 | the GET branch's loop computes the attachment filter over the learner's instruments, in order |
| EnrolmentModels.UploadPath | src/tesla_ce/models/enrolment.py:27-41 | the path splits into institution, models, learner, instrument and "<provider>.json" |
| EnrolmentModels.NoSlashInNumberFile | src/tesla_ce/models/enrolment.py:36 | the model file name holds no '/' |
| EnrolmentModels.UploadPathIgnoresFilename | src/tesla_ce/models/enrolment.py:27-41 | the file name offered by the storage never changes the path |
| EnrolmentModels.ModelTotalSamples | src/tesla_ce/models/enrolment.py:84-85 | the count is zero iff the model uses no sample |
| EnrolmentModels.Lock | src/tesla_ce/apps/api/v2/serializers/provider/enrolment.py:112-115 | the locked model is held by the requesting worker task since now, with its other fields kept |
| EnrolmentModels.LockExcludesOthers | src/tesla_ce/apps/api/v2/serializers/provider/enrolment.py:105-110 | a fresh lock refuses every other task for five hours |
| EnrolmentModels.StaleOrOwnLockAllowed | src/tesla_ce/apps/api/v2/serializers/provider/enrolment.py:105-110 | a lock older than five hours refuses nobody, and the holder is never refused |
| EnrolmentModels.Release | src/tesla_ce/apps/api/v2/serializers/provider/enrolment.py:122-136 | the lock fields are cleared, and each given field replaces the stored one while an absent one keeps it |
| EnrolmentModels.AvailableSamples | src/tesla_ce/apps/api/v2/views/provider/enrolment.py:74-98 | a sample is available iff it is the learner's, accepted, not used by the model, and validated by a provider of the instrument |
| EnrolmentModels.UsedSamples | src/tesla_ce/apps/api/v2/views/provider/enrolment.py:100-118 | no samples without a model; otherwise the existing samples the model uses |
| EnrolmentModels.AvailableAndUsedDisjoint | src/tesla_ce/apps/api/v2/views/provider/enrolment.py:74-118 | no sample is both available to and used by a model |
| EnrolmentModels.EnrolmentTable.constructor | src/tesla_ce/models/enrolment.py:27-96 | the table starts with no models |
| EnrolmentModels.EnrolmentTable.AcquireLock | src/tesla_ce/apps/api/v2/serializers/provider/enrolment.py:66-120 | an unknown learner is refused; otherwise the model (created when missing) is locked for the requesting worker task unless another task holds a lock younger than five hours, and a refusal changes nothing |
| EnrolmentModels.EnrolmentTable.Update | src/tesla_ce/apps/api/v2/serializers/provider/enrolment.py:122-136 | a PUT releases the model with the request's fields, a field the request omits taking its declared default (percentage 0, can_analyse false, no used samples); any other method changes nothing |
| EnrolmentModels.EnrolmentTable.Unlock | src/tesla_ce/apps/api/v2/views/provider/enrolment.py:53-72 | NotFound without a model, NotAcceptable when unlocked, PermissionDenied for a token other than the holder's; only the holder's token clears the lock, and every refusal changes nothing |
| ProviderStatus.CheckedStatus | src/tesla_ce/apps/api/v2/views/provider/request_provider_result.py:54-63 | a missing status, a non-integer and a value outside 0..top are refused with their messages; otherwise the value is accepted |
| ProviderStatus.CheckedStatusAcceptsPrinted | src/tesla_ce/apps/api/v2/views/provider/validation.py:54-63 | a posted integer is accepted exactly when it lies in range |
| ProviderStatus.RequestProviderResult.constructor | src/tesla_ce/apps/api/v2/views/provider/request_provider_result.py:65-67 | the result holds the given status |
| ProviderStatus.RequestProviderResult.ChangeStatus | src/tesla_ce/apps/api/v2/views/provider/request_provider_result.py:50-75 | the outcome is the status change; an accepted status is stored, a refusal keeps the old one |
| ProviderStatus.ResultStatusChange | src/tesla_ce/apps/api/v2/views/provider/request_provider_result.py:50-75 | input errors first, then Not found, then a processed result refuses any change; otherwise the status in 0..7 is accepted |
| ProviderStatus.ProcessedResultIsFinal | src/tesla_ce/apps/api/v2/views/provider/request_provider_result.py:69-70 | a processed result never changes status |
| ProviderStatus.SampleValidation.constructor | src/tesla_ce/apps/api/v2/views/provider/validation.py:65-67 | the validation holds the given status |
| ProviderStatus.SampleValidation.ChangeStatus | src/tesla_ce/apps/api/v2/views/provider/validation.py:50-71 | the outcome is the status change; an accepted status is stored, a refusal keeps the old one |
| ProviderStatus.ValidationStatusChange | src/tesla_ce/apps/api/v2/views/provider/validation.py:50-71 | input errors first; accepted iff the status lies in 0..4 and the validation exists, whatever its current status |
| ProviderStatus.RangesDiffer | src/tesla_ce/apps/api/v2/views/provider/validation.py:62-63 | statuses 5 to 7 are accepted for verification results and refused for sample validations |
| AssessmentSessions.AfterClose | src/tesla_ce/models/assessment_session.py:52-70 | the session is closed now with the given auto flag; with related closing, exactly the earlier open sessions of the same learner and activity are closed as automatic; the rest is unchanged |
| AssessmentSessions.CloseLeavesNoEarlierOpen | src/tesla_ce/models/assessment_session.py:64-70 | after a close with related sessions the learner has no open session of that activity started earlier |
| AssessmentSessions.CloseSparesOthers | src/tesla_ce/models/assessment_session.py:66-69 | sessions of other learners or activities, and later ones, are never touched |
| AssessmentSessions.SessionTable.constructor | src/tesla_ce/models/assessment_session.py:25-40 | the table holds the given sessions |
| AssessmentSessions.SessionTable.Close | src/tesla_ce/models/assessment_session.py:52-70 | the closing loop leaves the table as described by the close |
| Permissions.GetInstitutionUser | src/tesla_ce/apps/api/permissions.py:22-36 | an institution user is its own membership, a plain user has its link if any, anyone else has none |
| Permissions.IsGlobalAdmin | src/tesla_ce/apps/api/permissions.py:39-49 | a global admin is an authenticated user with the staff flag |
| Permissions.GlobalAdmin | src/tesla_ce/apps/api/permissions.py:52-57 | the permission is granted iff the user is a global admin |
| Permissions.GlobalAdminReadOnly | src/tesla_ce/apps/api/permissions.py:60-68 | granted iff the method is safe and the user is a global admin |
| Permissions.InstitutionMember | src/tesla_ce/apps/api/permissions.py:71-97 | granted iff the user belongs to an institution and the path lies under that institution's API |
| Permissions.InstitutionAdmin | src/tesla_ce/apps/api/permissions.py:110-121 | granted iff the member permission holds and the user administers the institution |
| Permissions.InstitutionMemberReadOnly | src/tesla_ce/apps/api/permissions.py:100-107 | granted iff the method is safe and the member permission holds |
| Permissions.InstitutionAdminReadOnly | src/tesla_ce/apps/api/permissions.py:124-131 | granted iff the method is safe and the admin permission holds |
| Permissions.PrefixNamesOneInstitution | src/tesla_ce/apps/api/permissions.py:94-95 | thanks to the trailing '/', a path lies under the API of at most one institution |
| Permissions.MemberOnlyInOwnInstitution | src/tesla_ce/apps/api/permissions.py:90-97 | a member is granted access only under its own institution's API |
| Permissions.PermissionsNarrow | src/tesla_ce/apps/api/permissions.py:52-131 | every read-only variant grants a subset of its base and only safe methods; every admin is a member; anonymous requests get nothing |
| ConfigManager.Get | src/tesla_ce/lib/config/manager.py:397-404 | dict.get: present iff the key is set, with its value |
| ConfigManager.LoadRefusal | src/tesla_ce/lib/config/manager.py:123-124 | loading is refused, with its message, iff the environment is disabled and neither a file nor both Vault credentials are given |
| ConfigManager.Find | src/tesla_ce/lib/config/manager.py:346-347 | no module is found iff none has the name |
| ConfigManager.FindFirst | src/tesla_ce/lib/config/manager.py:346-347 | a module found is the first one with that name |
| ConfigManager.GetModule | src/tesla_ce/lib/config/manager.py:328-349 | no modules, several modules without a name, and an unknown name are refused with their messages; a lone module is returned without a name; a named one is the module of that name |
| ConfigManager.GetModuleConfig | src/tesla_ce/lib/config/manager.py:351-364 | the module's errors pass through; a module without configuration is refused; otherwise its configuration |
| ConfigManager.ApiKeysWin | src/tesla_ce/lib/config/manager.py:381-384 | every key the api module sets takes the api module's value in the merged configuration |
| ConfigManager.LaterModuleWins | src/tesla_ce/lib/config/manager.py:375-380 | among the other modules a key takes the value of the last module setting it, unless api sets it |
| ConfigManager.MergeKeepsLast | src/tesla_ce/lib/config/manager.py:375-380 | a key set by a module and by no later non-api module keeps that module's value through the merge |
| ConfigManager.GetConfig | src/tesla_ce/lib/config/manager.py:366-386 | the result is the merged configuration: the other modules in order, then 'api' on top, failing with the first unreadable module (see ApiKeysWin, LaterModuleWins) |
| ConfigManager.MergeModules | src/tesla_ce/lib/config/manager.py:373-380 | the loop merges every module other than 'api' in order, stops at the first unreadable one, and reports whether 'api' is among the modules |
| ConfigManager.MergeStaysFailed | src/tesla_ce/lib/config/manager.py:379 | once reading a module's configuration fails, the merge stays failed |
| ConfigManager.DbEntryOf | src/tesla_ce/lib/config/manager.py:400-407 | the engine is the Django backend named by DB_ENGINE, host and port are the module's own |
| ConfigManager.NoDbModuleNoDatabase | src/tesla_ce/lib/config/manager.py:411-412 | without a module offering db the database configuration is empty |
| ConfigManager.NoDbEntries | src/tesla_ce/lib/config/manager.py:397-398 | modules not offering db contribute no connection |
| ConfigManager.DefaultIsFirstDb | src/tesla_ce/lib/config/manager.py:409-410 | the default connection is that of the first module offering db |
| ConfigManager.FirstDbEntry | src/tesla_ce/lib/config/manager.py:397-409 | the first connection collected belongs to the first module offering db |
| ConfigManager.NoDbEntriesBefore | src/tesla_ce/lib/config/manager.py:397-398 | no connection is collected before the first module offering db |
| ConfigManager.GetDatabaseConfig | src/tesla_ce/lib/config/manager.py:388-413 | the result is one connection per module offering 'db' plus 'default' for the first of them, or no connections at all (see DefaultIsFirstDb, NoDbModuleNoDatabase) |
| ConfigManager.CollectDbEntries | src/tesla_ce/lib/config/manager.py:396-408 | the loop builds the connection of each module offering 'db', in order, and fails with the first one whose configuration cannot be read |
| ConfigManager.EntriesMap | src/tesla_ce/lib/config/manager.py:400-407 | storing the connections one after the other gives the dictionary of all of them |
| ConfigManager.DbEntriesStayFailed | src/tesla_ce/lib/config/manager.py:400 | once reading a module's configuration fails, collecting stays failed |
| ConfigManager.NormaliseVhostAsWritten | src/tesla_ce/lib/config/manager.py:478-482 | a missing vhost raises before the None check is reached; a present one is normalised |
| ConfigManager.NormaliseVhost | src/tesla_ce/lib/config/manager.py:478-516 | the vhost starts with '/': '/' when missing or empty, unchanged when it already starts with '/', otherwise prefixed with '/' |
| ConfigManager.MissingVhostRaises | src/tesla_ce/lib/config/manager.py:478-479 | a configuration without CELERY_BROKER_VHOST makes the code as written fail, and the intended normalisation gives '/' |
| ConfigManager.NormaliseVhostIdempotent | src/tesla_ce/lib/config/manager.py:478-482 | normalising twice changes nothing more |
| ConfigManager.SeveralCeleryModulesNeedAdmin | src/tesla_ce/lib/config/manager.py:496-507 | several Celery modules without RabbitMQ administrator credentials are refused |
| ConfigManager.NoCeleryModuleUsesDefaults | src/tesla_ce/lib/config/manager.py:510-524 | without a module offering celery the broker URL comes from the global settings |
| ConfigManager.NoCeleryUrls | src/tesla_ce/lib/config/manager.py:464-465 | modules not offering celery contribute no broker URL |
| ConfigManager.BeforeFirstProtocol | src/tesla_ce/lib/config/manager.py:499 | splitting a URL on '//' keeps the protocol and its colon |
| ConfigManager.AdminUrlSwapsCredentials | src/tesla_ce/lib/config/manager.py:498-505 | the administrator URL keeps protocol, host, port and vhost and swaps in the administrator's credentials |
| ConfigManager.CollectCeleryUrls | src/tesla_ce/lib/config/manager.py:462-492 | the loop collects the broker URL of each module offering celery, in order, and fails with the first module whose configuration cannot be read |
| ConfigManager.GetCeleryConfig | src/tesla_ce/lib/config/manager.py:455-526 | the loop over the modules computes the Celery broker URL, with the vhost of the corrected NormaliseVhost (see Findings) |
| ConfigManager.CeleryUrlsStayFailed | src/tesla_ce/lib/config/manager.py:466 | once reading a module's configuration fails, collecting stays failed |
| Checks.VaultConnection | src/tesla_ce/lib/checks.py:22-50 | connected iff Vault answers; sealed is asked only of an initialized Vault; ready iff connected, initialized and not sealed |
| Checks.CheckTeslaConfiguration | src/tesla_ce/lib/checks.py:188-211 | valid iff the domain and the administrator mail are set, with one error per missing setting, in order |
| Checks.CheckDbConfiguration | src/tesla_ce/lib/checks.py:148-185 | valid iff engine, host, port and a full user or root credential pair are set; connections are tried only then, and connected is cleared iff both fail; the errors list each missing setting and the failed connection, in order |
| Checks.CheckVaultConfiguration | src/tesla_ce/lib/checks.py:102-145 | a missing URL or one without http(s) is invalid and Vault is not contacted; otherwise the status is the connection check, an unreachable Vault is an error, and an initialized one needs the root token and, when sealed, unseal keys |
| Checks.CheckVaultStatus | src/tesla_ce/lib/checks.py:122-135 | an unreachable Vault gives one connection error; a reachable initialized one reports a missing root token and, when sealed, missing unseal keys, in that order; valid iff no error |
| Client.ModuleKind | src/tesla_ce/client.py:518 | a kind exists iff the id starts with provider_ or vle_, and the id then starts with that kind and an underscore |
| Client.ModuleIdParts | src/tesla_ce/client.py:518-523 | splitting such an id on '_' yields at least two parts: its kind, then its number |
| Client.FillModuleInfo | src/tesla_ce/client.py:517-523 | for a provider or VLE id, type and pk are added unless given (pk from the number after the first underscore), the call fails iff pk must be parsed and is not an integer, and given entries are kept |
| Client.ModuleToken | src/tesla_ce/client.py:515-528 | the payload keeps the given entries, adds type and pk for provider and VLE ids unless given, always sets sub to the id and scope and filters as passed; it is signed with module_ followed by the id and lives the given ttl; it fails iff pk is missing and the number part is not an integer |
| Client.GetModuleToken | src/tesla_ce/client.py:496-528 | without an id the configured module is the subject, and a failed configuration read fails the call; otherwise the request is that of ModuleToken for the subject and the given data, living 60 minutes unless a ttl is given |
| Client.CheckConfiguration | src/tesla_ce/client.py:321-346 | the TeSLA, database and Vault reports are exactly what their checks give (validity, errors, connection and Vault status); storage is valid iff its check returns 1 and keeps its errors; the whole is valid iff every part is |
| Client.AllValid | src/tesla_ce/client.py:339-344 | the loop with its early exit yields true iff every service is valid |
| Client.GetSystemStatus | src/tesla_ce/client.py:615-645 | status 0 iff some service reports 0, otherwise 1; errors and warnings are the sums over the services |
| Client.NoErrorsIffEveryServiceClean | src/tesla_ce/client.py:633-637 | with non-negative counts the summed errors are non-negative, and zero iff every service has none |
| Client.AdminTokenPair | src/tesla_ce/client.py:445-473 | a pair exists iff the user is staff, otherwise the error is User is not admin; the pair is signed with the users key and carries the user's subject, the admin type, the scope, filters and times |
| Client.UserTokenPair | src/tesla_ce/client.py:417-443 | signed with the users key for the given times; the payload says type user, the user's subject and id, and the scope |
| Client.VerifyUser | src/tesla_ce/client.py:551-613 | rejected credentials give Invalid user credentials; staff get an admin pair over the admin and institution APIs for 15 minutes, refreshable for 60; institution users get a user pair over their scopes for 15 minutes, refreshable for a day; everyone else is refused |
| Client.ScopeHeads | src/tesla_ce/client.py:577-591 | the own, institution, SEND and legal scopes differ after their common institution prefix |
| Client.AdminScopesGrant | src/tesla_ce/client.py:580-591 | each administration scope is granted iff its flag is set, and none is the user's own scope |
| Client.LearnerScopesApart | src/tesla_ce/client.py:592-608 | no learner scope equals the own scope or an administration scope |
| Client.UserScopesGrant | src/tesla_ce/client.py:575-609 | the own scope comes first; the institution, SEND and legal scopes are present iff their flags are set; the four learner scopes come last iff the user is a learner |
| Client.LauncherToken | src/tesla_ce/client.py:1064-1084 | DASHBOARD gives target 0 with a user pair over the user's own scope for a day by default; LAPI gives target 1 with a learner pair whose payload is exactly sub, type learner, pk, scope /lapi/* and filters, for two hours by default, and is refused with Provided user is not a learner for a non-learner; anything else is Invalid target type |
| Client.LauncherTokenAsWritten | src/tesla_ce/client.py:1073-1080 | as LauncherToken, except that a LAPI request for a user without a learner ends in RelatedObjectDoesNotExist |
| Client.LauncherNonLearnerEscapes | src/tesla_ce/client.py:1077-1080 | for a user who is not a learner, the code as written fails with an error other than Provided user is not a learner, which is what the intended launcher gives |
| Client.LauncherTargetIgnoresCase | src/tesla_ce/client.py:1066-1073 | the target is compared in upper case, so a name and its upper-case form launch the same |
| Client.SessionRefusalOf | src/tesla_ce/client.py:771-788 | unless consent is external, a missing or rejected consent refuses with MissingIc and a status not starting with VALID with InvalidIc; an enabled activity with missing enrolments refuses next; otherwise the session may be created |
| Client.ExternalIcSkipsConsent | src/tesla_ce/client.py:772 | an institution with external informed consent is never refused for consent |
| Client.Occurrences | src/tesla_ce/client.py:797-800 | empty iff the sensor is not among the instrument's sensors, and every entry is the instrument id |
| Client.SensorUsersMembers | src/tesla_ce/client.py:795-800 | an instrument id is listed for a sensor iff some instrument with that id uses the sensor |
| Client.NoUserNoEntry | src/tesla_ce/client.py:798-799 | a sensor has no listed instruments iff no instrument uses it |
| Client.AddSensors | src/tesla_ce/client.py:796-800 | the map gains the instrument's sensors, and each entry is the old list followed by the instrument id once per use |
| Client.SensorMap | src/tesla_ce/client.py:791-800 | the instrument list follows the learner's instruments in order; a sensor has an entry iff some instrument uses it, and that entry lists the users in order |
| Client.SessionOptions | src/tesla_ce/client.py:830-834 | the given options are kept and floating_menu_initial_pos is added, defaulting to top-right |
| Client.LtiSettings | src/tesla_ce/client.py:970-986 | only the consumer key, the secret and, for a Moodle URL, the three LTI 1.3 URLs change; an empty or missing key or secret is replaced with a fresh one and a present one kept; Moodle gets auth, token and key-set URLs under its address |
| Client.LtiSettingsStable | src/tesla_ce/client.py:977-986 | registering the same VLE again with the stored settings keeps the consumer key and secret |
| VaultSetup.AdaptedPaths | src/tesla_ce/lib/vault/setup.py:503-515 | every original path appears adapted, and keeps its rule when no later path adapts to the same text |
| VaultSetup.AdaptedOnlyOriginals | src/tesla_ce/lib/vault/setup.py:505-515 | every adapted path is the adaptation of some original path |
| VaultSetup.PlainPathKept | src/tesla_ce/lib/vault/setup.py:506-514 | a path without placeholders is kept as it is |
| VaultSetup.LaterPlaceholdersKept | src/tesla_ce/lib/vault/setup.py:508-514 | the replacements after the key-value one leave a string without their placeholders unchanged |
| VaultSetup.KvPathAdapted | src/tesla_ce/lib/vault/setup.py:506-507 | a path under the key-value placeholder is moved under the configured key-value mount |
| VaultSetup.AdaptPaths | src/tesla_ce/lib/vault/setup.py:505-515 | the adapted policy of one policy's path loop |
| VaultSetup.AdaptPoliciesPath | src/tesla_ce/lib/vault/setup.py:496-516 | the same policy names, each with its paths adapted |
| VaultSetup.CheckPolicies | src/tesla_ce/lib/vault/setup.py:518-549 | valid iff every expected policy is stored under the prefixed name; every reported policy is expected and stored, and every expected stored one is reported |
| VaultSetup.IsMounted | src/tesla_ce/lib/vault/setup.py:624-652 | enabled iff the mount is among the listed secret engines or authentication methods |
| VaultSetup.MissingRoleAddsNothing | src/tesla_ce/lib/vault/setup.py:669-673 | a role the map does not hold adds nothing |
| VaultSetup.MissingServiceAddsNothing | src/tesla_ce/lib/vault/setup.py:666 | a service the map does not know adds nothing, whatever its roles |
| VaultSetup.FoundRoleGrants | src/tesla_ce/lib/vault/setup.py:674-677 | a role the map holds grants all its values and its policy |
| VaultSetup.ReachedRole | src/tesla_ce/lib/vault/setup.py:667-677 | each role found for a service is reached |
| VaultSetup.AddRoles | src/tesla_ce/lib/vault/setup.py:667-677 | the configuration gains the values and the policies gain the policy of every role the map holds |
| VaultSetup.AppendAccess | src/tesla_ce/lib/vault/setup.py:675-677 | adding one entry adds exactly its values and its policy |
| VaultSetup.AppendAccesses | src/tesla_ce/lib/vault/setup.py:664-677 | the values and policies of two runs of entries are the unions of each |
| VaultSetup.AddGenericServiceAccess | src/tesla_ce/lib/vault/setup.py:655-679 | the configuration and policies gain exactly what the known services' roles reach |
| VaultSetup.BuildConfigAndPolicies | src/tesla_ce/lib/vault/setup.py:681-711 | the configuration is the public values plus what the services reach; the policies are the public, Django (iff the django service), module and reached ones, each prefixed |
| VaultSetup.NoDjangoWithoutService | src/tesla_ce/lib/vault/setup.py:699-700 | without the django service, and with no role reaching it, the Django policy is not granted |
| VaultSetup.VleModuleName | src/tesla_ce/lib/vault/setup.py:860 | a VLE module name starts with vle_ followed by at least three digits |
| VaultSetup.ProviderModuleName | src/tesla_ce/lib/vault/setup.py:884 | a provider module name starts with provider_ followed by at least three digits |
| VaultSetup.LeadingZerosValue | src/tesla_ce/lib/vault/setup.py:860 | leading zeros keep a string of digits and do not change its value |
| VaultSetup.PaddedIdParses | src/tesla_ce/lib/vault/setup.py:860 | the zero-filled id has no underscore and parses back to the id |
| VaultSetup.ModuleNamesRoundTrip | src/tesla_ce/lib/vault/setup.py:860-884 | the token of a registered VLE or provider names its kind and the padded number, which parses back to the id |
| AdminUser.Validate | src/tesla_ce/apps/api/v2/serializers/admin/user.py:60-84 | with login allowed, a password differing from password2 is refused and password2 is then dropped; otherwise login_allowed is forced false; an institution id of -1 becomes None; giving an institution to a user without one needs a uid; every other attribute is kept; accepted iff neither refusal applies |
| AdminUser.CheckLogin | src/tesla_ce/apps/api/v2/serializers/admin/user.py:68-75 | refused iff login is allowed and a given password differs from password2; with login allowed password2 is dropped, otherwise login_allowed becomes false; nothing else changes |
| AdminUser.LinkInstitution | src/tesla_ce/apps/api/v2/serializers/admin/user.py:77-82 | an institution id of -1 becomes None; refused iff the user has no institution yet, an institution is given and no uid is; the keys and other values are kept |
| AdminUser.NamesDistinct | src/tesla_ce/apps/api/v2/serializers/admin/user.py:89-118 | distinct roles are listed under distinct names |
| AdminUser.GetInstitution | src/tesla_ce/apps/api/v2/serializers/admin/user.py:86-110 | nothing iff the user has no institution user; otherwise the institution's id, the acronym its institution record holds, and the held roles, each once, in the order INSTRUCTOR, LEARNER, ADMIN, SEND, LEGAL, DATA |
| AdminUser.MemberRoles | src/tesla_ce/apps/api/v2/serializers/admin/user.py:88-100 | the role list is the held roles in listing order |
| AdminUser.RoleAt | src/tesla_ce/apps/api/v2/serializers/admin/user.py:88-100 | each rank of the listing order names one role |
| AdminUser.ListedBelow | src/tesla_ce/apps/api/v2/serializers/admin/user.py:88-100 | the listed roles are exactly the held roles ranked below a given position, in order |
| AdminUser.RolesAll | src/tesla_ce/apps/api/v2/serializers/admin/user.py:88-100 | once every role has been looked at, a role is listed iff it is held |
| AdminUser.RolesStep | src/tesla_ce/apps/api/v2/serializers/admin/user.py:89-100 | looking at the next role appends it exactly when it is held |
| AdminUser.GetRoles | src/tesla_ce/apps/api/v2/serializers/admin/user.py:112-120 | GLOBAL_ADMIN is listed iff the user is staff, and then last; every other role is listed iff the institution user holds it; the list is in order without repetition |
| AdminUser.UpdateInstitution | src/tesla_ce/apps/api/v2/serializers/admin/user.py:193-241 | staff is kept; a user with an institution loses it when the id is None; a user without one gets a new link with nothing allowed when an id is given, and otherwise stays without; a kept or new link takes each present field (the four admin flags, uid, login_allowed, institution) and keeps the locale and learner and instructor roles (the acronym is no field of the link: GetInstitution reads it from the institution) |
| AdminUser.EmptyUpdateKeepsMember | src/tesla_ce/apps/api/v2/serializers/admin/user.py:216-238 | a partial update without institution fields leaves the link as it was |
| AdminUser.ValidateThenUpdate | src/tesla_ce/apps/api/v2/serializers/admin/user.py:60-84 | after validation and update, staff is the validated is_staff when present; a user given an institution is linked to it and has a uid; a null institution_id leaves no link; attributes without institution fields leave the link as it was |
| AdminUser.WithDefaults | src/tesla_ce/apps/api/v2/serializers/admin/user.py:42-53 | a partial update passes the request as sent; a full update also holds every declared field, the request's value where sent and the declared default elsewhere |
| AdminUser.PutFillsDefaults | src/tesla_ce/apps/api/v2/serializers/admin/user.py:42-53 | a full update that omits a field behaves as one that sends that field's default |
| AdminUser.Save | src/tesla_ce/apps/api/v2/serializers/admin/user.py:193-258 | a full update that omits institution_id removes the link and one that omits is_staff clears staff; a partial update keeps staff and, without institution fields, the link; an institution id given to a user without one links it |
| Auth.GetTokenAsWritten | src/tesla_ce/lib/auth.py:39-48 | as written, a request without an Authorization header fails; with one, the result is that of GetToken |
| Auth.MissingHeaderFails | src/tesla_ce/lib/auth.py:40-43 | the missing header is the input on which the code as written fails, while the corrected reading gives no token |
| Auth.GetToken | src/tesla_ce/lib/auth.py:39-48 | a token iff the header starts with the JWT scheme and splits into exactly two words; the token is then a word |
| Text.UnitSeparatorSplitsStrOnly | src/tesla_ce/lib/auth.py:44 | the separators 0x1c to 0x1f split the `str` header of `_get_token` but not the bytes header that `authenticate` splits at line 116 |
| Auth.GetTokenRoundTrip | src/tesla_ce/lib/auth.py:43-47 | a header made of the scheme, a space and a token gives that token back |
| Auth.SchemePrefixAccepted | src/tesla_ce/lib/auth.py:43 | only the prefix is checked, so a first word such as JWTX is accepted as well |
| Auth.IsAuthenticatedRequest | src/tesla_ce/lib/auth.py:51-84 | no token gives None; a token gives the validation failure or the payload, since every URL is allowed; the token comes from the corrected GetToken (see Findings) |
| Auth.GetModuleModel | src/tesla_ce/lib/auth.py:137-162 | resolves iff the type is provider or vle and that module exists, to a module account with the payload's type, pk and subject; any other type is Invalid module type |
| Auth.GetUserModel | src/tesla_ce/lib/auth.py:164-193 | learners are looked up by subject, admin users by pk, other users by uid then by id, module groups by module; any other group is Invalid payload group |
| Auth.ResolvedIsAuthenticated | src/tesla_ce/lib/auth.py:164-193 | a resolved principal is never the unauthenticated user |
| Auth.AuthenticateCredentials | src/tesla_ce/lib/auth.py:195-223 | a failed validation is Invalid token with its reason; with a database the principal is the resolved model, refused when inactive; without one a bare authenticated user; success returns the token |
| Auth.Authenticate | src/tesla_ce/lib/auth.py:108-135 | the header bytes are split on ASCII whitespace; no words gives the unauthenticated user and no token; one word or more than two are refused with their messages; two words authenticate the second |
| Auth.SchemeIgnored | src/tesla_ce/lib/auth.py:116-135 | the first word of the header is not checked: any scheme gives the same result |
| Auth.InactiveRefused | src/tesla_ce/lib/auth.py:220-221 | a valid token of an inactive stored account is refused as inactive or deleted |
| Auth.DebugClaims | src/tesla_ce/lib/auth.py:304-317 | admin and user map to the users group with their type; vle and provider to their module group with their type; any other type fails |
| Auth.DebugCredentials | src/tesla_ce/lib/auth.py:284-329 | without a configured object the user is unauthenticated; an unknown type is refused as invalid credentials; with databases a known type succeeds iff the built payload resolves; no token is ever returned |
| Auth.DebugPayload | src/tesla_ce/lib/auth.py:298-303 | the built payload has the configured key as subject and pk and the configured type |
| Auth.DebugModulesResolve | src/tesla_ce/lib/auth.py:310-320 | the debug VLE and provider objects resolve iff that module exists |
| Auth.DebugAuthenticate | src/tesla_ce/lib/auth.py:269-282 | the header bytes are split on ASCII whitespace; a header without words or with two goes to the debug credentials; one word or more than two are refused as in the normal authentication |
| Auth.DebugIgnoresToken | src/tesla_ce/lib/auth.py:284-329 | under debug authentication every token gives the same principal |
| Deployment.GetInstance | src/tesla_ce/lib/deploy/deployment.py:38-56 | the given orchestrator, or the configured one when none is given, is accepted iff it is swarm; otherwise the error names it |
| Deployment.NonBlank | src/tesla_ce/lib/deploy/deployment.py:102 | the kept lines are exactly the lines that are not blank, none added |
| Deployment.NonBlankAppend | src/tesla_ce/lib/deploy/deployment.py:102 | filtering blank lines distributes over concatenation |
| Deployment.NonBlankKeepsAll | src/tesla_ce/lib/deploy/deployment.py:102 | lines without a blank one are kept as they are |
| Deployment.RemoveEmptyLinesLines | src/tesla_ce/lib/deploy/deployment.py:101-102 | the result is empty iff every line is blank; otherwise its lines are the non-blank lines |
| Deployment.JoinFirst | src/tesla_ce/lib/deploy/deployment.py:102 | joining a list whose first line is not empty gives a non-empty text |
| Deployment.RemoveEmptyLinesIdempotent | src/tesla_ce/lib/deploy/deployment.py:101-102 | removing blank lines twice is the same as once |
| Deployment.Delete | src/tesla_ce/lib/deploy/deployment.py:142-149 | deleting a module succeeds iff it is present, and removes only it; a missing one fails naming the key |
| Deployment.SelectModules | src/tesla_ce/lib/deploy/deployment.py:140-149 | with specialized workers worker-all is removed, otherwise the six specialized workers; this succeeds iff all of them are present, and the other modules are kept unchanged |
| Deployment.PathsDistinct | src/tesla_ce/lib/deploy/deployment.py:153-174 | distinct file names give distinct paths |
| Deployment.DeploymentScripts | src/tesla_ce/lib/deploy/deployment.py:133-176 | succeeds iff the removed workers are present; the remaining modules are exactly the others; the files are the core, dashboards, load-balancer (for traefik) and services (when asked) scripts plus a role and secret file per module; the core script is the rendered template without blank lines, and the load-balancer, services and dashboards scripts are their rendered templates; each module's credential files hold its role and secret ids |
| Deployment.SwarmFiles | src/tesla_ce/lib/deploy/deployment.py:151-176 | the files are the scripts plus the credential files of the modules; the core script is rendered without blank lines, and the load-balancer (for traefik), services (when asked) and dashboards scripts are their rendered templates; each module's credential files hold its ids |
| Deployment.CredentialsKept | src/tesla_ce/lib/deploy/deployment.py:157-160 | later writes to other files keep the credentials already written |
| Deployment.CredentialsStep | src/tesla_ce/lib/deploy/deployment.py:158-160 | writing one module's role and secret ids keeps the earlier modules' ids, whose names differ in upper case |
| Deployment.CredentialFilesStep | src/tesla_ce/lib/deploy/deployment.py:159-160 | one more module adds exactly its role and secret files |
| Deployment.AddCredentials | src/tesla_ce/lib/deploy/deployment.py:157-160 | the role and secret file of every module are written with its credentials |
| Deployment.WrittenStep | src/tesla_ce/lib/deploy/deployment.py:157-160 | one more module keeps the loop's description of the written files |
| Deployment.AddScripts | src/tesla_ce/lib/deploy/deployment.py:162-174 | the load-balancer script is added for traefik, the services script when asked and the dashboards script always, each rendered without blank lines; the credential files are untouched |
| DatabaseManager.CreateDatabase | src/tesla_ce/lib/db/manager.py:121-140 | succeeds iff the engine is mysql or postgresql, with the conditional create statement for mysql; any other engine is Unsuported engine |
| DatabaseManager.CreateUser | src/tesla_ce/lib/db/manager.py:142-166 | succeeds iff the engine is mysql; postgresql is not implemented; any other engine is Unsuported engine |
| DatabaseManager.Initialize | src/tesla_ce/lib/db/manager.py:43-77 | with neither connection it cannot connect and saves nothing new; with the default connection nothing is created; with only the admin connection a missing password is generated and saved, and it succeeds iff the mysql database and user are created and the new connection works, otherwise creation failed |
| DatabaseManager.CheckMigrations | src/tesla_ce/lib/db/manager.py:194-242 | succeeds iff every TeSLA CE migration name starts with a number; the newest version is that of the last TeSLA CE target, none iff there is none; the current version is the newest when nothing is pending, none when the lowest pending is 1, and one below the lowest pending otherwise |
| DatabaseManager.NewestVersion | src/tesla_ce/lib/db/manager.py:212-216 | the version of the last TeSLA CE target, none iff there is none, failing iff a name is not numbered |
| DatabaseManager.LowestPending | src/tesla_ce/lib/db/manager.py:218-224 | the lowest version among the pending TeSLA CE migrations, none iff there is none, failing iff a name is not numbered |
| DatabaseManager.VersionOfNumbered | src/tesla_ce/lib/db/manager.py:216 | a name made of digits, an underscore and a rest has the digits' value as version |
| DatabaseManager.NextLine | src/tesla_ce/lib/db/manager.py:337-355 | readline splits off the next line with its newline: the two parts give the text back, the line is empty only at the end, and it holds no newline but a final one |
| DatabaseManager.SaveTranslations | src/tesla_ce/lib/db/manager.py:350-354 | the translation loop stores the non-empty translations of the paired languages |
| DatabaseManager.TranslatedChanges | src/tesla_ce/lib/db/manager.py:350-354 | the loop removes nothing, and an entry it changes belongs to the message, one of the paired languages and one of the paired translations |
| DatabaseManager.TranslatedStores | src/tesla_ce/lib/db/manager.py:350-354 | with distinct languages, a non-empty translation is stored for its language and an empty one leaves that entry as it was |
| DatabaseManager.TranslatedUntouched | src/tesla_ce/lib/db/manager.py:350-354 | a language outside the paired ones keeps its entry |
| DatabaseManager.LoadAsWritten | src/tesla_ce/lib/db/manager.py:337-355 | the file as read by the code, where only the header and the first data line have their newline removed: loading it changes only translations of the header's languages |
| DatabaseManager.UpdateDefaultMessages | src/tesla_ce/lib/db/manager.py:328-355 | the file read with every line stripped of its newline |
| DatabaseManager.StoreRowChanges | src/tesla_ce/lib/db/manager.py:342-354 | one data line changes only translations of its own message in the header's languages |
| DatabaseManager.StoreChanges | src/tesla_ce/lib/db/manager.py:341-355 | the lines from one on change only translations of the header's languages, without newlines when stripped |
| DatabaseManager.LoadChanges | src/tesla_ce/lib/db/manager.py:337-355 | loading the file changes only translations of the header's languages |
| DatabaseManager.LoadedTranslationsClean | src/tesla_ce/lib/db/manager.py:340-355 | with every line stripped, no loaded translation holds a newline |
| DatabaseManager.NextLineOf | src/tesla_ce/lib/db/manager.py:340 | readline on a line ended by a newline returns that line and the rest |
| DatabaseManager.ChompLine | src/tesla_ce/lib/db/manager.py:337 | removing the newline of a line gives the line |
| DatabaseManager.ColumnThen | src/tesla_ce/lib/db/manager.py:342 | a field followed by a semicolon is the first column of the split |
| DatabaseManager.Columns | src/tesla_ce/lib/db/manager.py:342 | a line of five semicolon-separated fields splits into those fields |
| DatabaseManager.SampleLines | src/tesla_ce/lib/db/manager.py:337-355 | the lines of the sample file as readline returns them, and its header names the single language en |
| DatabaseManager.LastColumnKeepsNewline | src/tesla_ce/lib/db/manager.py:350-354 | an unstripped line ending in y and a newline stores y with the newline |
| DatabaseManager.AsWrittenKeepsNewline | src/tesla_ce/lib/db/manager.py:355 | as written, the second message of the sample file gets y followed by a newline as its English translation |
| DatabaseManager.StrippedDropsNewline | src/tesla_ce/lib/db/manager.py:340-355 | with every line stripped, the same message gets y |

## Left out

- The VLE activity-report serializer (src/tesla_ce/apps/api/v2/serializers/vle/activity_report.py) repeats the bin, polarity and probability helpers of the institution serializer line for line, so the ActivityReport module models them once for both.
- Database reads and writes, Celery task dispatch, Vault, storage uploads and deletions, and HTTP calls are not modelled as effects. What they return is passed in as parameters: probes, stored records, the migration graph, the generated uuid password, file contents, module lists and rendered templates.
- Clocks are parameters: `now` in milliseconds or seconds, and the timezone's now.
- Python's `int()` is modelled on an optional sign followed by ASCII digits. Whitespace, underscores and non-ASCII digits are not accepted. `str.upper()` acts on ASCII only, and `str.strip()` and `str.split()` remove the ASCII whitespace and the separators 0x1c to 0x1f but no other Unicode space; `bytes.split()` splits on the six ASCII whitespace characters only.
- Dictionary iteration order is not modelled. Maps are Dafny maps, and results that the source lists in dict order are sets or maps.
- JavaScript's `toFixed(2)` rounding is ignored, and network speeds are reals.
- The XMLHttpRequest is modelled by an in-flight flag per buffer, and each request gets exactly one callback.
- The template rendering of `get_services_scripts` and `get_vle_scripts` is not modelled. Their file lists are only rendered templates.
- The database work that follows the connection guard of `initialize` (migrations and the default data it loads through the ORM) is not modelled.
- `UnicodeError` on a non-ASCII token header is not modelled, and neither is the latin-1 decoding of the messages file. A `\r\n` line end counts as a line holding a carriage return.
- The LEARNER role is an Option on the institution user, and the configuration is a flat map from keys to text.
- The policy documents and the service configuration map are parameters. Their contents are not part of this model.
- The debug authentication's empty scope ("") and filters ("") are modelled as an empty list and no filters.
- Activities.IsEnabled: follows at most `fuel` alternatives and gives None when the fuel runs out. EnabledMoreFuel shows that more fuel never changes a defined answer, but a cycle of alternatives, which makes the source recurse without end, is not modelled.
- TeslaCommunication.Client.Delivered: requires the elapsed time to be positive, for the same reason as OnLoad.
- TeslaCommunication.Client.OnLoad: requires the elapsed time to be positive. A zero time would make the source divide by zero and record an infinite speed.
- VerificationTasks.VerificationSummary: requires at least one provider result. With none, the source compares None with 0 and raises.
- VerificationTasks.SummaryStatus: requires at least one status, for the same reason.
- ReportResults.Round: rounds an exact real. The source rounds a binary floating-point value, whose error can move a product that should be a half to either side of it.
- ReportResults.Confidence: the share processed / total * 100 is an exact real here, a float in the source; at an exact half the two can differ. For 23 processed of 40 the float product is 57.49999999999999, which the source rounds to 57, while the model rounds 57.5 to 58.
- ReportResults.MeanPercent: the mean of the results and its product by 100 are exact reals here, floats in the source, so the same rounding difference at halves is not modelled.
- ReportResults.UpdateInstrumentReport: requires a processed result and an enrolment value. With neither, the source multiplies None by 100 and raises.
- ReportResults.UpdatedReport: requires a processed result and an enrolment value, for the same reason.
- ActivityReport.Prob: requires a non-empty histogram, because the source divides by its total, and a non-negative result. Negative results are not modelled.
- ActivityReport.HigherProb: requires a non-empty histogram and a non-negative result, for the same reasons.
- Histograms.Histograms.Save: requires a processed result to fall in a bin. A result below -0.1 names no bin field, and the source raises.
- InformedConsent.CurrentVersion: requires every stored consent version to be readable, because the serializer only stores versions it has validated.
- InformedConsent.Status: requires readable versions and the consent itself to be among the institution's consents, which the source guarantees by looking it up there.
- Learners.MissingEnrolment: requires one status row per instrument, as get_learner_enrolment (src/tesla_ce/models/learner.py:74-78 and 112-137) groups its rows by instrument; the activity's instrument list may repeat an instrument.
- ProviderStatus: the posted status is taken as its decimal text. Values that do not parse are refused as in the source.
- Deployment.DeploymentScripts: states each module's credential values only when no two module names have the same upper-case form. Otherwise the later module overwrites the earlier one's files, as in the source.
- Deployment.SwarmFiles: the same restriction as DeploymentScripts.
- VerificationTasks.VerifyRequest: the request status of an idle request follows the corrected IdleRequestStatus (Missing Provider or Error). The source writes the result codes 4 or 5, as IdleStatusAsWrittenMisnamed shows.
- ConfigManager.GetCeleryConfig: a module without a vhost gets '/' through the corrected NormaliseVhost. The source raises TypeError there, as MissingVhostRaises shows.
- Auth.IsAuthenticatedRequest: a request without an Authorization header gives None through the corrected GetToken. The source raises AttributeError there, as MissingHeaderFails shows.
- AdminUser: `create`, password changes and the ORM save in `update` are not modelled. Only the institution link of `update` is.

## Findings

| source | as written | input that shows it | evidently intended | confidence | as-written member | corrected member |
|---|---|---|---|---|---|---|
| src/tesla_ce/tasks/requests/verification.py:121-132 | with no task launched, the request status is set to the result codes 4 or 5, which on the request scale mean Error and Timeout, and otherwise to 2, commented as an error but meaning Processing | an instrument result with status 4 (missing provider); a request without instruments (status 2, Processing) | Missing Provider (6) when a provider is missing, Error otherwise | not executed | VerificationTasks.IdleStatusAsWrittenMisnamed | VerificationTasks.IdleRequestStatus |
| src/tesla_ce/tasks/reports/results.py:75-78 | the else branch writes authorship_level, so content_level keeps its previous value | a new identity-only instrument with rows [ResultRow(1, 1, 0.9)] and enrolment [0.8] leaves the content level Pending | content_level set to No Information (1) | not executed | ReportResults.ContentLevelStaysPending | ReportResults.UpdateInstrumentReport |
| src/tesla_ce/lib/config/manager.py:478-482 | `len(vhost)` is evaluated before the None test and raises on a missing vhost (also at 512-516) | a module configuration without CELERY_BROKER_VHOST | a missing vhost becomes '/' | not executed | ConfigManager.MissingVhostRaises | ConfigManager.NormaliseVhost |
| src/tesla_ce/lib/auth.py:40-43 | `startswith` is called on the header without a None test and raises when it is missing | a request without an Authorization header | no token | not executed | Auth.MissingHeaderFails | Auth.GetToken |
| src/tesla_ce/lib/db/manager.py:355 | only the header and the first data line lose their newline; later lines keep it in their last column | a file of the lines `c;t;d;m;en`, `A;t;d;m;x` and `B;t;d;m;y`, each ended by a newline, stores "y\n" for (B, en) | every translation stored without the newline | not executed | DatabaseManager.AsWrittenKeepsNewline | DatabaseManager.UpdateDefaultMessages |
| src/tesla_ce/client.py:1077-1080 | the except clause names `user.learner.RelatedObjectDoesNotExist`, which reads `user.learner` again and raises that same exception, so the TeslaAuthException is never raised | an institution user without a learner asking for a LAPI launcher | refused with TeslaAuthException('Provided user is not a learner') | not executed | Client.LauncherNonLearnerEscapes | Client.LauncherToken |
