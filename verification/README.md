# kaggo, modelled in Dafny

kaggo is a Go service that polls Reddit, YouTube, Kaggle and Twitch on Temporal schedules, stores the metrics it collects and serves them back to a CLI and a small JavaScript dashboard. This project models the rules running through that plumbing, and proves properties about them:

- **Schedules.** Calendar ranges expand into values, and the cartesian product of days, hours, minutes and seconds gives the next run times. The daily occupancy histogram and the timeline of the plots page are built from these. The modules are `ScheduleSpecs`, `Api` and `PlotHandlers`.
- **Identifiers.** Schedule and workflow IDs are composed as "kind id hash" and "kind id metadata", and split back apart. The modules are `ExternalRequests`, `CliSchedules`, `CliWorkflows` and `PlotHandlers`.
- **Request-kind dispatch.** This covers the worker's credentials, rate-limit labels and upload handlers (`Kinds`, `Activity`, `MetadataHandlers`, `MetricsHandlers`). It also covers the server's external requests, time-series endpoints and metadata endpoints (`ExternalRequests`, `TimeSeries*`, `ServerMetadata`, `ServerSchedule`).
- **Metadata records.** Each worker handler pulls typed fields out of an upstream JSON response with JMESPath paths, and builds links, labels, tags and IDs from them. The modules are `Json` and `MetadataHandlers`.
- **Token caches.** The worker's Reddit and Twitch tokens are refreshed under a clock test. `Activity.ActivityRequester` is a class whose fields are the two caches.
- **Small control rules.**
  - The bearer authorizer and its short-circuit (`Middleware`).
  - The CORS list normalisation and router preconditions (`Server`).
  - The monitor-post selection (`MetricsHandlers`).
  - The WebSub video-ID extraction and subscription check (`WebSub`).
  - The notification handlers (`Notifications`), and the seen-set of the RSS notification handler (`YouTubeRss`, a class).
  - The subscribe loop of the YouTube listener (`ListenerYouTube`).
  - The CLI's confirm predicate (`CliConfirm`).
  - The dashboard's filter and map over fetched records (`Dashboard`).

How the model represents the parts it does not compute:

- **Inputs.** The clock, the environment, HTTP replies, database lookups, MD5, time parsing and Temporal calls are all function or value parameters.
- **Outcomes.** A handler's outcome records the request or query it issued and the response it wrote.
- **Go panics.** A panic (an index out of range, a failed type assertion) is an explicit outcome, not a precondition.
- **Shared modules.** `Wrappers` (Option and Result), `Text` (Go's `strings` and `strconv` helpers), `Http` and `BasicHandlers` are shared by the other modules.

## Model

| member | source | states |
|---|---|---|
| ScheduleSpecs.Collected | server/handlers_schedule.go:29-39 | the entries a listing loop collects are the iterator's items in order, up to the first error or exhaustion |
| ScheduleSpecs.CollectedUnique | server/handlers_schedule.go:29-39 | the collected entries are fixed by the steps: any list that matches the items in order and stops at the first error or at the end is that list |
| ScheduleSpecs.RangeValuesAt | server/handlers_html.go:334-342 | a calendar range denotes exactly Start + i·Step for every i whose term does not pass End, and is empty iff Start > End |
| ScheduleSpecs.RangeValueAt | server/handlers_html.go:334-342 | the i-th value the range loop appends is Start + i·Step and does not pass End |
| ScheduleSpecs.RangeValuesPast | server/handlers_html.go:334-342 | the range loop stops at the first term past End |
| ScheduleSpecs.RangeValuesIncreasing | server/handlers_html.go:334-342 | with a positive Step the expanded values are strictly increasing |
| ScheduleSpecs.MultiplesRangeValues | server/handlers_html.go:334-342 | a range from 0 by k whose end lies in [(n-1)k, nk) expands to exactly the first n multiples of k |
| ScheduleSpecs.Normalized | server/api/reqres.go:13-15 | a partly set range read with Step 0 as 1 and End before Start as Start can be expanded |
| Api.DefaultScheduleSpec | server/api/reqres.go:9-22 | the default spec has one calendar with one second, minute and hour range and 5 minutes of jitter |
| Api.DefaultMinutes | server/api/reqres.go:14 | the minute range 0..59 step 5 expands to exactly the twelve values 0, 5, ..., 55 |
| Api.DefaultHours | server/api/reqres.go:15 | the hour range sets no Step, so its loop does not terminate as written; normalised it covers hours 0..23 |
| Api.DefaultSeconds | server/api/reqres.go:13 | the second range sets only Start, so its loop does not terminate as written; normalised it is second 0 alone |
| Api.DefaultScheduleSpecConstant | server/api/reqres.go:9-22 | the default spec does not depend on the request kind or id |
| Api.UserMetricOpKinds | server/api/reqres.go:34-39 | the four user-metric operation kinds are pairwise distinct |
| PlotHandlers.ExpandRange | server/handlers_html.go:334-342 | the append loop over a terminating range yields exactly the range's values |
| PlotHandlers.DayStart | server/handlers_html.go:78-80 | the truncation to the day gives the midnight at or before now, less than a day before it |
| PlotHandlers.SecondTimes | server/handlers_html.go:350-354 | one minute yields its base time plus each second, in order |
| PlotHandlers.NextActionTimesNoJitter | server/handlers_html.go:328-359 | the nested loops return the day, hour, minute and second product in that nesting order, ndays·hours·minutes·seconds times in all |
| PlotHandlers.AppendDay | server/handlers_html.go:348-356 | the hour loop appends one day's run times to what was there |
| PlotHandlers.AppendHour | server/handlers_html.go:349-355 | the minute loop appends one hour's run times to what was there |
| PlotHandlers.AppendMinute | server/handlers_html.go:350-354 | the second loop appends one minute's run times to what was there |
| PlotHandlers.DayTimesCount | server/handlers_html.go:347-358 | there are exactly ndays·hours·minutes·seconds run times |
| PlotHandlers.RangeIncreasingWithin | server/handlers_html.go:334-342 | a range inside [lo, hi) expands to strictly increasing values inside [lo, hi) |
| PlotHandlers.DayTimesOrdered | server/handlers_html.go:347-358 | with seconds and minutes in 0..59 and hours in 0..23 the run times are strictly increasing and fall within the ndays days |
| PlotHandlers.NextActionTimesChronological | server/handlers_html.go:328-359 | for a calendar within clock bounds the run times come out in chronological order, starting today |
| PlotHandlers.ScheduleRows | server/handlers_html.go:59-76 | the listing keeps one row per collected schedule, whose kind is the text before the first space of its ID |
| PlotHandlers.EndlessCountedEverywhere | server/handlers_html.go:101-106 | a schedule without an end (Go's zero time) is counted in every bin |
| PlotHandlers.UnstartedCountedUntilEnd | server/handlers_html.go:101-106 | a schedule without a start but with an end E is counted exactly in the bins starting no later than E |
| PlotHandlers.KindHitsAtMostKindCount | server/handlers_html.go:94-113 | no bin counts more schedules of a kind than there are of that kind |
| PlotHandlers.KindHitsPositive | server/handlers_html.go:94-113 | a bin's count for a kind is positive iff some schedule of that kind runs in the bin |
| PlotHandlers.ScheduleCounts | server/handlers_html.go:84-113 | the 30 bin starts are today's midnight plus i days; a kind has an entry iff one of its schedules is counted somewhere, and each count is the number of its schedules running in the bin |
| PlotHandlers.TallyBin | server/handlers_html.go:96-112 | the inner loop fills bin i of every kind with its count, creates a kind's entry on its first hit and leaves other bins alone |
| PlotHandlers.TickFacts | server/handlers_html.go:106-109 | counting a schedule adds one to its kind's bin i, first creating an all-zero row for a new kind, and changes nothing else |
| PlotHandlers.TallyOf | server/handlers_html.go:96-112 | counting keeps every kind's row at nbins bins |
| PlotHandlers.TallyOfFacts | server/handlers_html.go:96-112 | after counting every schedule, bin i of each kind holds its hit count, a kind is present exactly when it was before or has a hit, and no other bin changes |
| PlotHandlers.TallyHits | server/handlers_html.go:96-112 | the inner loop leaves exactly the counts of ticking, in order, every schedule that runs in the bin |
| PlotHandlers.WalkOutcomeDone | server/handlers_html.go:328-342 | the expansion returns exactly when the first calendar and its first ranges exist and every range loop ends |
| PlotHandlers.DefaultSpecHangs | server/handlers_html.go:334-336 | the service's own default spec, read without normalisation, never finishes its second loop (Step 0) |
| PlotHandlers.TimelineLabel | server/handlers_html.go:170-171 | the trace label fails (index out of range) iff the schedule ID has no space |
| PlotHandlers.TimelineLabelOfComposed | server/handlers_html.go:170-171 | an ID composed as "kind id suffix" is labelled "kind id" |
| PlotHandlers.Upcoming | server/handlers_html.go:190-197 | the kept run times are run times not before now, no more of them than there were |
| PlotHandlers.UpcomingKeeps | server/handlers_html.go:190-197 | every run time not before now is kept |
| PlotHandlers.UpcomingIncreasing | server/handlers_html.go:190-197 | filtering keeps the order: increasing run times stay increasing |
| PlotHandlers.UpcomingPoints | server/handlers_html.go:186-197 | xs are the upcoming run times; xls and ys have the same length, xls[i] is xs[i] plus the jitter and ys[i] the trace name |
| PlotHandlers.AppendCapacity | server/handlers_html.go:186-197 | a slice built by appends has at least as much capacity as length |
| PlotHandlers.FirstTenAsWrittenCases | server/handlers_html.go:199-201 | as written, up to 8 points panic, 9 points gain a zero-valued tenth point, and 10 or more are cut to 10 |
| PlotHandlers.TimelinePanicsForDailySchedule | server/handlers_html.go:170-201 | a schedule firing once a day gives three points over three days, and the slice to ten panics |
| PlotHandlers.FirstAtMostTen | server/handlers_html.go:199-201 | the corrected slice keeps a prefix of min(len, 10) points |
| PlotHandlers.TimelineTraceOf | server/handlers_html.go:170-201 | a listed schedule gives a trace labelled "kind id" whose points are the first (at most ten) run times of three days not before now, with jittered times and labels alongside; an ID without a space or a spec without ranges panics |
| PlotHandlers.PlotsPage | server/handlers_html.go:268-321 | schedule plot kinds render from "/plot-data?plot_kind=<kind>", user-pulse needs an id, and everything else is 400 |
| PlotHandlers.PlotDataRoute | server/handlers_html.go:42-263 | the plot-data handler rejects with 400 "unsupported plot_kind" exactly the kinds other than the three plot kinds |
| CliConfirm.Confirm | cmd/kaggo/main.go:32-40 | a read error is passed on; otherwise the answer is yes iff the trimmed, lower-cased line is "y", "yes" or "ye" (cmd/main.go:32-40 is the same code) |
| CliConfirm.ConfirmIgnoresCaseAndSpace | cmd/main.go:38-39 | surrounding whitespace and letter case do not change the answer |
| CliConfirm.ConfirmAcceptsYes | cmd/kaggo/main.go:34-39 | any casing of "y", "ye" or "yes", with any white space (Unicode included) around it, is a yes |
| CliConfirm.ConfirmRejectsBlank | cmd/kaggo/main.go:34-39 | a line of white space only is a no |
| CliConfirm.ConfirmRejectsOtherLetters | cmd/kaggo/main.go:34-39 | a line holding any character other than white space and y, e, s in either case is a no |
| CliSchedules.CliDefaultScheduleSpec | cmd/schedules.go:18-31 | the CLI's default spec has one calendar, one minute of jitter and no start or end |
| CliSchedules.CliDefaultScheduleSpecConstant | cmd/schedules.go:18 | the spec ignores both arguments |
| CliSchedules.CliDefaultEveryMinute | cmd/schedules.go:22-24 | no range sets a Step; normalised, the spec fires at second 0 of every minute 0..59 of every hour 0..23 |
| CliSchedules.DumpSchedules | cmd/schedules.go:33-56 | the file is written, with the listing body unchanged, iff the listing answered 200 and its body was read; a failed exchange, an unreadable body or a failed write is the error returned, another status is "bad response from server: " and the status line, and no error is returned exactly when the write succeeded |
| CliSchedules.Failing | cmd/schedules.go:90-122 | the reported schedules are listed ones whose call did not end in a 200 |
| CliSchedules.FailingComplete | cmd/schedules.go:90-122 | every schedule whose call did not end in a 200 is reported |
| CliSchedules.DeleteAllSchedules | cmd/schedules.go:58-124 | without confirmation nothing is sent and the error is "confirmation failed, aborting"; a failed listing is returned; otherwise every listed schedule gets a DELETE, the failures are reported and the command succeeds |
| CliSchedules.LoadRequest | cmd/schedules.go:140-170 | a dumped schedule is re-created with its own spec and skip-metadata=true |
| CliSchedules.LoadRequestOfComposed | cmd/schedules.go:140-145 | a "kind id hash" schedule is re-created under the same kind and id |
| CliSchedules.Loadable | cmd/schedules.go:140-143 | the loop reaches exactly the leading schedules whose ID has a space; the next one panics at parts[1] |
| CliSchedules.LoadableUnique | cmd/schedules.go:139-143 | the number of schedules the loop gets through is fixed by the dump: all before it have a space in their ID and the one at it, if any, has none |
| CliSchedules.LoadRequests | cmd/schedules.go:139-171 | one creation request per schedule the loop gets through |
| CliSchedules.LoadRequestsAt | cmd/schedules.go:139-171 | the k-th request sent is the k-th schedule's, so requests go out in dump order |
| CliSchedules.LoadFailing | cmd/schedules.go:172-191 | at most one failure is reported per schedule |
| CliSchedules.LoadFailingSound | cmd/schedules.go:172-191 | only schedules whose creation request was not answered 200 are reported |
| CliSchedules.LoadFailingComplete | cmd/schedules.go:172-191 | every schedule whose creation request was not answered 200 is reported |
| CliSchedules.LoadSchedules | cmd/schedules.go:126-194 | an unreadable dump is returned as an error; otherwise the requests sent are exactly those of the schedules up to the first unsplittable ID, in order, the failures reported are exactly those of the schedules sent, and the command succeeds unless an ID panics |
| CliWorkflows.ComposedID | cmd/workflows.go:94 | the composed ID is the kind, one space and the id |
| CliWorkflows.ComposedIDRoundTrip | cmd/workflows.go:94-103 | splitting the composed ID on spaces gives back the kind and the id when neither has a space |
| CliWorkflows.WorkflowIDs | cmd/workflows.go:55-95 | with neither an id nor --all-ids the command fails; --all-ids takes the listing; otherwise the one composed ID |
| CliWorkflows.Splittable | cmd/workflows.go:99-103 | the loop reaches exactly the leading IDs that have a space; the next one panics at id_parts[1] |
| CliWorkflows.SplittableUnique | cmd/workflows.go:99-103 | the number of IDs the loop gets through is fixed by the IDs: all before it have a space and the one at it, if any, has none |
| CliWorkflows.MetadataPayload | cmd/workflows.go:100-104 | the payload carries the command's request kind and a space-free second part of the ID |
| CliWorkflows.Successes | cmd/workflows.go:98-131 | the success count never exceeds the number of IDs |
| CliWorkflows.SuccessesAll | cmd/workflows.go:130-135 | the count reaches the number of IDs iff every run answered 200 |
| CliWorkflows.RunEach | cmd/workflows.go:98-131 | the loop sends one metadata payload per ID in order until the first ID without a space, panics exactly when there is one, and otherwise counts the runs that answered 200 |
| CliWorkflows.RunMetadataWF | cmd/workflows.go:50-136 | one payload per ID in order; the command fails with "success count c / n" exactly when some run did not answer 200, and panics on an ID without a space |
| Kinds.SupportedRequestKinds | temporal/v19700101/activity.go:43-61 | fifteen supported request kinds, pairwise distinct and free of spaces |
| Kinds.SupportedCases | temporal/v19700101/activity.go:43-61 | a kind is supported iff it is one of the fifteen named kinds |
| ExternalRequests.PolledKindsSupported | server/external_requests.go:24-104 | the twelve kinds makeExternalRequest builds are exactly the supported kinds other than reddit.user and the two monitor kinds |
| ExternalRequests.FirstUserPastDec | server/external_requests.go:325-331 | the index found is the first row whose kind is twitch.user-past-dec, and none is found iff no row has that kind |
| ExternalRequests.LookupUserID | server/external_requests.go:317-334 | a query error is passed on; no rows is "no result rows"; otherwise the result is the Data.ID of the first twitch.user-past-dec row when that is non-empty, and "no user_id found in metadata" when there is no such row or its Data.ID is empty |
| ExternalRequests.TwitchUserID | server/external_requests.go:317-334 | the scan-and-break loop returns exactly the lookup's result |
| ExternalRequests.RequestFor | server/external_requests.go:24-104 | the unsupported-kind error is returned iff the kind is not one of the twelve polled kinds; the only other failure is a non-metadata twitch.user-past-dec whose user_id lookup failed |
| ExternalRequests.MetaMattersOnlyForTwitchStreamAndPastDec | server/external_requests.go:83-100 | the meta flag changes the request only for twitch.stream and twitch.user-past-dec |
| ExternalRequests.RedditFullnames | server/external_requests.go:202-214 | Reddit posts are looked up by id t3_<id> and comments by t1_<id> |
| ExternalRequests.RequestID | server/external_requests.go:122-127 | the schedule ID is "kind id metadata" for metadata requests and "kind id <hex digest>" otherwise |
| ExternalRequests.RequestIDRoundTrip | server/external_requests.go:122-127 | splitting a schedule ID on spaces gives exactly three parts: the kind, the id and the suffix |
| ExternalRequests.MakeExternalRequest | server/external_requests.go:20-129 | fails with errUnsupportedRequestKind iff the kind is not polled; on success the serial bytes are the request's serialisation and the ID carries the MD5 of exactly those bytes |
| ExternalRequests.Finish | server/external_requests.go:106-128 | a failed request is passed on; a built one is returned with its serialisation and the ID derived from its hash |
| Activity.Wrap64 | temporal/v19700101/reddit.go:65 | the int64 product wraps: the result is in int64 range, equals the value when it fits, and agrees with it modulo 2^64 |
| Activity.RefreshStep | temporal/v19700101/reddit.go:14-68 | a token with more than minDur left is kept with no request; any error keeps token and expiry; no error after a request means the answer was 200 (temporal/v19700101/twitch.go:14-62 is the same machine) |
| Activity.RefreshStores | temporal/v19700101/reddit.go:64-66 | a good answer stores access_token and now + expires_in seconds |
| Activity.RefreshThenShortCircuits | temporal/v19700101/reddit.go:24-26 | after a successful refresh, a second call at the same instant sends no request iff the granted lifetime exceeds minDur |
| Activity.HugeLifetimeWraps | temporal/v19700101/reddit.go:65-66 | an expires_in too large for int64 nanoseconds wraps to an expiry in the past, so the next call refreshes again |
| Activity.RedditTokenRequest | temporal/v19700101/reddit.go:29-40 | the Reddit token request is a POST to www.reddit.com with the password grant form (section 4.3 of RFC 6749) |
| Activity.TwitchTokenRequest | temporal/v19700101/twitch.go:26-30 | the Twitch token request is a POST with the client-credentials grant form (section 4.4 of RFC 6749) |
| Activity.SchemeOf | temporal/v19700101/activity.go:137-189 | prepareRequest has a credential scheme for a kind iff the kind is supported |
| Activity.RateLimitLabel | temporal/v19700101/activity.go:212-235 | rate-limit metrics go under "reddit-poller", "reddit-monitor" or "twitch" exactly for the Reddit poller, Reddit monitor and Twitch kinds, and none otherwise |
| Activity.Rebased | temporal/v19700101/activity.go:127-135 | the URL becomes https://Host with the stored path and query, RequestURI is cleared and Accept is application/json |
| Activity.ActivityRequester.constructor | temporal/v19700101/activity.go:76-109 | a new requester has no tokens and zero-time expiries |
| Activity.ActivityRequester.EnsureValidRedditToken | temporal/v19700101/reddit.go:14-68 | the Reddit fields follow the refresh step, the request is sent only when the token is stale, and the Twitch fields are untouched |
| Activity.ActivityRequester.EnsureValidTwitchToken | temporal/v19700101/twitch.go:14-62 | the Twitch fields follow the refresh step, the request is sent only when the token is stale, and the Reddit fields are untouched |
| Activity.Prepare | temporal/v19700101/activity.go:118-191 | a request comes back only when the stored request parsed and the kind is supported; a kind outside the Reddit poller kinds never touches the Reddit token fields, and one outside the Twitch kinds never touches the Twitch fields |
| Activity.PrepareSucceedsIff | temporal/v19700101/activity.go:118-191 | a request is prepared exactly when the stored request parses, the kind is supported, and the poller kinds get a Reddit token, the Twitch kinds a Twitch token and the monitor kinds a listener token; an unreadable request is "error deserializing request: " plus the parse error and an unknown kind "unsupported RequestKind " plus the kind |
| Activity.PollerCredentials | temporal/v19700101/activity.go:155-166 | with a good Reddit token, the rebased request carries User-Agent REDDIT_USER_AGENT and Authorization "bearer " plus the cached Reddit token, and no other header or query value changes |
| Activity.TwitchCredentials | temporal/v19700101/activity.go:180-186 | with a good Twitch token, the request carries Client-Id TWITCH_CLIENT_ID and Authorization "Bearer " plus the cached Twitch token, and nothing else changes |
| Activity.ListenerCredentials | temporal/v19700101/activity.go:167-179 | with a listener token, the request carries User-Agent REDDIT_LISTENER_USER_AGENT and Authorization "bearer " plus that token, and no token field changes |
| Activity.StaticCredentials | temporal/v19700101/activity.go:137-154 | internal requests carry "Bearer " plus AUTH_TOKEN, Kaggle requests basic auth of KAGGLE_USERNAME and KAGGLE_API_KEY, YouTube requests the part and key query values with no header added; no token field changes |
| Activity.ActivityRequester.PrepareRequest | temporal/v19700101/activity.go:118-191 | the request or error returned and all four token fields afterwards are exactly what Prepare gives from the fields before the call, the parsed stored request and the token endpoints' answers |
| Activity.ActivityRequester.DoRequest | temporal/v19700101/activity.go:193-244 | the token fields end as Prepare leaves them; the result is a success exactly when preparing, sending and reading the body all succeed, and then echoes the kind, the status and the body; otherwise it is the preparation error, "error doing request: " or "error reading response body: " with the cause; metrics are labelled by the kind's rate-limit label only on success |
| ListenerYouTube.WebSubForm | temporal/v19700101/listener_youtube.go:61-64 | the form has exactly hub.callback = endpoint + "/notification/youtube/websub", hub.mode = subscribe and hub.topic = the feed URL for the channel |
| ListenerYouTube.WebSubSub | temporal/v19700101/listener_youtube.go:60-87 | a subscription succeeds iff the hub answers 202 Accepted; a transport error is passed on |
| ListenerYouTube.Subscribe | temporal/v19700101/listener_youtube.go:45-58 | every channel is attempted; errIDs are the failing channels and the error, naming them all, is returned iff there are any |
| ListenerYouTube.FailingIDsExact | temporal/v19700101/listener_youtube.go:48-53 | a channel is reported iff it is in the input and its subscription fails |
| ListenerYouTube.FailingIDsSubsequence | temporal/v19700101/listener_youtube.go:48-53 | the reported channels keep the input order |
| ListenerYouTube.FailingIDsNone | temporal/v19700101/listener_youtube.go:48-57 | with every subscription accepted, nothing is reported |
| ListenerYouTube.FailingIDsAll | temporal/v19700101/listener_youtube.go:48-57 | with no subscription accepted, every channel is reported, in input order |
| BasicHandlers.WriteOK | server/handlers_basic.go:17-20 | 200 with message "ok" |
| BasicHandlers.WriteInternalError | server/handlers_basic.go:22-29 | 500 with the fixed error "internal error" |
| BasicHandlers.InternalErrorHidesCause | server/handlers_basic.go:22-29 | the response does not depend on the cause, which is only logged |
| BasicHandlers.WriteBadRequestError | server/handlers_basic.go:31-35 | 400 carrying the error text |
| BasicHandlers.WriteEmptyResultError | server/handlers_basic.go:37-41 | 404 with "empty result set" |
| BasicHandlers.IssueToken | server/handlers_basic.go:56-79 | missing Basic credentials give 400 "bad credentials", a wrong password 401 "not authorized", and 200 happens iff the password is the secret, with a token for the email valid two weeks |
| Middleware.BearerToken | server/middleware.go:87 | the token is the Authorization header with a leading "Bearer " removed if present, and the header itself otherwise |
| Middleware.BearerAuthorize | server/middleware.go:84-102 | a request is accepted iff its token is non-empty and parses; an accepted request carries the claims and a refused one is unchanged |
| Middleware.BearerKeepsOnRefusal | server/middleware.go:88-97 | the bearer authorizer leaves a refused request unchanged |
| Middleware.FirstAcceptingSome | server/middleware.go:109-115 | when refusals leave the request alone, the next handler is reached iff some authorizer accepts the request |
| Middleware.AtLeastOneAuth | server/middleware.go:106-120 | the next handler gets the request as the first accepting authorizer left it; otherwise 401 "unauthorized" is written, always so with no authorizers |
| Middleware.CounterCodesDistinct | server/middleware.go:128-130 | two different status codes never share a counter label |
| Middleware.RequestCounter.constructor | server/server.go:51-57 | a new counter vector holds no counts |
| Middleware.RequestCounter.Serve | server/middleware.go:123-133 | the handler's response is passed through, and exactly the counter for "method url" and the status code rises by one |
| Server.GetDefaultPromMetrics | server/server.go:42-59 | the defaults have exactly the two keys: a gauge vector labelled by id and a counter vector labelled by name and code |
| Server.RequestCounter | server/server.go:136-139 | the router is built iff the request counter key holds a counter vector; otherwise the error names the metric |
| Server.DefaultMetricsBuildRouter | server/server.go:136-139 | the default metrics pass the router's check, whatever other metrics are merged under them |
| Server.NormalizeCORSParams | server/server.go:124-130 | the in-place loop yields the comma-separated pieces with their spaces removed: one more piece than there are commas, none holding a space, and [""] for an unset variable |
| Server.CORSParamsOfList | server/server.go:124-130 | a list written with spaces around its commas gives back its items without their spaces |
| Server.CORSParamsCommaFree | server/server.go:124-130 | no normalised piece holds a comma |
| ServerSchedule.HandleGetSchedule | server/handlers_schedule.go:22-43 | a listing error is answered 400; otherwise 200 with the entries collected in iterator order up to exhaustion or the first error |
| ServerSchedule.VideoRequest | server/handlers_schedule.go:80-91 | the upstream video request carries exactly the part, key and id query values and the Bearer key and JSON Accept headers |
| ServerSchedule.EveryFiveSecondsValues | server/handlers_schedule.go:123-132 | the created schedule fires at seconds 0, 5, ..., 55 of every minute of every hour |
| ServerSchedule.HandleCreateSchedule | server/handlers_schedule.go:60-153 | an unreadable body is 400; a schedule is created iff the body parses with kind youtube.video, and any other kind is 400 "unsupported ScheduleKind"; the schedule ID is the request URL, a space and the hex MD5 of the serialised request, and the workflow ID is the URL; already-running and service errors are 400, other create errors 500 |
| ServerSchedule.CreateScheduleIDSplits | server/handlers_schedule.go:115-116 | the schedule ID splits back into the request URL and the hash |
| ServerSchedule.HandleUpdateSchedule | server/handlers_schedule.go:219-235 | a pause is requested iff action=cancel, for the given schedule_id and note; any other action is 400 "unsupported action"; a pause error is 400 |
| ServerMetadata.HandleRunMetadataWF | server/handlers_metadata.go:20-67 | unreadable or unparseable bodies and unsupported kinds are 400 (the last naming the kind); a workflow is started exactly when the body reads and parses and the kind is polled, with the ID, kind and serialised request that makeExternalRequest builds in metadata mode, the ID being "kind id metadata"; a start error is 500; 200 only after a start |
| ServerMetadata.ChildOf | server/handlers_metadata.go:101-115 | only reddit.user, reddit.subreddit and youtube.channel have children: posts by parent_user_name, posts by parent_subreddit, videos by parent_channel_id |
| ServerMetadata.HandleGetChildrenMetadata | server/handlers_metadata.go:92-137 | a missing request_kind or id is 400; a query is issued iff the kind has children, with the id, the parent kind and the child kind; a query error is 500, no rows 404, otherwise 200 with the rows |
| ServerMetadata.ChildrenKinds | server/handlers_metadata.go:102-115 | parent and child kinds are supported kinds, and only YouTube channels have videos as children |
| ServerMetadata.HandleAddListenerSub | server/handlers_metadata.go:162-183 | a bad body is 400; a channel is stored iff the kind is youtube.channel, any other kind is 400; an insert error is 500 |
| TimeSeries.BucketOf | server/handlers_timeseries.go:36-100 | only "", 15m, 60m, 1h, 8h and 1d are accepted; "", "60m" and "1h" all select the hour bucket |
| TimeSeries.IdsOf | server/handlers_timeseries.go:40-44 | the ids are the repeated id parameters, or else the comma pieces of ids, and there is always at least one, so the check at lines 45-48 never fires |
| TimeSeries.IdsOfCommaList | server/handlers_timeseries.go:40-44 | a comma-joined ids list of comma-free ids is read back exactly |
| TimeSeries.Bucketed | server/handlers_timeseries.go:34-114 | an unknown bucket_size is 400 with no query; otherwise one query over the table, the bucket, the ids and the window up to now; a query error is 500, every successful query is 200 with its rows, none included |
| TimeSeries.BucketedEmptyIsOK | server/handlers_timeseries.go:52-114 | a query that returns no rows is answered 200 with an empty body, never the 404 "empty result set", since the nil check on the interface value never fires |
| TimeSeries.HourAliases | server/handlers_timeseries.go:36-39 | an empty, "60m" or "1h" bucket_size gives the same query and the same answer |
| TimeSeries.BucketedSameQuery | server/handlers_timeseries.go:34-114 | what a bucketed handler does depends on the request only through the bucket it resolves to and the ids |
| TimeSeries.BucketedSeriesOf | server/handlers_timeseries.go:19-30 | only youtube.video and youtube.channel are dispatched, to their own tables |
| TimeSeries.HandleGetTimeSeriesByIDsBucketed | server/handlers_timeseries.go:17-32 | any other request kind is 400 "unsupported request kind" with no query; a query goes only to a YouTube table |
| TimeSeries.BucketedEndpointOnlyYouTube | server/handlers_timeseries.go:19-30 | no request to the bucketed endpoint reaches a Reddit or Twitch table |
| TimeSeries.WindowStart | server/handlers_timeseries.go:211-220 | without dur the window starts at the zero time; otherwise at now minus the parsed duration, and an unparseable dur is an error |
| TimeSeries.HandleGetTimeSeriesByIDs | server/handlers_timeseries.go:201-270 | a missing request_kind or id is 400; a query is issued iff dur parses and the kind is one of the six raw kinds, over exactly the given ids and window; a query error is 500; every refusal is 400 |
| TimeSeries.RawRejectsOtherKinds | server/handlers_timeseries.go:262-264 | once the other parameters are well formed, a kind outside the six is 400 "unexpected RequestKind" |
| TimeSeriesReddit.HandleGetRedditPostTimeSeriesByIDsBucketed | server/handlers_timeseries_bucketed_reddit.go:15-93 | queries only the Reddit post table, and an empty bucket_size means hourly buckets over the ids up to now |
| TimeSeriesReddit.HandleGetRedditCommentTimeSeriesByIDsBucketed | server/handlers_timeseries_bucketed_reddit.go:95-173 | queries only the Reddit comment table; empty bucket_size means hourly buckets |
| TimeSeriesReddit.HandleGetRedditSubredditTimeSeriesByIDsBucketed | server/handlers_timeseries_bucketed_reddit.go:175-253 | queries only the subreddit table; empty bucket_size means hourly buckets |
| TimeSeriesReddit.HandleGetRedditUserTimeSeriesByIDsBucketed | server/handlers_timeseries_bucketed_reddit.go:255-335 | queries only the Reddit user table; empty bucket_size means hourly buckets |
| TimeSeriesTwitch.HandleGetTwitchClipTimeSeriesByIDsBucketed | server/handlers_timeseries_bucketed_twitch.go:15-93 | queries only the Twitch clip table; empty bucket_size means hourly buckets |
| TimeSeriesTwitch.HandleGetTwitchVideoTimeSeriesByIDsBucketed | server/handlers_timeseries_bucketed_twitch.go:95-173 | queries only the Twitch video table; empty bucket_size means hourly buckets |
| TimeSeriesTwitch.HandleGetTwitchStreamTimeSeriesByIDsBucketed | server/handlers_timeseries_bucketed_twitch.go:175-253 | queries only the Twitch stream table; empty bucket_size means hourly buckets |
| TimeSeriesTwitch.HandleGetTwitchUserPastDecTimeSeriesByIDsBucketed | server/handlers_timeseries_bucketed_twitch.go:255-333 | queries only the past-broadcast table; empty bucket_size means hourly buckets |
| TimeSeriesYouTube.HandleGetYouTubeVideoTimeSeriesByIDsBucketed | server/handlers_timeseries_bucketed_youtube.go:15-93 | queries only the YouTube video table; empty bucket_size means hourly buckets |
| TimeSeriesYouTube.HandleGetYouTubeChannelTimeSeriesByIDsBucketed | server/handlers_timeseries_bucketed_youtube.go:95-173 | queries only the YouTube channel table; empty bucket_size means hourly buckets |
| Json.SearchAppend | temporal/v19700101/handlers_metadata.go:57 | a JMESPath search of a longer path is the search of its prefix continued from there |
| Json.SearchNest | temporal/v19700101/handlers_metadata.go:57 | a search finds what was placed at its path in the smallest document holding it |
| Json.Decode | temporal/v19700101/handlers_metadata.go:53-55 | a body decodes iff unmarshalling succeeds, and the error is the decoder's after the handler's prefix |
| Json.StrAt | temporal/v19700101/handlers_metadata.go:57-64 | a string field is read iff the search finds a string; a null (absent) field is the handler's nil error; any other type panics at the type assertion |
| Json.NumAt | temporal/v19700101/handlers_metadata.go:57-64 | a number field is read iff the search finds a number; null is the nil error; any other type panics |
| Json.BoolAt | temporal/v19700101/handlers_metadata.go:57-64 | a flag is read iff the search finds a boolean; null is the nil error; any other type panics |
| Json.OptStrAt | temporal/v19700101/handlers_metadata.go:329-337 | an optional string field is "" when null and the string when present; only a value of another type panics |
| MetadataHandlers.NsfwTags | temporal/v19700101/handlers_metadata.go:361-365 | the tags hold "NSFW" iff the over-18 flag is set, and nothing else |
| MetadataHandlers.HandleInternalRandomMetadata | temporal/v19700101/handlers_metadata.go:51-80 | succeeds iff the body decodes and id is a string; the id names the record and its label and is linked under /internal/metrics; errors are plain, so they are retried |
| MetadataHandlers.KaggleMetadata | temporal/v19700101/handlers_metadata.go:83-145 | succeeds iff [0].ref is a string, which names the record and its label and is linked under the given base; errors are not retried |
| MetadataHandlers.HandleKaggleNotebookMetadata | temporal/v19700101/handlers_metadata.go:83-112 | notebooks are linked under https://www.kaggle.com/code/ |
| MetadataHandlers.HandleKaggleDatasetMetadata | temporal/v19700101/handlers_metadata.go:115-145 | datasets are linked under https://www.kaggle.com/datasets/ |
| MetadataHandlers.HandleYouTubeVideoMetadata | temporal/v19700101/handlers_metadata.go:148-224 | a video record carries the id, title, RFC 3339 publication time, channel id and title and the watch?v= link; the publication time is that of the publishedAt text, and a publishedAt that does not parse is the no-retry "error parsing publishedAt" error |
| MetadataHandlers.HandleYouTubeChannelMetadata | temporal/v19700101/handlers_metadata.go:227-267 | succeeds iff id and title are strings; the channel is linked under /channel/ |
| MetadataHandlers.HandleRedditPostMetadata | temporal/v19700101/handlers_metadata.go:270-388 | a nil id is the no-retry nil error; the record carries id, title, created time, author, subreddit, the reddit.com permalink link, NSFW tags from over_18, and the optional author_fullname |
| MetadataHandlers.PermalinkSegment | temporal/v19700101/handlers_metadata.go:440 | piece i of the permalink split on "/" exists iff there are more than i pieces, and holds no "/" |
| MetadataHandlers.CommentPermalinkPieces | temporal/v19700101/handlers_metadata.go:440 | a comment permalink /r/sub/comments/post/slug/comment/ splits into exactly eight pieces |
| MetadataHandlers.ParentPostTitleAsWritten | temporal/v19700101/handlers_metadata.go:440 | as written, ParentPostTitle is piece 4 and needs at least five pieces |
| MetadataHandlers.ParentPostTitleAsWrittenIsPostID | temporal/v19700101/handlers_metadata.go:440 | on a well-formed comment permalink, piece 4 is the post id, not its title |
| MetadataHandlers.ParentPostTitle | temporal/v19700101/handlers_metadata.go:440 | the corrected ParentPostTitle is piece 5 and needs at least six pieces |
| MetadataHandlers.ParentPostTitleIsSlug | temporal/v19700101/handlers_metadata.go:440 | on a well-formed comment permalink, piece 5 is the post-title slug |
| MetadataHandlers.HandleRedditCommentMetadata | temporal/v19700101/handlers_metadata.go:391-507 | every failure is not retried; a record is built only when the corrected ParentPostTitle finds the slug piece, and it is the comment record of the fields found at data.children[0].data |
| MetadataHandlers.CommentAuthorAndText | temporal/v19700101/handlers_metadata.go:442-504 | after the post fields, author, author_fullname, body and subreddit are read in that order; failures are not retried and a missing author_fullname leaves the parent user ID empty |
| MetadataHandlers.CommentData | temporal/v19700101/handlers_metadata.go:486-504 | the comment record holds the id, the label "Comment <id> by /u/<author>", the creation time, the author's name and fullname, the parent post's id and title, the subreddit, the body and the permalink link, and no tags |
| MetadataHandlers.HandleSubredditMetadata | temporal/v19700101/handlers_metadata.go:510-610 | succeeds iff display_name is a string and over18 a boolean; the subreddit is linked under /r/ and tagged NSFW from over18 (both the subreddit and the monitor handler) |
| MetadataHandlers.HandleRedditUserMetadata | temporal/v19700101/handlers_metadata.go:613-781 | the user name keys the record, UserID is "t2_" + id, the link is under /user/, created time, profile description and NSFW tags come from the profile subreddit (both the user and the monitor handler) |
| MetadataHandlers.HandleTwitchClipMetadata | temporal/v19700101/handlers_metadata.go:784-879 | the clip's own url is its link; title, broadcaster, creator (as owner), game and duration are carried |
| MetadataHandlers.HandleTwitchVideoMetadata | temporal/v19700101/handlers_metadata.go:882-944 | the video's url is its link and its uploader the owner |
| MetadataHandlers.HandleTwitchUserMetadata | temporal/v19700101/handlers_metadata.go:947-1061 | succeeds iff id, login and display_name are strings; the login keys the record and is its owner, the link is https://twitch.tv/<login>, the label is the display name (stream and user-past-dec alike) |
| MetadataHandlers.UploadMetadata | temporal/v19700101/activity.go:247-283 | every supported kind has a handler whose record carries that kind; other kinds are a plain "unrecognized RequestKind" error; every handler error except internal.random's is not retried |
| MetadataHandlers.SearchListing | temporal/v19700101/handlers_metadata.go:316 | every data.children[0].data path finds the listed field, or null |
| MetadataHandlers.RedditPostRoundTrip | temporal/v19700101/handlers_metadata.go:270-388 | a post listing with all required fields yields exactly the post's record; without author_fullname the record is still built, with an empty ParentUserID |
| MetadataHandlers.RedditCommentRoundTrip | temporal/v19700101/handlers_metadata.go:391-507 | a comment listing with a well-formed permalink yields exactly the comment's record, with the post-title slug as ParentPostTitle |
| MetadataHandlers.CommentFromFields | temporal/v19700101/handlers_metadata.go:391-507 | the comment handler on a document with known fields builds exactly the record of those fields |
| MetadataHandlers.PostFromFields | temporal/v19700101/handlers_metadata.go:270-388 | the post handler on a document with known fields builds exactly the record of those fields, with ParentUserID empty when author_fullname is absent |
| MetadataHandlers.TwitchUserRoundTrip | temporal/v19700101/handlers_metadata.go:947-1003 | a Twitch user lookup yields the login-keyed record with its twitch.tv link |
| MetadataHandlers.RedditUserRoundTrip | temporal/v19700101/handlers_metadata.go:613-695 | a Reddit user lookup yields the name-keyed record with UserID "t2_" + id |
| MetadataHandlers.YouTubeBadTimestampRejected | temporal/v19700101/handlers_metadata.go:182-185 | a video whose publishedAt does not parse is rejected with a no-retry error |
| MetricsHandlers.LengthOf | temporal/v19700101/handlers_metrics.go:59 | JMESPath length() is defined exactly on strings, arrays and objects, and of an array is its number of items |
| MetricsHandlers.Selected | temporal/v19700101/handlers_metrics.go:82-115 | a post is skipped exactly when its stickied and pinned flags are present, stickied is true and pinned is not; a non-boolean flag counts as false; a scheduled id is the post's id string; nil fields are plain (retried) errors |
| MetricsHandlers.PostPayload | temporal/v19700101/handlers_metrics.go:116-121 | a followed post is scheduled as reddit.post under its own id with the default schedule spec |
| MetricsHandlers.ScheduleError | temporal/v19700101/handlers_metrics.go:143-153 | a schedule request succeeds exactly when it is answered 200 or 409 |
| MetricsHandlers.MonitorRun | temporal/v19700101/handlers_metrics.go:74-156 | the posts are worked one after another: at most one request and at most one error per post |
| MetricsHandlers.MonitorPanicStays | temporal/v19700101/handlers_metrics.go:115 | once a post's id type assertion panics, no later post changes anything |
| MetricsHandlers.MonitorSentAreSelected | temporal/v19700101/handlers_metrics.go:106-121 | every schedule request sent is the default reddit.post request of a post the selection rule follows |
| MetricsHandlers.MonitorSendsEverySelected | temporal/v19700101/handlers_metrics.go:106-141 | when nothing panics, every post the selection rule follows is sent a schedule request |
| MetricsHandlers.MonitorErrorsIffSomeFails | temporal/v19700101/handlers_metrics.go:74-156 | when nothing panics, the run has errors exactly when some post's decision or schedule request fails |
| MetricsHandlers.UploadPost | temporal/v19700101/handlers_metrics.go:76-153 | one post: a panicking decision stops the run with nothing added; otherwise the post adds its default request when followed and its decision's or request's error, if any |
| MetricsHandlers.UploadPosts | temporal/v19700101/handlers_metrics.go:74-156 | working the posts one at a time, the requests sent, the errors and the panic are exactly those of the sequential run over the listing's decisions |
| MetricsHandlers.UploadMonitorPosts | temporal/v19700101/handlers_metrics.go:52-156 | an undecodable body or a post count that cannot be taken sends nothing and is the matching error; otherwise the requests and errors are those of the sequential run, and the outcome is the panic, success when no post failed, or the first failure |
| MetricsHandlers.MonitorSelectionRule | temporal/v19700101/handlers_metrics.go:106-108 | a stickied, unpinned post is skipped; every other post with an id is followed |
| MetricsHandlers.MonitorNonBoolStickiedFollowed | temporal/v19700101/handlers_metrics.go:89-93 | a stickied flag that is not a boolean counts as false, so the post is followed |
| MetricsHandlers.HandleMonitorMetrics | temporal/v19700101/handlers_metrics.go:618-631 | the subreddit and user monitors send exactly the schedule requests of the monitor run over the listing; they answer "ok" exactly when the run ends with no error and no panic, wrap an unreadable body, a bad post count or the first error of the run in their own prefix, pass a panic through, and leave every error retryable |
| MetricsHandlers.CountAt | temporal/v19700101/handlers_metrics.go:215-262 | a decimal count is read exactly when the field is a string that parses as a 64-bit decimal, and to that value; a non-numeric string is the parse error |
| MetricsHandlers.CountAtReadsDecimal | temporal/v19700101/handlers_metrics.go:222 | every 64-bit count written in decimal is read back exactly |
| MetricsHandlers.CountAtRejectsNonDigits | temporal/v19700101/handlers_metrics.go:222-225 | a count with a non-digit after its first character is the parse error |
| MetricsHandlers.HandleYouTubeVideoMetrics | temporal/v19700101/handlers_metrics.go:197-271 | a result carries the id and the views, comments and likes the response's decimal statistics spell |
| MetricsHandlers.HandleYouTubeChannelMetrics | temporal/v19700101/handlers_metrics.go:273-347 | a result carries the id and the views, subscribers and videos the response's decimal statistics spell |
| MetricsHandlers.YouTubeVideoCountsRoundTrip | temporal/v19700101/handlers_metrics.go:197-271 | a video listing with 64-bit decimal counts yields exactly those counts |
| MetricsHandlers.HandleTwitchStreamMetrics | temporal/v19700101/handlers_metrics.go:809-860 | an empty stream list is "ok" with nothing uploaded, and only a zero-length list is; otherwise the result is the first stream's login and viewer count |
| MetricsHandlers.WholeSeconds | temporal/v19700101/handlers_metrics.go:885 | d/time.Second truncates toward zero on negative durations as well |
| MetricsHandlers.FirstBadDuration | temporal/v19700101/handlers_metrics.go:879-886 | the index found is of a duration that does not parse, with every earlier one parsing; none found means every duration parses |
| MetricsHandlers.PastDecSampleOf | temporal/v19700101/handlers_metrics.go:863-900 | an undecodable body and the first unparsable duration are the matching errors; an empty list panics; otherwise the sample holds the first login and every view count and whole-second duration, in order |
| MetricsHandlers.FirstBadDurationPrefix | temporal/v19700101/handlers_metrics.go:879-886 | a bad duration after a prefix of good ones is the first bad duration of the list |
| MetricsHandlers.FirstBadDurationExtends | temporal/v19700101/handlers_metrics.go:879-886 | the first bad duration of a prefix is the first bad duration of the whole list |
| MetricsHandlers.UploadMetricsRoute | temporal/v19700101/activity.go:285-322 | every supported kind has a handler; any other kind is the "unrecognized RequestKind" error; exactly the two monitor kinds schedule posts |
| WebSub.LineRun | server/handlers_notifications.go:187 | the run found is the longest stretch from the start position with no newline: it ends at a newline or at the end of the text |
| WebSub.LongestClose | server/handlers_notifications.go:187 | the capture length found is the largest in range after which the closing tag follows; none found means the tag follows none |
| WebSub.MatchAtSound | server/handlers_notifications.go:187-189 | what is captured at a position is a match of the video-ID pattern there |
| WebSub.MatchAtLongest | server/handlers_notifications.go:187-189 | every match at a position is found, with a capture at least as long |
| WebSub.NoCloseOverNewline | server/handlers_notifications.go:187 | a closing tag cannot straddle a newline or run past the end, since the capture may not span lines |
| WebSub.MatchAtGreedy | server/handlers_notifications.go:187-189 | the capture at a position is the greedy one: it matches, no match there is longer, and when none is found none exists |
| WebSub.FindFromLeftmost | server/handlers_notifications.go:189 | the match found is the leftmost at or after the start, read greedily; none found means none exists |
| WebSub.VideoIDSpec | server/handlers_notifications.go:187-195 | the video ID is the greedy capture of the leftmost match, and there is none exactly when the pattern matches nowhere |
| WebSub.FeedLineMatches | server/handlers_notifications.go:187 | the tagged ID of a feed line matches where its opening tag starts |
| WebSub.FeedLineNoEarlier | server/handlers_notifications.go:187 | no match starts before the opening tag of a feed line |
| WebSub.FeedLineNoLonger | server/handlers_notifications.go:187 | no capture at a feed line's tag is longer than its ID |
| WebSub.SameSpanSameCapture | server/handlers_notifications.go:187 | two captures of the same length at the same position are the same text |
| WebSub.VideoIDOfLeftmostGreedy | server/handlers_notifications.go:187-195 | a leftmost greedy match is the video ID, so that reading is unique |
| WebSub.VideoIDOfFeedLine | server/handlers_notifications.go:187-195 | a notification whose video ID sits alone on its line yields exactly that ID |
| WebSub.TwoIDsOnOneLine | server/handlers_notifications.go:187 | two tagged IDs on one line are read as one ID running from the first opening tag to the last closing tag |
| WebSub.WebSubSetup | server/handlers_notifications.go:152-175 | the hub's challenge is echoed with 200 exactly for a subscribed channel; a topic that does not parse or an unknown channel is 404, a database error 500 |
| WebSub.FollowPayload | server/handlers_notifications.go:72-78 | a followed video or post gets the default schedule of its kind and id, ending the follow period after now |
| WebSub.ScheduleRequest | server/handlers_notifications.go:88-96 | the request is a POST to the service's own /schedule on localhost:SERVER_PORT with the bearer token |
| WebSub.ScheduleReply | server/handlers_notifications.go:104-116 | the notification is answered 200 exactly when /schedule answers 200 or 409, and 500 otherwise |
| Notifications.HandleRedditPostNotification | server/handlers_notifications.go:63-117 | a body that does not decode is 400 with no request; otherwise exactly one schedule request follows the post as reddit.post for one week, and the answer is /schedule's |
| Notifications.HandleYouTubeNotification | server/handlers_notifications.go:178-238 | a body that cannot be read or holds no video ID is 500 with no request; otherwise exactly one request follows the video for three weeks, and the answer is /schedule's |
| Notifications.YouTubeNotificationSchedulesFeedVideo | server/handlers_notifications.go:178-238 | a notification with its video ID on its own line schedules that video, answered 200 exactly when /schedule answers 200 or 409 |
| YouTubeRss.VideoNotificationHandler.constructor | server/handlers_youtube_rss.go:84 | a fresh handler has seen no video |
| YouTubeRss.VideoNotificationHandler.Handle | server/handlers_youtube_rss.go:83-156 | the seen set only grows and gains exactly the notified ID; a seen ID is answered 200 with no request; a new ID is remembered before it is scheduled and is scheduled exactly as in the stateless handler; a request is only ever made for an ID not seen before |
| Dashboard.Prop | server/static/js/d3.js:31 | a property read is a TypeError exactly on null and undefined, and of an object is its field (undefined when missing) |
| Dashboard.FilterLinkKarma | server/static/js/d3.js:29-32 | the filter is a TypeError or succeeds; it keeps nothing of an empty array |
| Dashboard.FilterLinkKarmaFails | server/static/js/d3.js:29-32 | the filter fails exactly when some record is null or undefined |
| Dashboard.FilterLinkKarmaExact | server/static/js/d3.js:29-32 | the records kept are exactly the objects whose metric is the link-karma string, and no more than were given |
| Dashboard.FilterLinkKarmaAppend | server/static/js/d3.js:29-32 | the filter keeps order: filtering a concatenation concatenates the filtered parts |
| Dashboard.ParseBucket | server/static/js/d3.js:34 | the update replaces the bucket with its parsed date (null when it does not parse) and changes no other field |
| Dashboard.ParsedKarma | server/static/js/d3.js:33-36 | every kept record, in order, has its bucket replaced |
| Dashboard.ParseBuckets | server/static/js/d3.js:33-36 | updating the kept records in place leaves each with its bucket parsed and nothing else changed |
| Dashboard.PostOf | server/static/js/d3.js:38-44 | a post is a TypeError exactly when it or its data is null or undefined |
| Dashboard.PostsOf | server/static/js/d3.js:38-44 | the posts map yields one reshaped post per post, in order, and fails exactly when some post does |
| Dashboard.PostOfFields | server/static/js/d3.js:39-43 | a post whose data has the three fields comes out with the parsed creation date, the title and the link, and nothing else |
| Dashboard.DashboardQuery | server/static/js/d3.js:7-10 | both requests ask for request_kind reddit.user and the page's id, and nothing else |
| Dashboard.FetchAPI | server/static/js/d3.js:3-91 | the karma fetch comes first and the posts fetch only after it succeeds, with the stored token (or "null"); the plot of the parsed link-karma records and the reshaped posts is appended, and the loading indicator toggled, exactly when both fetches, the filter and the post map succeed |
| Dashboard.DashboardKarmaQueryUnsupported | server/static/js/d3.js:5-16 | the bucketed endpoint answers the dashboard's karma request with 400 and runs no query, since it does not serve reddit.user |
| Dashboard.DashboardPostsQuery | server/static/js/d3.js:17-28 | the posts request asks the children endpoint for the reddit.post children of the reddit.user id |

## Left out

- HTTP, database and Temporal plumbing are left out: sending requests, SQL queries, workflow and schedule clients, and the route table. Their results are parameters of the model.
- `uploadMetrics` and `uploadMetadata` are not modelled. These are the POSTs of the worker's handlers (temporal/v19700101/handlers_metrics.go:23-50, temporal/v19700101/handlers_metadata.go:21-48). A handler's result is the payload it would upload.
- The errgroup in `uploadMonitorPosts` is not modelled. Posts are worked one after another, and the error returned is the first in post order. With goroutines, the first error to finish would win.
- The statistics of `handleTwitchUserPastDecMetrics` are not computed. These are the mean, median and standard deviation (gonum), plus the float and `math.Round` conversions elsewhere. The model stops at the sample they are computed from.
- MetricsHandlers.PastDecSampleOf: the panic on an empty list is an outcome without Go's text.
- MetricsHandlers.LengthOf: the JMESPath library's own error texts are not modelled. One fixed text stands for them.
- Json.NumAt: numbers are whole numbers, so a fractional JSON number and its rounding are not modelled.
- `json.Marshal` failures are not modelled. They cannot occur for the payload types involved.
- `io.ReadAll` failures on response bodies are not modelled, except in Activity.ActivityRequester.DoRequest and CliSchedules.DumpSchedules, where the body is a result.
- An `http.NewRequest` that fails because an ID makes the URL unparsable is not modelled.
- Activity.ActivityRequester.PrepareRequest: re-parsing "https://" + host + request URI is taken to succeed, because the request was already parsed from that text.
- Activity.ActivityRequester.PrepareRequest: `ensureValidRedditListenerToken` is not part of this model. Its outcome is an input.
- Activity.ActivityRequester.DoRequest: the network call is the `send` parameter, whose answer is the status and the body or the error reading it. The parsing of rate-limit headers into Prometheus gauges is not modelled; only the label they are recorded under is.
- The status parameter that every `handle*Metrics` and `handle*Metadata` handler receives is unused by them, and is not modelled.
- `handleGetMetricMetadata`, `handlePostMetricMetadata`, `GetYouTubeChannelTargets` and the deprecated create-schedule, cancel and trigger handlers are not modelled. They forward to queries or Temporal calls with no rule of their own.
- ServerMetadata.HandleGetChildrenMetadata: the query is modelled by its id and kinds. The owner column it filters on is left to the database.
- The server's GET/POST metric handlers and user handlers are not modelled. Each decodes a payload and forwards fields to SQL inserts.
- Templates, Plotly figures and Observable Plot rendering are left out. So is the passthrough plot.js. server/static/js/d3.js:46-90 only configures the chart.
- Dashboard.FetchAPI: URLSearchParams encoding is not modelled. The query is kept as key–value pairs.
- Dashboard.FetchAPI: JavaScript object aliasing is not modelled beyond the in-place bucket update. Records are values otherwise.
- WebSub.FollowPayload: times are whole Unix seconds, so the sub-second part of `time.Now()` is dropped.
- The WebSub setup handler exists twice, in server/handlers_notifications.go:152-175 and server/handlers_youtube_rss.go:58-80. The two copies have the same body, so `WebSub.WebSubSetup` models both.
- `GetDefaultScheduleSpec` is called unqualified in server/handlers_youtube_rss.go and temporal/v19700101/handlers_metrics.go. No such definition exists in those packages, so it is taken to be the one in server/api/reqres.go:9-22.
- Days are UTC days: time zones and daylight saving are not modelled.
- YouTubeRss.VideoNotificationHandler.Handle: the model is sequential. In the server, the `sync.Map` Load (server/handlers_youtube_rss.go:107) and the later Store (line 111) are separate steps. Two concurrent notifications of the same new video can both pass the Load, so both schedule it.
- Text.ToLower: only ASCII letters are lowered, where Go's `strings.ToLower` maps all of Unicode. For CliConfirm.Confirm this changes no answer. No non-ASCII character lowers to 'y', 'e' or 's', so a typed answer is a yes under one mapping exactly when it is under the other.
- CliSchedules.DumpSchedules: building the GET with the bearer token is not modelled. The exchange is the `reply` input and the file write is the `write` parameter.
- Logging is not modelled.
- `Http` models net/http only as far as the modelled code uses it: requests, header and query maps, and basic auth.
- JWT signing and parsing are a parameter of the model.
- The graw-based Reddit listeners and their goroutines are not modelled.
- temporal/v19700101/metrics_handlers.go is not part of this model. It is an older copy of the handlers in handlers_metrics.go.

## Findings

| source | as written | input that shows it | evidently intended | confidence | as-written member | corrected member |
|---|---|---|---|---|---|---|
| server/handlers_html.go:199-201 | the timeline slices every trace with `xs[0:10]`, which needs a capacity of at least 10 | a schedule that runs once a day has 3 run times in the three-day window. Slicing the 3-element slice to 10 panics. With 9 run times, the slice gains a zero-valued tenth point | keep at most the first ten points | not executed | PlotHandlers.FirstTenAsWrittenCases, PlotHandlers.TimelinePanicsForDailySchedule | PlotHandlers.FirstAtMostTen, PlotHandlers.TimelineTraceOf |
| temporal/v19700101/handlers_metadata.go:440 | a comment's parent post title is taken as piece 4 of the permalink split on "/" | the permalink "/r/sub/comments/abc123/some_title/def456/" gives "abc123", the post id | piece 5, the post-title slug ("some_title") | not executed | MetadataHandlers.ParentPostTitleAsWritten, MetadataHandlers.ParentPostTitleAsWrittenIsPostID | MetadataHandlers.ParentPostTitle, MetadataHandlers.ParentPostTitleIsSlug |
