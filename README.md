# Clippie 5000 clip pipeline — a Dafny model

Clippie 5000 is a web application that cuts short vertical clips out of uploaded videos. It can transcribe a clip and burn subtitles into it, and it meters usage against subscription plans. This project models its decision, formatting and bookkeeping logic in Dafny and proves properties of that model:

- **SRT subtitle builder** (`Subtitles`). A transcript is split into lines of seven words. Each line gets a three-second window clamped to the clip, and the numbered SRT blocks are built with two loops (`BuildLines`, `BuildSrt`). `FormatSrtTime` renders `HH:MM:SS,mmm`.
- **Video service** (`VideoService`):
  - the resolution table with its 720p fallback;
  - the subtitle position mapping;
  - storage keys derived by cutting the first `<bucket>/` out of a reference;
  - the temporary files of `extractClip`, `generateSubtitles` and `burnSubtitles`, modelled as a `TempDir` object whose set of paths the operations update.
- **Clip admission** (`ClipsRoute`). Plan derivation from the price id, the 60-second ceiling, the minutes quota and the watermark. `PostClip` creates the `processing` clip row.
- **Clip processing** (`VideoProcessing`). The `extractClip` action moves a clip row from `processing` to `ready` or `error`, and charges the session user's minutes.
- **Plans and subscriptions** (`Plans`, `Subscription`):
  - the plan table and `getPlanFromStripeId`;
  - remaining minutes and the used-minutes percentage;
  - the one-day grace period;
  - find-or-create of the subscription row.
- **Small stores**:
  - the per-user API counter (`ApiLimit.ApiLimitTable`);
  - the bounded, newest-first list of recent client errors (`ErrorMonitoring.ErrorStore`).
- **Error utilities** (`ErrorUtils`). Log records, JSON error responses, user-facing notification texts and the route wrapper.
- **Clock formatters** (`Utils`). `formatTime` (`m:ss`) and `formatLongTime` (`h:mm:ss`).

Helper modules:

- `Wrappers`: `Option` and `Result`.
- `Text`: JavaScript string operations such as `String(n)`, `padStart`, `split`, `join`, `trim().split(/\s+/)`, `includes` and `replace` with a literal pattern.
- `JsMath`: `Math.floor`, `Math.ceil` and `%` on integers. JavaScript's `%` truncates, while Dafny's is Euclidean.
- `Store`: the database tables as maps inside a `Database` object.

Some things are inputs to the model:

- The session's user id is an `Option<string>`. "Present" means JavaScript-truthy: set and not empty.
- The clock is a number of milliseconds.
- Storage, transcoder, transcription and HTTP calls are replaced by the outcome they report.
- Identifiers the database or `uuidv4()` would generate are passed in.

Times in the clip pipeline are integer milliseconds:

- The 60-second ceiling is 60000 ms.
- `Math.ceil(duration / 60)` is `CeilDiv(durationMs, 60000)`.
- SRT times are integer milliseconds.

The clock formatters of lib/utils.ts work on integer seconds.

## Model

| member | source | states |
|---|---|---|
| JsMath.FloorDiv | lib/utils.ts:20 | `Math.floor(a / b)` for a positive divisor: the quotient `q` with `b*q <= a < b*q + b` |
| JsMath.TruncMod | lib/video-service.ts:245-246 | JavaScript's `%`: `a == b*trunc(a/b) + r`, with `r` in `0..b-1` for `a >= 0` and in `-(b-1)..0` for negative `a` |
| JsMath.CeilDiv | app/api/clips/route.ts:48 | `Math.ceil(a / b)`: the least `q` with `a <= b*q`, so `b*(q-1) < a` |
| Text.PadStart | lib/video-service.ts:249 | `padStart` never truncates: the length is `max(|s|, width)`, the text ends with `s` and is preceded only by the fill character |
| Text.IndexOf | lib/video-service.ts:104 | the first position at which the pattern occurs, and no occurrence before it; `None` exactly when it occurs nowhere |
| Text.RunsOfWord | lib/video-service.ts:187 | a word without white space is one token: a word is never broken |
| Text.RunsAroundSpace | lib/video-service.ts:187 | a white-space character separates the tokens on its two sides, which keep their order |
| Text.RunsSpec | lib/video-service.ts:187 | the tokens of `trim().split(/\s+/)` (other than the lone `""` of a blank transcript) are non-empty and free of white space, and glued together give the transcript with its white space removed |
| Text.SplitJoin | lib/video-service.ts:193 | splitting a space-joined line on spaces gives back its words when none contains a space |
| Utils.FormatTime | lib/utils.ts:17-24 | for `s > 0`, the whole minutes, `:`, and the remaining seconds as two digits |
| Utils.FormatLongTime | lib/utils.ts:31-43 | from one hour on, whole hours, then minutes and seconds of the remainder as two digits each; between zero and an hour, exactly `formatTime` |
| Utils.FormatTimeRoundTrip | lib/utils.ts:17-24 | for `s > 0`, `formatTime` prints two fields, the second exactly two digits in 00..59, and `m*60 + ss` reads back as `s` |
| Utils.FormatTimeZero | lib/utils.ts:18 | `formatTime(0)` is `"0:00"` |
| Utils.FormatLongTimeHours | lib/utils.ts:34-40 | with at least an hour, `formatLongTime` prints three fields, minutes and seconds two digits in 00..59, and `h*3600 + m*60 + ss` reads back as the input |
| Utils.FormatLongTimeUnderAnHour | lib/utils.ts:31-43 | for `0 < s < 3600`, `formatLongTime(s) == formatTime(s)` and has two fields, while `formatLongTime(0)` has three |
| Utils.FormatLongTimeRoundTrip | lib/utils.ts:31-43 | every non-negative input reads back from `formatLongTime`'s output |
| Subtitles.FormatSrtTime | lib/video-service.ts:243-250 | a non-negative time prints as a timestamp that reads back as the same number of milliseconds |
| Subtitles.SrtFieldsSound | lib/video-service.ts:243-247 | hours are `floor(ms/3600000)`, minutes and seconds are in 0..59 and milliseconds in 0..999, and the fields add back up to the time |
| Subtitles.FormatClockRoundTrip | lib/video-service.ts:249 | a clock with fields in range prints as `hh:mm:ss,mmm` with widths of at least 2, then 2, 2 and 3, and 3+ hour digits from 100 hours on; it parses back to its millisecond total |
| Subtitles.FormatSrtTimeRoundTrip | lib/video-service.ts:243-250 | for any non-negative time, `formatSrtTime` has the `HH:MM:SS,mmm` shape and parses back to the same number of milliseconds |
| Subtitles.ShortClipStartsBeforeZero | lib/video-service.ts:199 | in a clip shorter than 3 s the first line starts before zero and prints with a minus sign (`-1:-1:-1,000` for −1 s) |
| Subtitles.ChunksSpec | lib/video-service.ts:192-194 | there are `ceil(w/7)` groups; group `i` is words `7i` to `min(7i+7, w)`, holds 1 to 7 words, and the groups in order are the words again |
| Subtitles.TimingMonotone | lib/video-service.ts:199-200 | later lines never start or end earlier |
| Subtitles.TimingWithinClip | lib/video-service.ts:199-200 | in a clip of at least 3 s every line starts at or after 0 and ends 3 s after its start, within the clip |
| Subtitles.SharedFinalWindow | lib/video-service.ts:199-200 | once `3i >= D - 3`, every line shares the final window `[D-3, D]`, so starts are not strictly increasing |
| Subtitles.SrtRoundTrip | lib/video-service.ts:187-206 | the SRT text splits back into its blocks; the text lines give back the lines, and their words give back exactly the transcript's tokens |
| Subtitles.BlockCount | lib/video-service.ts:187-206 | there are `ceil(w/7)` blocks, and never none |
| Subtitles.BuildLines | lib/video-service.ts:191-194 | the `for` loop pushes exactly the space-joined seven-word groups |
| Subtitles.BuildSrt | lib/video-service.ts:196-206 | the `forEach` accumulates exactly the concatenation of the numbered blocks, each timed `min(3i, D-3) --> min(start+3, D)` |
| VideoService.Resolution | lib/video-service.ts:56-72 | every resolution is 9:16 portrait; the three keys give themselves and any other key gives 720p |
| VideoService.ResolutionTable | lib/video-service.ts:114-120 | the encoder size is `720x1280`, `1080x1920` or `2160x3840`, and `720x1280` for any other key |
| VideoService.SizeArgReadsBack | lib/video-service.ts:120 | the size argument is exactly `${width}x${height}` and splits back into the two numbers |
| VideoService.PositionValue | lib/video-service.ts:298-303 | `top` gives `50`, `middle` gives `(h-th)/2`, and everything else gives `(h-th-50)`, each in both directions |
| VideoService.BurnFilter | lib/video-service.ts:309 | the filter always ends with `Alignment=2,MarginV=20'`; no position goes into it |
| VideoService.StorageKey | lib/video-service.ts:104 | without `<bucket>/` anywhere the reference is the key; otherwise exactly one copy of the prefix is cut out |
| VideoService.StorageKeyStripsPrefix | lib/video-service.ts:104 | a reference starting with `<bucket>/` yields the rest |
| VideoService.StorageKeyWithoutPrefix | lib/video-service.ts:104 | a reference without `<bucket>/` is left unchanged |
| VideoService.StorageKeyCutsFirstOccurrence | lib/video-service.ts:277 | the first `<bucket>/` is cut wherever it occurs, not only at the start |
| VideoService.StorageKeyNotAnchored | lib/video-service.ts:287 | `archive/videos/a.mp4` becomes `archive/a.mp4` |
| VideoService.StorageKeyRoundTrip | lib/video-service.ts:104 | putting `<bucket>/` back in front of the key of a prefixed reference gives the reference |
| VideoService.TempDir.Write | lib/video-service.ts:111 | writing adds the path to the temporary directory and nothing else |
| VideoService.TempDir.Unlink | lib/video-service.ts:157-158 | unlinking an existing file removes exactly that path |
| VideoService.TempDir.UnlinkIfExists | lib/video-service.ts:169-170 | removes the path if it is there and nothing else |
| VideoService.DistinctTempPaths | lib/video-service.ts:94-97 | input and output temporary paths never coincide |
| VideoService.EncodeOptions | lib/video-service.ts:121-132 | three fixed encoder options, plus the watermark filter exactly when a watermark is asked for |
| VideoService.ExtractClip | lib/video-service.ts:85-180 | the download key and the transcoder job; both temporary files are gone after success, a failed download or a transcoder error, and both are left behind when the upload fails |
| VideoService.GenerateSubtitles | lib/video-service.ts:183-240 | the file content is the SRT text of the transcript; the temporary file is removed whether the upload succeeds or not |
| VideoService.BurnSubtitles | lib/video-service.ts:253-357 | both download keys; the filter does not depend on the position; all three temporary files are removed except when the upload fails |
| Plans.PlanFromStripeId | constants/subscription-plans.ts:70-75 | no or empty id gives FREE; the CREATOR id (checked first) gives CREATOR; then the PRO id gives PRO; anything else gives FREE |
| Plans.CreatorCheckedFirst | constants/subscription-plans.ts:72-73 | an id configured for both paid plans resolves to CREATOR |
| Plans.LimitsIncreaseWithTier | constants/subscription-plans.ts:1-68 | limits are 5/120/300 minutes, strictly increasing with tier, as are the video lengths; storage days do not decrease; the default plan is FREE |
| Plans.RemainingMinutes | constants/subscription-plans.ts:84-88 | `max(limit - used, 0)`: never negative, 0 exactly when `used >= limit`, and at most the limit for `used >= 0` |
| Plans.MinutesUsedPercentage | constants/subscription-plans.ts:79-82 | never above 100, exactly 100 when `used >= limit`, proportional below, and non-negative for `used >= 0` |
| Store.FindUnique | app/api/clips/route.ts:63-68 | the row under the key, or `None` exactly when there is none |
| Subscription.GraceIsOneDay | lib/subscription.ts:6 | valid until exactly one day after the period end, and never without one |
| Subscription.CheckSubscription | lib/subscription.ts:9-36 | true exactly when the session user has a row with a price id and now is before period end + 1 day |
| Subscription.FindOrCreate | lib/subscription.ts:49-66 | existing rows are kept unchanged; only an absent user gets a new row, with the FREE limit |
| Subscription.FindOrCreateIdempotent | lib/subscription.ts:49-66 | a second lookup creates nothing |
| Subscription.UserPlanOf | lib/subscription.ts:76-100 | FREE without a price id or past the grace period; otherwise PRO for the PRO id (checked first), CREATOR for the CREATOR id, FREE for others |
| Subscription.UserPlanMatchesPriceTable | lib/subscription.ts:94-100 | within the grace period it agrees with `getPlanFromStripeId`, except for an id configured for both paid plans, which the two resolve differently |
| Subscription.NewSubscriptionIsFree | lib/subscription.ts:57-64 | a created row is on the FREE plan with 5 minutes remaining |
| Subscription.AvailableIffRemaining | lib/subscription.ts:104-147 | minutes are available exactly when some remain; neither answer reads the row's stored limit |
| Subscription.GetUserSubscription | lib/subscription.ts:39-67 | `None` and no change without a user; otherwise the find-or-create table and the user's row |
| Subscription.GetUserPlan | lib/subscription.ts:70-101 | FREE without a user; otherwise the plan of the found or created row |
| Subscription.HasAvailableMinutes | lib/subscription.ts:104-124 | false without a user; otherwise minutes used below the plan table's limit |
| Subscription.GetRemainingMinutes | lib/subscription.ts:127-147 | 0 without a user; otherwise the plan's limit less the minutes used, never negative |
| ClipsRoute.RoutePlan | app/api/clips/route.ts:29-34 | FREE exactly without a price id; PRO exactly when the id contains `pro`; CREATOR otherwise |
| ClipsRoute.RoutePlanDisagreesWithUserPlan | app/api/clips/route.ts:29-34 | the route grants a paid plan to a subscription that `getUserPlan` treats as expired |
| ClipsRoute.Admission | app/api/clips/route.ts:37-60 | 403 above 60 s; otherwise 403 exactly when used + `ceil(d/60)` exceeds the limit; the watermark is set exactly on FREE |
| ClipsRoute.BoundariesAccepted | app/api/clips/route.ts:40-52 | exactly 60 s costs one minute and is accepted, as is landing exactly on the limit |
| ClipsRoute.AdmittedClipCostsOneMinute | app/api/clips/route.ts:40-48 | every admitted clip of positive length costs exactly one minute |
| ClipsRoute.NoLowerBound | app/api/clips/route.ts:37-52 | an empty or reversed window is admitted within the limit and needs zero or fewer minutes |
| ClipsRoute.Decide | app/api/clips/route.ts:16-72 | 401, then 400; for a complete request, the duration or minutes rejection whenever the admission check fails; once it passes, success exactly when the video exists and belongs to the caller, and 404 otherwise; an admitted request carries the plan's watermark flag and the video |
| ClipsRoute.NewClip | app/api/clips/route.ts:74-86 | the row belongs to the caller and the video, is `processing` with no storage path, lasts `end - start`, is titled `Clip from <filename>` unless a truthy title is given, and takes the client's resolution or `720p` |
| ClipsRoute.PostClip | app/api/clips/route.ts:11-116 | rejections create no clip and send nothing; an admitted request adds exactly one `processing` row; a failed processing request answers 500 and leaves the row in `processing` |
| VideoProcessing.MarkClipFailed | app/api/video-processing/route.ts:106-116 | the clip table becomes `MarkFailed` of the old one: the clip's status becomes `error` if the row exists, and nothing else changes |
| VideoProcessing.MarkFailed | app/api/video-processing/route.ts:109-115 | only the clip's status changes, to `error`, and nothing changes without the row |
| VideoProcessing.Settle | app/api/video-processing/route.ts:40-117 | success exactly with a path, the clip row and a subscription row; the clip row's final state; charge only on success; the transcription appended only after a stored path |
| VideoProcessing.ReadyClipRegressesWithoutSubscription | app/api/video-processing/route.ts:81-115 | without a subscription row a stored clip goes from `ready` back to `error`, keeping its path and transcription, and no one is charged |
| VideoProcessing.ChargedWithReadyClip | app/api/video-processing/route.ts:81-97 | minutes change only with a `ready` clip, by exactly the charge, and only the session user's row changes |
| VideoProcessing.ReversedWindowRefunds | app/api/video-processing/route.ts:89-97 | a window reversed by a minute passes admission, and its charge is negative |
| VideoProcessing.RecordClip | app/api/video-processing/route.ts:49-115 | the handler's writes after extraction produce exactly the tables `Settle` describes |
| VideoProcessing.ProcessClip | app/api/video-processing/route.ts:10-126 | 401, 400 and unknown-action paths change nothing; the `extractClip` action changes the tables as `Settle` says for the extraction's outcome; only `extractClip` is ever called |
| ApiLimit.Bump | lib/api-limit.ts:35-48 | the user's count goes up by one (from 0 without a row); other rows are unchanged |
| ApiLimit.BumpTimesCounts | lib/api-limit.ts:35-48 | `k` increments raise the user's count by `k` and no one else's |
| ApiLimit.ApiLimitTable.Count | lib/api-limit.ts:69-87 | 0 without a user or row, otherwise the stored count |
| ApiLimit.ApiLimitTable.Increment | lib/api-limit.ts:28-49 | no change without a user; otherwise the table with the user's count bumped |
| ApiLimit.ApiLimitTable.Check | lib/api-limit.ts:51-67 | with a user, the check passes exactly while the count `getApiLimitCount` reports is below 5; without one it fails although the count reads 0 |
| ApiLimit.FreeCallsFromNoRow | lib/api-limit.ts:35-66 | after `k` increments from no row the count is `k`, and the check passes exactly when `k < 5` |
| ErrorMonitoring.Pushed | lib/client-error-monitoring.ts:14-25 | length is `min(old+1, 10)`, never above 10; the new entry is first, followed by the first old entries in order |
| ErrorMonitoring.NewestFirst | lib/client-error-monitoring.ts:25 | after up to ten additions, the entries are in reverse order of addition |
| ErrorMonitoring.PushAllBounded | lib/client-error-monitoring.ts:14-25 | from an empty store, `n` additions leave `min(n, 10)` entries |
| ErrorMonitoring.ErrorStore.AddError | lib/client-error-monitoring.ts:17-29 | the store becomes the new entry (message, source, time, stack) in front of at most nine old ones |
| ErrorMonitoring.ErrorStore.GetRecentErrors | lib/client-error-monitoring.ts:32-34 | returns a copy equal to the store, which is not modified |
| ErrorMonitoring.ErrorStore.ClearErrorHistory | lib/client-error-monitoring.ts:37-39 | the store is left empty |
| ErrorUtils.TypeValuesDistinct | lib/error-utils.ts:6-17 | the ten error kinds have distinct string values |
| ErrorUtils.NewAppError | lib/error-utils.ts:20-37 | type defaults to UNKNOWN, the name is `AppError`, and message, status and context are stored as given |
| ErrorUtils.FormatForLogging | lib/error-utils.ts:40-60 | `{message,type,status,context,stack}` for an AppError with its type value, status and context passed through; `{message,name,stack}` for other errors; `{message}` otherwise |
| ErrorUtils.Stringified | lib/error-utils.ts:72-76 | `JSON.stringify` keeps exactly the properties that are not `undefined` |
| ErrorUtils.HandleApiError | lib/error-utils.ts:69-101 | always JSON; status is the AppError's truthy status, or 500; the body carries error and type, plus the AppError's own context only when it is set, or the message, or the unknown-error text |
| ErrorUtils.FriendlyMessage | lib/error-utils.ts:124-145 | never empty; SERVER and UNKNOWN give the message, or the generic sentence when it is empty |
| ErrorUtils.FixedSentence | lib/error-utils.ts:126-141 | the sentence for the eight kinds other than SERVER and UNKNOWN is never empty and never the generic sentence |
| ErrorUtils.FixedSentences | lib/error-utils.ts:126-141 | the other eight kinds give a fixed sentence that ignores the message |
| ErrorUtils.NotificationFor | lib/error-utils.ts:104-121 | an AppError shows its never-empty friendly text, so the fallback is never used for it, with a truthy `context.userMessage` as description; other errors show their message or the fallback; anything else shows the fallback |
| ErrorUtils.WithErrorHandling | lib/error-utils.ts:148-160 | the handler's response when it returns, `handleApiError` of what it throws otherwise |

## Left out

- Storage, ffmpeg, ffprobe, OpenAI transcription and the `fetch` to the processing route are performed I/O. Each is replaced by the success or failure it reports; file contents and uploaded bytes are not modelled. lib/transcription-service.ts is not part of this model.
- In Node, `fetch('/api/video-processing')` with a relative URL throws. The clip route then answers 500 with the row left in `processing`, which is the `FetchThrew` outcome; the model does not fix which outcome occurs.
- Concurrency is not modelled. The fire-and-forget processing request and the non-atomic read-modify-write of the API counter and of `minutesUsed` are taken as sequential.
- Floating point is not modelled:
  - Times are integer milliseconds, so the sub-millisecond error of `(seconds % 1) * 1000` and fractional or `NaN` times are outside the model.
  - `formatFileSize` (lib/utils.ts) is left out.
  - `MinutesUsedPercentage` uses exact reals.
- `ProcessingBody` takes the start and end times as integers. A body without them, which makes `endTime - startTime` `NaN`, is not modelled.
- `VideoService.Resolution`: keys inherited from `Object.prototype` (such as `constructor`) are treated as unknown keys, so they give 720p. In JavaScript they would yield a non-resolution value.
- Prisma schema defaults (for example the default of `minutesUsed`) are not part of this model. A created subscription row starts at 0 minutes used.
- A failure of `clipTranscription.create` is folded into the `None` transcript, which has the same effect: no row, and processing continues.
- Log and toast output, response message texts other than the ones modelled, and the window listeners and `reportErrorToServer` of lib/client-error-monitoring.ts are left out.
- `ErrorUtils.NotificationFor`: a context is a map of strings, so a non-string `userMessage` is not modelled.
- `VideoProcessing.ProcessClip` does not restate `extractClip`'s effect on the temporary directory. That effect is stated by `VideoService.ExtractClip`, which it calls.
- Authentication (cookie, session and `auth()`) is left out. The user id arrives already resolved.
