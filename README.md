# Toxicity reporting and galamsey detection front-end, modelled in Dafny

This project models the logic at the core of a Next.js front-end. The
front-end serves three groups:
- citizens, who report toxic exposure and chat with a health assistant;
- doctors (health administrators), who read those reports grouped by patient;
- environmental officers (EPA administrators), who run detection of illegal
  small-scale mining ("galamsey") sites.

The model covers these parts:
- **The session store** (`Auth`). Restoring the session from `localStorage`,
  `login` with its portal role gate, `register` and `logout` are methods of a
  class over the browser window. Server replies come in as values.
- **The route guard** (`Guard`). Chooses the placeholder, nothing, or the
  children, and says when a redirect is pushed.
- **The detection pipeline** (`Detection`):
  - the Sentinel-1 / U-Net merge, written as the source's two loops over a
    map that keeps insertion order, and proved against a per-id
    specification;
  - the area and confidence filter with its degradation grades;
  - the statistics;
  - the run over the built-in mock lists.
- **The API client** (`Api`):
  - the Authorization header;
  - normalisation of the report-list body;
  - grouping of reports into patients: a loop that groups by user, then a
    loop that summarises each group;
  - the classification of HTTP statuses by `makeRequest`.
- **The processing-session log** (`MapsPage`, `ResultsPage`):
  - the maps page prepends a "processing" record and then replaces it by id
    with the completed or failed record;
  - the results page sorts the log newest first, deletes by id, clears it,
    and formats relative timestamps.
- **The doctor reports page** (`DoctorReports`). The statistics fall back to
  counts over the reports, together with titles, types, badges, and the
  `fetchData` control flow.
- **The chat page** (`Chat`). The line formatter, and the send/reply state
  with message ids taken from the list length.
- **The form components**:
  - onboarding validation and the geolocation error messages (`Onboarding`);
  - the sign-up record parked in `sessionStorage` (`Signup`);
  - the doctor and EPA sign-in forms around `login` (`LoginForms`);
  - the shared `handleInputChange` (`Forms`).
- **The landing page** (`Landing`). The carousel step, the FAQ accordion,
  and the count-up counters.

Shared modules:

| Module | Holds |
|---|---|
| `Wrappers` | `Option` and `Outcome` |
| `Text` | JavaScript whitespace, decimal rendering, `split` on one character, ASCII `toLowerCase` |
| `Sorting` | The stable newest-first sort that `Array.prototype.sort` performs with the source's comparators, written as an insertion sort on sequences |
| `Accounts` | The user record and its roles |
| `Browser` | `localStorage`, router pushes and `window.location.href` assignments |

Where the code and the documented design disagree, the model follows the code:
- Restoring the session does not recover from a malformed stored `user`.
  `JSON.parse` throws after the token is already set, and `loading` stays
  true (`Auth.SessionStore.Hydrate`).
- The default `allowedRoles = ['user']` applies only when the prop is
  omitted. An explicitly empty list denies every user
  (`Guard.EmptyRolesDenyAll`).
- `averageConfidence` of an empty site list is `0 / 0`, which is NaN in
  JavaScript. The model returns `None` rather than excluding the empty list.
- Two chat sends within one reply delay give two messages the same id
  (`Chat.OverlappingSendsShareAnId`).

## Model

| member | source | states |
|---|---|---|
| Accounts.RoleName | app/contexts/AuthContext.tsx:12 | every role is spelled as one of the four API role strings |
| Browser.GetItem | app/contexts/AuthContext.tsx:39-40 | `getItem` is present exactly when the key is stored, and then reads back the stored string |
| Forms.ApplyInput | components/Onboarding.tsx:19-25 | only the named field changes; it takes `checked` for a checkbox and `value` otherwise; every other field keeps its value |
| Forms.TextFieldsKept | components/SignupAuth.tsx:20-26 | an event that is not from a checkbox keeps every text field a text field |
| Text.Split | app/dashboard/chat/page.tsx:21 | `split('\n')` yields one piece more than there are separators, none holding a separator, and joining them gives the input back |
| Text.SplitJoin | app/dashboard/chat/page.tsx:21 | splitting the join of separator-free pieces gives the pieces back |
| Text.Decimal | app/dashboard/results/page.tsx:109-112 | a number renders as a non-empty run of digits, with a leading zero only for 0 |
| Text.DecimalRoundTrip | app/dashboard/results/page.tsx:109-112 | reading the rendered digits back gives the number |
| Text.DecimalInjective | app/dashboard/results/page.tsx:109-112 | distinct numbers render differently |
| Text.Lower | components/SignupAuth.tsx:39 | `toLowerCase` on ASCII letters: keeps the length, maps each upper-case ASCII letter to lower case and leaves every other character, so no upper-case ASCII letter is left |
| Sorting.InsertSorted | app/services/api.ts:294-296 | inserting into a list ordered newest first keeps it ordered and adds exactly the new element |
| Sorting.SortedPermutation | app/services/api.ts:294-296 | the sorted list is ordered newest first by the key and is a permutation of the input |
| Sorting.InsertWithKey | app/services/api.ts:294-296 | insertion puts the new element ahead of every element with the same key and leaves their order |
| Sorting.SortStable | app/services/api.ts:294-296 | the sort is stable: the elements with any one key come out in their input order |
| Sorting.HeadIsNewest | app/services/api.ts:281-289 | the first element of the sorted list has the largest key of the input |
| Sorting.PrefixHoldsNewest | app/services/api.ts:281-288 | a prefix of a newest-first sequence holds its newest elements |
| Auth.HydrationOf | app/contexts/AuthContext.tsx:37-47 | there is no session exactly when either stored key is missing or empty; the token is the stored string; a user is restored only from a stored user record |
| Auth.LoginOutcome | app/contexts/AuthContext.tsx:49-93 | login succeeds exactly when the server says ok and the portal admits the role; an error reply raises `detail` or "Login failed"; a refused role raises its portal's denial |
| Auth.RegisterBodyOf | app/contexts/AuthContext.tsx:99-114 | email, password, username and full name are always sent; the phone number and name are sent exactly when non-empty |
| Auth.RegisterOutcome | app/contexts/AuthContext.tsx:122-130 | register succeeds exactly when the server says ok; errors fall back from `detail` to `msg` to "Registration failed" |
| Auth.CommitThenHydrate | app/contexts/AuthContext.tsx:73-79 | the keys a successful login writes restore the same token and user on reload, or no session for an empty token |
| Auth.ClearThenHydrate | app/contexts/AuthContext.tsx:150-156 | after logout's removals a reload finds no session |
| Auth.SessionStore.Hydrate | app/contexts/AuthContext.tsx:37-47 | the user and token are set only when both keys are present and non-empty; `loading` ends false unless the stored user does not parse, in which case the parse error escapes |
| Auth.PortalGateByName | app/contexts/AuthContext.tsx:66-71 | the gate on the role enumeration admits exactly the API role names in each portal's list |
| Auth.SessionStore.Login | app/contexts/AuthContext.tsx:49-93 | the request is sent; the outcome is the one `LoginOutcome` describes; on a throw, user, token and storage are unchanged; on success, both are set in memory and storage and the portal's landing route is pushed; `loading` is true during the call and false after it |
| Auth.SessionStore.Admit | app/contexts/AuthContext.tsx:65-86 | after an ok reply, a refused role throws its portal's denial and changes nothing; an admitted one is kept in memory and storage and sent to its portal's landing route |
| Auth.SessionStore.Commit | app/contexts/AuthContext.tsx:73-77 | token and user are set in memory and written under their two storage keys; nothing else changes |
| Auth.SessionStore.Register | app/contexts/AuthContext.tsx:95-148 | the request body is sent; on success, the session is committed, with `/dashboard` pushed only when onboarding is skipped; `loading` is false after the call |
| Auth.SessionStore.Logout | app/contexts/AuthContext.tsx:150-156 | user and token are cleared, both keys are removed, "/" is pushed, and the session is no longer authenticated |
| Auth.LoginSurvivesReload | app/contexts/AuthContext.tsx:37-86 | a successful login followed by a fresh store on the same window restores the same user and token |
| Auth.LogoutSurvivesReload | app/contexts/AuthContext.tsx:37-156 | after logout a fresh store on the same window is signed out |
| Guard.AllowedRoles | app/components/ProtectedRoute.tsx:15 | the default `['user']` applies only when the prop is omitted |
| Guard.RedirectPath | app/components/ProtectedRoute.tsx:16 | the default '/login' applies only when the prop is omitted |
| Guard.Redirect | app/components/ProtectedRoute.tsx:21-33 | no redirect while loading; any redirect goes to `redirectPath`; an unauthenticated or user-less visitor is redirected |
| Guard.Render | app/components/ProtectedRoute.tsx:35-51 | the placeholder shows exactly while loading; the children show exactly for a loaded, authenticated user with an allowed role, and then no redirect is issued; nothing renders exactly when a redirect is pushed |
| Guard.EmptyRolesDenyAll | app/components/ProtectedRoute.tsx:28-31 | an explicitly empty role list renders nothing and redirects every user |
| Guard.PortalGateMatchesGuard | app/doctor-dashboard/page.tsx:196 | the doctor and EPA guards admit exactly the roles the login gate admits; the citizen dashboard admits every role |
| Guard.GuardAfterLogout | app/components/ProtectedRoute.tsx:43-45 | after logout every guarded page renders nothing and redirects |
| Detection.Dedup | services/galamseyDetectionService.ts:147 | the insertion-ordered keys of a map: distinct, and exactly the ids seen |
| Detection.FoldSentinelSpec | services/galamseyDetectionService.ts:150-155 | the Sentinel-1 loop keys the map by first occurrence, and each entry is the last site with that id, marked 'sentinel-1' |
| Detection.FoldUnetSpec | services/galamseyDetectionService.ts:158-171 | after the U-Net loop every key holds the merge of that id's sites |
| Detection.CombinedSites | services/galamseyDetectionService.ts:146-174 | the merged list holds each id of either input exactly once, Sentinel-1 ids first in input order, then new U-Net ids, each merged as specified |
| Detection.MergeRule | services/galamseyDetectionService.ts:158-169 | a site found by one method only keeps its fields and gets that method; a site found by both takes the larger confidence and the larger area, is marked 'unet-deep-learning', and keeps its other Sentinel-1 fields |
| Detection.UniqueIdMaxima | services/galamseyDetectionService.ts:161-162 | with distinct ids the running maximum is the site's own value |
| Detection.CombineDetectionResults | services/galamseyDetectionService.ts:146-174 | the method returns the merged map's values in key order |
| Detection.SentinelPass | services/galamseyDetectionService.ts:150-155 | the Sentinel-1 loop computes the fold the specification describes |
| Detection.UnetPass | services/galamseyDetectionService.ts:158-171 | the U-Net loop computes the fold the specification describes |
| Detection.MapValues | services/galamseyDetectionService.ts:173 | `Array.from(map.values())` lists the entries in key order |
| Detection.Graded | services/galamseyDetectionService.ts:192-198 | grading changes only the degradation level |
| Detection.PostProcess | services/galamseyDetectionService.ts:179-202 | every kept site passes the area and confidence bounds, and is graded high, medium or low by its area and confidence |
| Detection.PostProcessMembers | services/galamseyDetectionService.ts:180-190 | a site is kept exactly when 0.01 <= area <= 50 and confidence >= 0.5 |
| Detection.PostProcessAppend | services/galamseyDetectionService.ts:200 | filtering distributes over concatenation, so relative order is kept |
| Detection.PostProcessIdempotent | services/galamseyDetectionService.ts:179-202 | filtering twice is filtering once |
| Detection.CalculateStatistics | services/galamseyDetectionService.ts:207-221 | each status count is the number of sites with that status, and the three add up to the site count; the total area is the sum of areas; the average times the count is the sum of confidences; there is no average for an empty list |
| Detection.StatusCountsPartition | services/galamseyDetectionService.ts:209-211 | active, inactive and rehabilitated partition the sites |
| Detection.CountStatusPositions | services/galamseyDetectionService.ts:209-211 | a status count is the number of positions in the list holding a site of that status |
| Detection.KeptSiteBounds | services/galamseyDetectionService.ts:35-38 | for filtered sites the confidence sum lies between 0.5 and the top confidence per site, and the area sum between the area bounds per site |
| Detection.DetectGalamseySites | services/galamseyDetectionService.ts:44-68 | a run merges, filters and summarises the built-in lists, whatever the region |
| Detection.SentinelPassThrough | services/galamseyDetectionService.ts:150-155 | Sentinel-1 sites with new, distinct ids already marked 'sentinel-1' are appended to the map's values unchanged and in order |
| Detection.UnetPassThrough | services/galamseyDetectionService.ts:158-171 | U-Net sites with new, distinct ids already marked 'unet-deep-learning' are appended to the map's values unchanged and in order |
| Detection.DisjointMerge | services/galamseyDetectionService.ts:146-174 | when no id repeats across both lists and every site carries its list's method, the merge is the Sentinel-1 sites followed by the U-Net sites |
| Detection.MockMerge | services/galamseyDetectionService.ts:242-323 | the built-in lists share no id, so the merge is their five sites in order |
| Detection.MockFilter | services/galamseyDetectionService.ts:242-323 | every built-in site passes the filter |
| Detection.MockSites | services/galamseyDetectionService.ts:44-68 | the run over the built-in lists keeps the five merged sites, graded |
| Detection.MockRun | services/galamseyDetectionService.ts:242-323 | the run yields five sites: three active, one inactive and one rehabilitated, graded high, medium, medium, medium, high |
| Api.AuthorizationHeader | app/services/api.ts:108-114 | the header is "Bearer " followed by the stored token, or "null" when none is stored |
| Api.AuthHeaders | app/services/api.ts:108-114 | two headers: the Authorization header and the JSON content type |
| Api.HeaderFollowsSession | app/services/api.ts:108-114 | after a login the header carries its token; after logout it carries "null" |
| Api.AllReportsBody | app/services/api.ts:237-247 | an array is returned as is, else `reports` when that is an array, else the body unchanged; a null body is a TypeError |
| Api.ReportList | app/doctor-dashboard/reports/page.tsx:69 | the page's normalisation: the array itself, else `.reports`, else the empty list |
| Api.NormalisationsAgree | app/services/api.ts:237-247 | the page's normalisation of the client's normalised body equals its normalisation of the raw body |
| Api.ReportsOfMembers | app/services/api.ts:267-276 | a user's group holds exactly that user's reports, each as many times as it occurs in the input, and no other report |
| Api.ReportsOfCounts | app/services/api.ts:267-276 | each report occurs in a user's group as often as in the input when it carries the user's id, and never otherwise |
| Api.UserIdsExact | app/services/api.ts:267-276 | the group keys are distinct and are exactly the non-empty user ids that occur |
| Api.GroupByUser | app/services/api.ts:267-276 | the grouping loop yields the ids in first-occurrence order, each mapped to that user's reports in order |
| Api.GetPatientsFromReports | app/services/api.ts:258-297 | the method computes the grouped, summarised and sorted patient list, or the error the fetch raises |
| Api.Summaries | app/services/api.ts:279-291 | the summary loop yields one entry per user id, in key order |
| Api.PatientsOncePerUser | app/services/api.ts:267-296 | every patient has a non-empty id with reports, no id appears twice, and the patients come newest `latest_report_date` first |
| Api.PatientsCoverReports | app/services/api.ts:262-279 | every report with a user id is represented by a patient |
| Api.PatientEntries | app/services/api.ts:281-289 | a patient's total is the size of the group; its recent reports are the group's 5 newest (all of them when fewer), newest first: none left out is newer than one kept; its latest date is the group's newest |
| Api.SummaryFacts | app/services/api.ts:279-291 | the same facts for one summary, the kept reports being the group's newest |
| Api.RecentAreNewest | app/services/api.ts:281-288 | no report of the group left out of `recent_reports` is newer than one kept |
| Api.RequestOutcome | app/services/api.ts:499-526 | only an ok reply with a body returns it; a 401 raises "Session expired"; past a 401, a `null` error body throws a TypeError when its `detail` is read; otherwise a 422 raises "Invalid input data" and other statuses raise `detail` or "Request failed" |
| Api.MakeRequest | app/services/api.ts:506-511 | a 401 removes both keys and sends the browser to /login, so reload finds no session; any other reply touches nothing |
| MapsPage.RegionArg | app/dashboard/maps/page.tsx:30 | the service gets no region exactly when 'all' is selected |
| MapsPage.MethodLabel | app/dashboard/maps/page.tsx:29 | the label is the method, with " (region)" unless 'all' is selected, and " - Refresh" appended on refresh |
| MapsPage.ProcessingTime | app/dashboard/maps/page.tsx:44 | `Math.round(elapsed / 1000)`: the nearest whole second, halves rounded up |
| MapsPage.Finished | app/dashboard/maps/page.tsx:44-78 | the completed record carries the result's counts and the rounded time; the failed record carries the error text or "Unknown error occurred"; the id, time stamp, label and region are kept |
| MapsPage.ReplaceById | app/dashboard/maps/page.tsx:60-62 | only the records with the id are replaced, in place |
| MapsPage.Existing | app/dashboard/maps/page.tsx:34 | a stored log that does not parse yields no list |
| MapsPage.RunPrependsOneRecord | app/dashboard/maps/page.tsx:34-63 | with a fresh id the run's log is the finished record ahead of the old log |
| MapsPage.ReplaceByIdLaws | app/dashboard/maps/page.tsx:60-62 | replacing an absent id changes nothing, and replacing twice is replacing once |
| MapsPage.EmptyResult | app/dashboard/maps/page.tsx:81-89 | the fallback result is all zeros with no sites |
| MapsPage.Page.FetchGalamseyData | app/dashboard/maps/page.tsx:19-93 | the record is prepended, the service called, the record replaced by id, the fallback result set on failure, and `loading` ends false; a log that does not parse escapes before any of this |
| MapsPage.Page.HandleRefresh | app/dashboard/maps/page.tsx:102-164 | as the first fetch, with " - Refresh" in the label, and a failure keeping the previous result |
| MapsPage.FirstLoadLogsPipeline | app/dashboard/maps/page.tsx:19-96 | a first load over an empty log records one completed run of the built-in pipeline and calls the service with no region |
| ResultsPage.WithoutId | app/dashboard/results/page.tsx:116 | no record with the id is left |
| ResultsPage.WithoutIdMembers | app/dashboard/results/page.tsx:116 | every other record is kept, and nothing new appears |
| ResultsPage.WithoutIdIdempotent | app/dashboard/results/page.tsx:116 | deleting twice is deleting once |
| ResultsPage.WithoutIdAppend | app/dashboard/results/page.tsx:116 | deletion distributes over concatenation, so order is kept |
| ResultsPage.WithoutIdKeepsOrder | app/dashboard/results/page.tsx:115-118 | a list sorted newest first stays sorted after a delete |
| ResultsPage.StatusColor | app/dashboard/results/page.tsx:64-75 | completed, processing and failed have their own classes; anything else is gray |
| ResultsPage.StatusColorsDistinct | app/dashboard/results/page.tsx:64-75 | the three known statuses have distinct classes |
| ResultsPage.FormatTimestamp | app/dashboard/results/page.tsx:102-113 | "Just now" exactly under one minute, negative differences included |
| ResultsPage.FormatTimestampBuckets | app/dashboard/results/page.tsx:102-113 | minutes under an hour, hours under a day, days otherwise, each a floor division |
| ResultsPage.Page.LoadSessions | app/dashboard/results/page.tsx:32-48 | a stored log is shown sorted newest first; a missing or unparsable one leaves the list; `loading` ends false |
| ResultsPage.Page.DeleteSession | app/dashboard/results/page.tsx:115-122 | the records with the id are removed and written back; the selection clears only if it had that id; sortedness is kept |
| ResultsPage.Page.ClearAllSessions | app/dashboard/results/page.tsx:125-129 | the list, the stored key and the selection are cleared |
| ResultsPage.RunShowsInResults | app/dashboard/results/page.tsx:34-48 | a finished run from the maps page appears on the results page |
| DoctorReports.Count | app/doctor-dashboard/reports/page.tsx:86-87 | a status count never exceeds the report count |
| DoctorReports.CountAppend | app/doctor-dashboard/reports/page.tsx:86-87 | counting distributes over concatenation |
| DoctorReports.CountsDisjoint | app/doctor-dashboard/reports/page.tsx:86-87 | two different statuses count at most all the reports together |
| DoctorReports.CountPositive | app/doctor-dashboard/reports/page.tsx:86-87 | a count is positive exactly when some report has that status |
| DoctorReports.ThisMonth | app/doctor-dashboard/reports/page.tsx:81-85 | at most every report, and every report exactly when all were created in the given month |
| DoctorReports.Statistics | app/doctor-dashboard/reports/page.tsx:80-87 | each figure is the summary's value when truthy, and otherwise the count over the reports |
| DoctorReports.CountedStatisticsConsistent | app/doctor-dashboard/reports/page.tsx:80-87 | without a summary: pending plus completed and this month are at most the total, and pending is positive exactly when a report is pending |
| DoctorReports.Title | app/doctor-dashboard/reports/page.tsx:89-97 | chemicals give "<first> Exposure Analysis"; otherwise a non-empty toxicity likelihood gives "<likelihood> Toxicity Assessment"; else "Medical Report" |
| DoctorReports.TitleIgnoresStatusAndSymptoms | app/doctor-dashboard/reports/page.tsx:89-97 | the title depends on neither status nor symptoms, and takes one of the three forms |
| DoctorReports.ReportType | app/doctor-dashboard/reports/page.tsx:99-104 | "Symptom Analysis" exactly when there are symptoms, else "Comprehensive Analysis" |
| DoctorReports.PatientLabel | app/doctor-dashboard/reports/page.tsx:247 | the first eight characters of the user id, or "Unknown" when it is empty |
| DoctorReports.StatusLabel | app/doctor-dashboard/reports/page.tsx:106-126 | a known status shows its label; an unknown one shows itself |
| DoctorReports.StatusColor | app/doctor-dashboard/reports/page.tsx:106-126 | a known status has its colour; an unknown one is gray |
| DoctorReports.StatusLabelsDistinct | app/doctor-dashboard/reports/page.tsx:114-123 | the known labels are distinct, none is its own status, and RESOLVED reads "Completed" |
| DoctorReports.Page.FetchData | app/doctor-dashboard/reports/page.tsx:39-77 | with no token the call returns at once and `reports`, `summary` and `loading` keep their values (so `loading` keeps its initial true); otherwise `loading` ends false, the summary is taken from a parsed reply, and the reports from a parsed body |
| DoctorReports.Page.Shown | app/doctor-dashboard/reports/page.tsx:80-87 | the page's figures are the statistics of its state |
| Chat.LeadingDigits | app/dashboard/chat/page.tsx:25 | the longest run of leading digits |
| Chat.NumberedMatchesPattern | app/dashboard/chat/page.tsx:25 | the leading-digit test agrees with `/^\d+\.\s/` |
| Chat.Classify | app/dashboard/chat/page.tsx:22-28 | bold exactly when the line starts and ends with "**"; otherwise an item exactly when numbered; otherwise a paragraph; the text of a non-bold line is the line |
| Chat.BoldRoundTrip | app/dashboard/chat/page.tsx:22-24 | wrapping a text in "**" gives a bold line of that text, and a bold line of at least four characters is its text wrapped in "**" |
| Chat.FormatMessage | app/dashboard/chat/page.tsx:20-30 | one element per '\n'-separated line, in order |
| Chat.FormatJoinedLines | app/dashboard/chat/page.tsx:20-30 | a message joined from lines renders them one by one |
| Chat.Send | app/dashboard/chat/page.tsx:32-54 | a blank message with no files changes nothing; otherwise the user's message is appended with id length + 1, typing starts, and the reply is scheduled with id length + 2 |
| Chat.Deliver | app/dashboard/chat/page.tsx:46-52 | the oldest scheduled reply is appended with its id and the fixed text, and typing stops |
| Chat.SendAndReplyKeepNumbering | app/dashboard/chat/page.tsx:32-54 | when each reply arrives before the next send, the ids remain positions counted from one |
| Chat.OverlappingSendsShareAnId | app/dashboard/chat/page.tsx:35-52 | two sends within one reply delay give the second user message and the first reply the same id |
| Chat.ChatPage.HandleSendMessage | app/dashboard/chat/page.tsx:32-54 | the page state advances by a send |
| Chat.ChatPage.DeliverReply | app/dashboard/chat/page.tsx:44-53 | the page state advances by a delivery |
| Onboarding.Validate | components/Onboarding.tsx:80-103 | location, then phone number, then GPS consent: each verdict holds exactly when its check is the first to fail |
| Onboarding.AcceptedIffAllPresent | components/Onboarding.tsx:84-102 | the form is accepted exactly when all three are present |
| Onboarding.GeoErrorMessage | components/Onboarding.tsx:53-71 | the fixed prefix, then the reason for the error code, or the unknown-error text |
| Onboarding.GeoErrorMessagesDistinct | components/Onboarding.tsx:54-68 | each known code has its own message |
| Onboarding.PhoneChanged | components/Onboarding.tsx:27-32 | the phone number, or "" when cleared; the other fields are kept |
| Onboarding.Located | components/Onboarding.tsx:44-52 | the location is "lat, lng" and GPS consent is set; the other fields are kept |
| Onboarding.LocatedWithPhoneIsAccepted | components/Onboarding.tsx:80-103 | a located form with a phone number is accepted, whichever came first |
| Onboarding.OnboardingPage.HandleInputChange | components/Onboarding.tsx:19-25 | the form takes the input |
| Onboarding.OnboardingPage.HandlePhoneChange | components/Onboarding.tsx:27-32 | the form takes the phone number |
| Onboarding.OnboardingPage.GetCurrentLocation | components/Onboarding.tsx:34-41 | without support only the error is set; otherwise loading starts and the error clears |
| Onboarding.OnboardingPage.PositionFound | components/Onboarding.tsx:44-52 | the form is located and loading stops |
| Onboarding.OnboardingPage.PositionFailed | components/Onboarding.tsx:53-71 | the error shows the code's message and loading stops |
| Onboarding.OnboardingPage.HandleSubmit | components/Onboarding.tsx:80-103 | the first failing check reports itself; only an accepted form goes to /dashboard |
| Signup.SignupRecord | components/SignupAuth.tsx:33-40 | the fields are copied; the full name is first, a space, then last; the username is the first name with its ASCII letters in lower case |
| Signup.FullNameSplitsBack | components/SignupAuth.tsx:38 | for a first name without a space, the full name splits back at its first space |
| Signup.UsernameIsLowerCase | components/SignupAuth.tsx:39 | the username is unchanged by lower-casing |
| Signup.SignupPage.HandleInputChange | components/SignupAuth.tsx:20-26 | the form takes the input |
| Signup.SignupPage.HandleSubmit | components/SignupAuth.tsx:28-47 | the record goes under 'pendingSignup' and the browser to /onboarding; the session is untouched |
| LoginForms.SubmitError | components/DoctorLoginAuth.tsx:36-37 | no error exactly when login returned; else the thrown message, or the fixed fallback for an empty one |
| LoginForms.ErrorShownIffRejected | components/DoctorLoginAuth.tsx:29-41 | an error shows exactly when the server refused, the call failed, or the portal denies the role |
| LoginForms.DeniedShowsDenial | components/DoctorLoginAuth.tsx:35-37 | a role the form's portal refuses shows that portal's denial message |
| LoginForms.PortalsAdmitAsDocumented | components/EPALoginAuth.tsx:35 | each form denies the other portal's administrator and admits a super administrator |
| LoginForms.LoginForm.HandleInputChange | components/DoctorLoginAuth.tsx:21-27 | the form takes the input |
| LoginForms.LoginForm.HandleSubmit | components/DoctorLoginAuth.tsx:29-41 | `login` is called with the form's email and password and the form's portal; the error is the submit error; the form's and the store's loading both go true then false; a refusal leaves the session, storage and navigation unchanged, a success commits both keys and pushes the portal's route |
| LoginForms.LoginForm.Settle | components/DoctorLoginAuth.tsx:36-40 | the error becomes the submit error of the outcome and loading ends false; the form is unchanged |
| Landing.CardWidth | components/LandingPage.tsx:22-24 | 336 pixels per card on a phone, 416 otherwise |
| Landing.Toggled | components/LandingPage.tsx:41-43 | the item closes exactly when it was open, and opens otherwise |
| Landing.ToggleTwice | components/LandingPage.tsx:41-43 | toggling twice leaves the item open only if it was open |
| Landing.CounterValue | components/LandingPage.tsx:62-69 | the target once the duration has passed; between 0 and the target for a non-negative elapsed time; the floor of the proportional value |
| Landing.CounterMonotone | components/LandingPage.tsx:62-69 | the value never decreases as time passes |
| Landing.AnimateCounter | components/LandingPage.tsx:55-72 | each frame shows the formula's value; frames stop at the first reading a full duration after the start, which shows the target |
| Landing.CountUpIsMonotone | components/LandingPage.tsx:55-72 | over ordered readings none before the start, the values stay between 0 and the target and never go down; a first reading at the start shows 0 (reaching the target is `AnimateCounter`'s) |
| Landing.LandingPage.ScrollToStep | components/LandingPage.tsx:20-27 | with a container: the step is set and the strip moves by step times the card width; without one nothing changes |
| Landing.LandingPage.ScrollLeft | components/LandingPage.tsx:29-33 | one card back unless on the first; the step stays in 0..3 |
| Landing.LandingPage.ScrollRight | components/LandingPage.tsx:35-39 | one card on unless on the last; the step stays in 0..3 |
| Landing.LandingPage.ToggleAccordion | components/LandingPage.tsx:41-43 | the open item is toggled |
| Landing.LandingPage.StartCounters | components/LandingPage.tsx:74-79 | the three counters start the first time only |

## Left out

- Network plumbing. `fetch`, JSON bodies and the response objects are not
  modelled. Each server reply comes in as a value: `Auth.Reply`,
  `Api.HttpReply`, `DoctorReports.Reply`, and the run outcome of the maps
  page.
- The detection service's remote fetchers and their abort timeouts are left
  out. `detectGalamseySites` never reaches them: it always uses the built-in
  lists.
- JSON serialisation of `localStorage` and `sessionStorage`. Storage is a map
  of structured values. Three parse failures are kept: a stored user that
  does not parse (`Browser.Stored.Text`), a processing-session log that does
  not parse (`MapsPage.StoredLog.Corrupt`), and a server reply that does not
  parse (`DoctorReports.Reply.Unparsable`). String escaping in
  `Browser.UserJsonText` is not modelled.
- Browser.Stored: text under the `user` key that parses to something other
  than a user record (`null`, `{}`) is not modelled. The source then sets
  that value as the user and ends loading; the model treats every stored
  text that is not a user record as a parse failure.
- Text.Lower: ASCII case mapping only. JavaScript's full Unicode mapping
  (`É` to `é`, or `İ`, whose lower case is two characters long) is not
  modelled.
- Signup.SignupRecord: the username is the first name with ASCII letters
  lowered, through `Text.Lower`; non-ASCII letters keep their case.
- Time and randomness: `Date.now`, `new Date()`, `setTimeout`,
  `requestAnimationFrame`, and the `Math.random` session ids. Each is a
  parameter. A timer firing is an explicit method (`Chat.ChatPage.DeliverReply`).
- Invalid dates. A report's `created_at` is a record of its text, its
  milliseconds, and its year and month.
- Floating point:
  - areas, confidences and their sums are exact reals;
  - `Landing.CounterValue` uses exact rational arithmetic where JavaScript
    divides in floating point;
  - `toFixed` and `toLocaleString` are not modelled.
- Geolocation coordinates reach `Onboarding.Located` as the strings the
  template literal renders.
- Concurrency and React scheduling:
  - two clicks on a login button while one is in flight;
  - effect re-runs and re-render timing;
  - the cross-tab `storage` event listener on the results page.
- Sorting: `Sorting.SortedPermutation` proves the result sorted and a
  permutation as a new sequence. The source sorts the array in place.
- The responsive `isMobile` hook of the landing page is a parameter. The
  three counters' React setters are not kept: `Landing.AnimateCounter`
  returns the values it would set.
- DoctorReports.Page.FetchData does not model the source's truthy non-array
  `reports` body case. The source stores such a body as is and fails when
  rendering. The model leaves the reports unchanged there.
- DoctorReports.StatusLabel takes a string: a missing status renders as an
  empty badge in the source.
- DoctorReports.PatientLabel does not claim that an id equal to "Unknown"
  is told apart from a missing one, since the source renders both alike.
- Mapbox rendering, random marker placement, camera capture, and the static
  or styling-only pages are outside the modelled core.
