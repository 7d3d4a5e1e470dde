# FollowBoost core, modelled in Dafny

FollowBoost is a Next.js dashboard on a hosted Postgres database (Supabase)
with which a consultant keeps a list of clients and writes follow-up e-mails
after meetings. Each follow-up is sent now, scheduled for later, or kept as a
draft. This project models the logic behind that dashboard:

- **Follow-up form** (`followup_form.dfy`):
  - the half-hour time slots of the schedule picker;
  - the "[Client Name]" substitution in the generated draft;
  - the ordered validation guards of the submit handler and the record it writes for each delivery option.
- **Dashboard** (`dashboard.dfy`): the seven monthly buckets of the activity chart, built through an insertion-ordered map, and the month-over-month figures of the stat cards.
- **Chart tooltip** (`overview.dfy`): the open rate of a chart bar.
- **Client and follow-up tables** (`client_list.dfy`, `followup_list.dfy`): the case-insensitive search filters, the empty-state rows, the status badge, the status-dependent row actions and the delete confirmation.
- **Edge functions** (`send_followup.dfy`, `generate_followup.dfy`): request validation, the status update, and the HTTP answer for every path.
- **Letter template** (`letter.dfy`, `openai.dfy`): the follow-up letter shared by the two template builders.
- **New-client page** (`new_client.dfy`): the submit handler's trim validation and its create payload.

Supporting modules model what the core takes from JavaScript:

- **`Text`**: `toLowerCase`, `includes`, `replace` with a string pattern, and `trim`.
- **`Rounding`**: `Math.round`.
- **`Seqs`**: `Array.prototype.filter`.
- **`Records` and `Http`**: the client row and the request and response shapes.

The database is a map from row id to row, held by a class whose methods insert, update or delete one row. A query's answer, or the error it reports, is a parameter. So are the signed-in user, the current instant, and whether an edge function's database client can be created.

Where the code and the product's description disagree, the model follows the code:

- **Past schedules.** A follow-up scheduled for a time already past is written as is (`FollowupForm.PastScheduleIsWritten`). The calendar only offers today and later days, but the handler checks nothing about the instant.
- **Mismatched columns.** The send-followup function reads and writes `sent_date`/`scheduled_date`. The form writes `sent_at`/`scheduled_at`. Each is modelled with its own columns.
- **The submitting flag.** The new-client page raises `isSubmitting` and never lowers it after a create attempt.
- **Month keys.** The chart keys months by their short name, which names a month of the year only. It is modelled as the month index modulo 12.

## Model

| member | source | states |
|---|---|---|
| Text.LowerOfUpper | components/dashboard/client-list.tsx:49-51 | lower-casing forgets the case of the text: `Lower(Upper(s)) == Lower(s)` and lower-casing is idempotent |
| Text.FindFrom | components/dashboard/client-list.tsx:49-51 | the result is the first position at or after `from` where the pattern occurs; `None` means it occurs nowhere there |
| Text.IncludesIff | components/dashboard/client-list.tsx:49-51 | `includes` holds iff the pattern occurs at some position |
| Text.IncludesEmpty | components/dashboard/client-list.tsx:49-51 | every string includes the empty string |
| Text.ReplaceFirstAt | components/dashboard/followup-form.tsx:106-109 | `replace` with a string pattern splices the replacement in at the first occurrence only, keeping both sides |
| Text.TrimStart | app/dashboard/clients/new/page.tsx:33 | the result is a suffix of the input and everything cut off before it is white space; it is empty iff the input is all white space, and otherwise does not start with white space |
| Text.TrimEnd | app/dashboard/clients/new/page.tsx:33 | the result is a prefix of the input and everything cut off after it is white space; it is empty iff the input is all white space, and otherwise does not end with white space |
| Text.Trim | app/dashboard/clients/new/page.tsx:33 | `trim()` is empty iff the input is all white space; otherwise neither end is white space |
| Text.TrimSpec | app/dashboard/clients/new/page.tsx:33 | `trim()` is the input with a white-space prefix and a white-space suffix cut off |
| Rounding.Round | components/dashboard/overview.tsx:96 | `Math.round` lands within half a unit of its argument, halves going up |
| Rounding.RoundUnique | components/dashboard/overview.tsx:96 | the nearest-integer property determines the rounded value |
| Rounding.RoundMonotone | app/dashboard/page.tsx:165-166 | rounding preserves order |
| Rounding.RoundPercent | app/dashboard/page.tsx:165 | a percentage in [0, 100] rounds to a whole percentage in 0..100 |
| Records.ClientTable.Insert | app/dashboard/clients/new/page.tsx:48-55 | inserting stores the row under its id and leaves every other row alone |
| Records.ClientTable.Delete | components/dashboard/client-list.tsx:63 | deleting removes exactly the row with that id |
| Seqs.Filter | components/dashboard/client-list.tsx:47-52 | `filter` keeps exactly the elements passing the test, in their original order (a subsequence), never more than the input |
| Seqs.FilterCount | components/dashboard/client-list.tsx:47-52 | every element passing the test is kept as often as it occurs in the input, and no other element is kept |
| Seqs.FilterIdempotent | components/dashboard/client-list.tsx:47-52 | filtering twice with the same test is filtering once |
| Seqs.FilterCongruent | components/dashboard/client-list.tsx:47-52 | two tests that agree on every element select the same elements |
| Seqs.FilterEmptyIff | components/dashboard/client-list.tsx:191 | the filtered list is empty iff no element passes |
| FollowupForm.Pad2 | components/dashboard/followup-form.tsx:82 | `padStart(2, "0")` of a number below 100 is two digits whose decimal value is that number |
| FollowupForm.TimeSlotParses | components/dashboard/followup-form.tsx:79-83 | slot `i` reads back, as `HH:MM`, as hour `9 + i/2` and minute 0 or 30 |
| FollowupForm.TimeSlotsShape | components/dashboard/followup-form.tsx:79-83 | there are 19 slots from "09:00" to "18:00"; slot `i` is minute `540 + 30i` of the day; the slots strictly increase |
| FollowupForm.TimeSlots | components/dashboard/followup-form.tsx:79-83 | the picker's slot list; its shape is stated by TimeSlotsShape and TimeSlotParses |
| FollowupForm.ParseClock | components/dashboard/followup-form.tsx:164-165 | reads `HH:MM` into hours and minutes, `None` for any other text (see "Left out") |
| FollowupForm.FindClient | components/dashboard/followup-form.tsx:125 | `find` returns the first client with the id, and `None` iff no client has it |
| FollowupForm.GeneratedEmail | components/dashboard/followup-form.tsx:101-110 | the draft put in the editor; stated by GeneratedEmailShape |
| FollowupForm.GeneratedEmailShape | components/dashboard/followup-form.tsx:101-110 | the generated draft is the sample with the first "[Client Name]" (right after "Dear ") replaced by the client's name and the rest kept; the sample itself when no client has the id |
| FollowupForm.StatusMapping | components/dashboard/followup-form.tsx:175-180 | "now" gives "sent", "draft" gives "draft", every other option gives "scheduled", each in both directions |
| FollowupForm.StatusFor | components/dashboard/followup-form.tsx:175-180 | the status written for a delivery option; stated by StatusMapping |
| FollowupForm.FirstFailedGuard | components/dashboard/followup-form.tsx:125-151 | the first of the three early returns that applies; stated by ClientCheckedFirst and WriteNeedsGuards |
| FollowupForm.ScheduleFor | components/dashboard/followup-form.tsx:161-167 | the picked day at the picked time for "later", nothing otherwise; stated by WrittenRecord |
| FollowupForm.NewRecord | components/dashboard/followup-form.tsx:169-183 | the record handed to `createFollowup`; stated by WrittenRecord |
| FollowupForm.Submission | components/dashboard/followup-form.tsx:122-220 | where the submit handler ends; stated by WriteNeedsGuards, WrittenRecord and FollowupFormState.Submit |
| FollowupForm.ClientCheckedFirst | components/dashboard/followup-form.tsx:125-133 | an unknown client or one without an e-mail is rejected before any other check |
| FollowupForm.WriteNeedsGuards | components/dashboard/followup-form.tsx:125-183 | a record is written iff the client is valid, client/subject/body are non-empty, a "later" option has date and time, a user is signed in, the time parses and the insert succeeds |
| FollowupForm.WrittenRecord | components/dashboard/followup-form.tsx:161-183 | a written record is unopened and carries the form's values; `sent_at` is set exactly for "now" (to the current instant); `scheduled_at` exactly for "later" (the picked day at the picked time) |
| FollowupForm.PastScheduleIsWritten | components/dashboard/followup-form.tsx:144-167 | a "later" follow-up at a time of today that has already passed is written with that past instant |
| FollowupForm.FollowupTable.Insert | components/dashboard/followup-form.tsx:169-183 | inserting stores the record under the id the database returned |
| FollowupForm.FollowupFormState.constructor | components/dashboard/followup-form.tsx:68-76 | the form starts empty, with "now" and "09:00" selected and not submitting |
| FollowupForm.FollowupFormState.Generate | components/dashboard/followup-form.tsx:88-120 | without client or meeting context nothing changes; otherwise the editor holds the generated draft for the selected client |
| FollowupForm.FollowupFormState.Submit | components/dashboard/followup-form.tsx:122-220 | the outcome follows the guards, the user, the schedule and the insert in order; the table gains exactly the written record; the flag is down afterwards unless a guard returned early |
| Dashboard.TrackedKeysDistinct | app/dashboard/page.tsx:71-75 | months fewer than twelve apart have different keys, so the seven tracked months are distinct |
| Dashboard.KeyIndex | app/dashboard/page.tsx:82-83 | `has`/`get` find the first entry with the key, or report that none has it |
| Dashboard.PutPosition | app/dashboard/page.tsx:74 | `Map.set` updates an existing key in place and appends a new one, keeping keys distinct |
| Dashboard.Put | app/dashboard/page.tsx:74 | `Map.set` on an insertion-ordered map; stated by PutPosition |
| Dashboard.Chart | app/dashboard/page.tsx:67-100 | the seven buckets `getChartData` returns; stated by ChartBuckets, ChartAddRow, ChartOpenedAtMostSent and ChartSentTotal |
| Dashboard.ChartData | app/dashboard/page.tsx:67-100 | the three loops return exactly `Chart`: seven buckets, oldest month first, each counting the sent and opened rows of its month |
| Dashboard.GetChartData | app/dashboard/page.tsx:48-100 | a query that reports an error gives the empty chart; otherwise exactly `Chart` of the returned rows, seven buckets |
| Dashboard.ChartBuckets | app/dashboard/page.tsx:71-75 | exactly seven buckets with distinct keys, the last one the current month, bucket `j` being `6 - j` months back |
| Dashboard.ChartOfNoRows | app/dashboard/page.tsx:70-75 | without rows every bucket is zero |
| Dashboard.ChartAddRow | app/dashboard/page.tsx:78-91 | one more row bumps `sent` of its month's bucket, and `opened` iff it was opened; every other bucket stays the same, and so does every bucket when the month is untracked |
| Dashboard.OpenedAtMostSent | app/dashboard/page.tsx:84-89 | a month never counts more opened rows than sent rows |
| Dashboard.ChartOpenedAtMostSent | app/dashboard/page.tsx:84-89 | in every bucket, opened is at most sent |
| Dashboard.TrackedRows | app/dashboard/page.tsx:82 | the rows in tracked months are no more than the rows |
| Dashboard.SumSentBump | app/dashboard/page.tsx:84-89 | bumping the bucket with a key raises the total by one if some bucket has that key, by nothing otherwise |
| Dashboard.ChartSentTotal | app/dashboard/page.tsx:78-91 | the buckets' sent counts add up to the number of rows in tracked months, hence never to more than the rows |
| Dashboard.OpenedCountBound | app/dashboard/page.tsx:143 | the opened rows are no more than the rows |
| Dashboard.OpenedCountAppend | app/dashboard/page.tsx:143 | one more row adds one opened row iff it was opened |
| Dashboard.OpenRateRange | app/dashboard/page.tsx:142-152 | the unrounded rate lies in [0, 100]; it is 0 for a failed or empty query, and otherwise opened/total times 100 |
| Dashboard.GetStats | app/dashboard/page.tsx:103-169 | the figures of the stat cards; stated by StatsRanges and RateChangeIsNotDifferenceOfRounded |
| Dashboard.StatsRanges | app/dashboard/page.tsx:154-168 | the shown rate is 0..100 and its change -100..100, the change being the rounded difference of the exact rates (not of the rounded ones); the totals and deltas count a failed query as zero |
| Dashboard.RateChangeIsNotDifferenceOfRounded | app/dashboard/page.tsx:165-166 | 1 of 3 against 1 of 6 shows rate 33 and change 17, while last month alone rounds to 17, so the change is not 33 - 17 = 16 |
| Overview.TooltipOpenRateCases | components/dashboard/overview.tsx:88-99 | the rate is 0 unless `sent` is a positive number and `opened` a number; otherwise it is within half a unit of opened/sent times 100 |
| Overview.TooltipOpenRate | components/dashboard/overview.tsx:88-99 | the rate shown in the tooltip; stated by TooltipOpenRateCases and TooltipOpenRateRange |
| Overview.TooltipOpenRateRange | components/dashboard/overview.tsx:96 | for `0 <= opened <= sent` the rate lies in 0..100 |
| Overview.ChartBucketRate | components/dashboard/overview.tsx:84-99 | every bucket of the dashboard chart shows a rate in 0..100 |
| Overview.TooltipShownIff | components/dashboard/overview.tsx:78-107 | nothing is rendered unless the tooltip is active with a non-empty payload; a shown tooltip has the first two bars and their rate |
| Overview.Tooltip | components/dashboard/overview.tsx:78-107 | what the tooltip renders; stated by TooltipShownIff |
| ClientList.FilterClientsSpec | components/dashboard/client-list.tsx:47-52 | a client is kept iff the lower-cased term occurs in its lower-cased name, e-mail or company; the kept clients keep their order and their number of occurrences |
| ClientList.Matches | components/dashboard/client-list.tsx:49-51 | the test of `filteredClients`; stated by FieldMatchesIff and MissingCompanyNeverMatches |
| ClientList.FilterClients | components/dashboard/client-list.tsx:47-52 | `filteredClients`; stated by FilterClientsSpec |
| ClientList.FieldMatchesIff | components/dashboard/client-list.tsx:49-51 | a field matches iff it is present and the lower-cased term occurs in it at some position |
| ClientList.MissingCompanyNeverMatches | components/dashboard/client-list.tsx:51 | a client without a company matches on name or e-mail only |
| ClientList.FilterIgnoresTermCase | components/dashboard/client-list.tsx:49-51 | upper- or lower-casing the term does not change the result |
| ClientList.EmptyTermKeepsClientsWithAField | components/dashboard/client-list.tsx:47-52 | the empty term keeps exactly the clients with a name, an e-mail or a company |
| ClientList.FilterClientsIdempotent | components/dashboard/client-list.tsx:47-52 | searching the filtered list again with the same term changes nothing |
| ClientList.NoClientsRowIff | components/dashboard/client-list.tsx:191-197 | "No clients found." appears iff no client matches |
| ClientList.SearchExample | components/dashboard/client-list.tsx:47-52 | searching "ALEX" among Alex Johnson and Sam Lee keeps Alex Johnson only |
| ClientList.ConfirmDelete | components/dashboard/client-list.tsx:59-79 | without a selected client nothing happens; a failed delete changes nothing; otherwise exactly the selected client's row is removed |
| FollowupList.FilterFollowupsSpec | components/dashboard/followup-list.tsx:39-48 | a follow-up is kept iff the lower-cased term occurs in its client's name or e-mail or in its subject; order and number of occurrences are kept |
| FollowupList.Matches | components/dashboard/followup-list.tsx:41-47 | the test of `filteredFollowups`; stated by NoClientMatchesOnSubject |
| FollowupList.FilterFollowups | components/dashboard/followup-list.tsx:39-48 | `filteredFollowups`; stated by FilterFollowupsSpec |
| FollowupList.NoClientMatchesOnSubject | components/dashboard/followup-list.tsx:41-47 | without a joined client only the subject can match |
| FollowupList.NoFollowupsRowIff | components/dashboard/followup-list.tsx:190-196 | "No follow-ups found." appears iff nothing matches |
| FollowupList.StatusDisplayCases | components/dashboard/followup-list.tsx:50-96 | each known status gets its badge ("opened" following `is_opened`, a scheduled row without a time showing now); any other status shows verbatim |
| FollowupList.StatusDisplay | components/dashboard/followup-list.tsx:50-96 | the status badge; stated by StatusDisplayCases |
| FollowupList.RowActionsByStatus | components/dashboard/followup-list.tsx:160-185 | "Send Now" appears iff draft, "Resend" iff sent, never both; view, edit and delete always |
| FollowupList.RowActions | components/dashboard/followup-list.tsx:160-185 | the row's menu entries; stated by RowActionsByStatus |
| Letter.JoinShape | lib/openai.ts:16-28 | a letter built from head, clause, tail and signature starts with the head, includes the clause and ends with the signature |
| Letter.ComposeShape | lib/openai.ts:16-28 | the letter starts with `Dear <name>,`, includes `Based on our conversation about <context>,` and ends with `<userName>\n<userEmail>`, for any inputs |
| Letter.Compose | lib/openai.ts:16-28 | the letter template; stated by ComposeShape |
| OpenAi.GenerateFollowupEmail | lib/openai.ts:4-35 | the `{content}` returned starts with the salutation, carries the context clause and ends with the signature, with no validation of the inputs |
| OpenAi.EmptyInputsAccepted | lib/openai.ts:10-30 | empty inputs still give a letter that opens `Dear ,` and ends with a line break |
| GenerateFollowup.Handle | supabase/functions/generate-followup/index.ts:17-78 | a request is answered 204 iff it is a preflight; every answer is 200, 204, 400 or 500 |
| GenerateFollowup.HandleCases | supabase/functions/generate-followup/index.ts:26-42 | 500 iff the client cannot be created or the body cannot be read; otherwise a falsy `clientName` or `meetingContext` gives 400 "Missing required fields"; 200 iff neither failure happens and both are truthy |
| GenerateFollowup.SuccessContent | supabase/functions/generate-followup/index.ts:32-66 | for any truthy `clientName` and `meetingContext` (strings or `true`), the 200 answer carries `{content}`: the letter addressed to the client's template text, quoting the context, signed with the sender's name and address |
| GenerateFollowup.SignatureDefaults | supabase/functions/generate-followup/index.ts:32 | an absent `userEmail` or `userName` becomes `you@example.com` or `Your Name`; a given string is kept; an explicit `null` prints as `null` |
| GenerateFollowup.LetterFor | supabase/functions/generate-followup/index.ts:32-58 | the letter for a body that passed the check; stated by SuccessContent and SignatureDefaults |
| SendFollowup.FollowupStore.Update | supabase/functions/send-followup/index.ts:77-80 | the update rewrites exactly the row with that id |
| SendFollowup.Handle | supabase/functions/send-followup/index.ts:15-115 | the answer and the new rows are those of `Decide`, `ResponseFor` and `RowsAfter` for the request and the old rows |
| SendFollowup.SendNowDefault | supabase/functions/send-followup/index.ts:30 | `sendNow` is true when absent; otherwise it is its truthiness, so an explicit `null` schedules |
| SendFollowup.PreflightTouchesNothing | supabase/functions/send-followup/index.ts:17-22 | a preflight gets 204 with no body and writes nothing |
| SendFollowup.MissingIdBeforeLookup | supabase/functions/send-followup/index.ts:32-40 | a falsy `followupId` gets 400 "Missing followupId" whatever the store holds or reports, and writes nothing |
| SendFollowup.UnknownIdIsNotFound | supabase/functions/send-followup/index.ts:43-57 | a failed lookup, or an id naming no row with a client, gets 404 "Followup not found" and writes nothing |
| SendFollowup.UpdateExact | supabase/functions/send-followup/index.ts:62-75 | sending now sets exactly status "sent" and `sent_date` to now; otherwise exactly status "scheduled" and `scheduled_date` to the existing non-empty one or now; other columns are kept |
| SendFollowup.SuccessMatchesStore | supabase/functions/send-followup/index.ts:77-103 | 200 iff the row was updated; the answer's `status` is the one now stored and its message follows `sendNow`; an update error gives 500 and writes nothing |
| SendFollowup.ResponseCodes | supabase/functions/send-followup/index.ts:26-113 | a client that cannot be created or a body that cannot be read gives 500 "Internal server error"; every answer is 200, 204, 400, 404 or 500 |
| SendFollowup.SentOnlyWhenSendNow | supabase/functions/send-followup/index.ts:62-75 | a row becomes "sent" only through a request whose `sendNow` is truthy or absent |
| SendFollowup.Lookup | supabase/functions/send-followup/index.ts:43-57 | the joined row the lookup returns; stated by UnknownIdIsNotFound |
| SendFollowup.UpdateFor | supabase/functions/send-followup/index.ts:62-75 | the `updateData` object; stated by UpdateExact |
| SendFollowup.Decide | supabase/functions/send-followup/index.ts:26-113 | the path through the handler's early returns; stated by PreflightTouchesNothing, MissingIdBeforeLookup, UnknownIdIsNotFound, SuccessMatchesStore and ResponseCodes |
| SendFollowup.ResponseFor | supabase/functions/send-followup/index.ts:32-113 | the answer sent for each path; stated by SuccessMatchesStore and ResponseCodes |
| SendFollowup.RowsAfter | supabase/functions/send-followup/index.ts:77-80 | the rows after the request; stated by UpdateExact and SuccessMatchesStore |
| NewClient.AcceptsIff | app/dashboard/clients/new/page.tsx:33-41 | a form is accepted iff both e-mail and name hold a character that is not white space |
| NewClient.Accepts | app/dashboard/clients/new/page.tsx:33-41 | the check before the create call; stated by AcceptsIff |
| NewClient.PayloadFields | app/dashboard/clients/new/page.tsx:48-55 | the payload carries e-mail and name as typed; missing optional inputs and a missing user become `""` |
| NewClient.PayloadFor | app/dashboard/clients/new/page.tsx:48-55 | the create payload; stated by PayloadFields |
| NewClient.PaddedNameIsSentRaw | app/dashboard/clients/new/page.tsx:33 | a name and an e-mail padded with spaces pass the check and are sent with their spaces |
| NewClient.SubmitResultCases | app/dashboard/clients/new/page.tsx:57-78 | "Required" iff the form is rejected; success iff accepted and the store returns a non-empty id; a thrown error or an empty id gives "Failed to add client" |
| NewClient.SubmitResultFor | app/dashboard/clients/new/page.tsx:57-78 | the toast the handler ends with; stated by SubmitResultCases |
| NewClient.NewClientPage.Submit | app/dashboard/clients/new/page.tsx:26-79 | a rejected form clears the flag and writes nothing; otherwise the flag stays raised and the returned row is inserted, even under an empty id |

## Left out

- Rendering: JSX, toasts, `router.push`/`refresh` and layout have no logic beyond what is modelled.
- Authentication: sessions are left out. The signed-in user is a parameter.
- Data access: query building and the pass-through data-access helpers are left out. A query's rows, or the error it reports, are parameters (`None` for an error).
- E-mail delivery: the Resend route and hook are not part of this model. Nothing in the core sends mail.
- Time: clocks and `setTimeout` are left out. The two-second delay of draft generation is not modelled, and the current instant is a parameter.
- Formatting: locale date and time formatting, time zones and daylight saving are left out. Relative times and the New York badge format are not modelled, and instants are plain numbers or opaque strings.
- Month names: the chart's month names are the month index modulo 12. As on the page, a row from a month twelve months after a tracked one (the query bounds `sent_at` from below only) is counted in that tracked month's bucket.
- Numbers: IEEE floating point is replaced by exact reals. The rates are exact quotients, so the error of the last bit of a double is not modelled.
- Unicode: case mapping and `trim` cover ASCII letters and the ECMAScript white-space list only. Non-ASCII letters are left unchanged by `toLowerCase`.
- `replace` patterns: special `$` sequences in the replacement text are not interpreted. A client name containing `$&` is inserted literally.
- JSON values: bodies hold absent, `null`, booleans and strings. A numeric `followupId` or `clientName` is not modelled.
- FollowupForm.ParseClock: accepts exactly the `HH:MM` shape the picker produces. Any other time string takes the "Invalid time value" path, though JavaScript would parse some of them (e.g. "9:5").
- Overview.Tooltip: a one-entry payload is modelled as the `Thrown` result, standing for the `TypeError` that rendering would raise.
- SendFollowup.Lookup: an id that is not a string takes the 404 path, as the database rejects comparing the id column with it.
- Environment: both edge functions create their database client inside the `try`, and `createClient` throws on the empty URL an unset variable leaves. That throw is the `initFails` parameter of GenerateFollowup.Handle and SendFollowup.Decide, answered 500; which variables are set is not modelled.
- Text.Trim: its own contract gives only emptiness and the non-white ends; that the result is the input with white-space ends cut off is stated by Text.TrimSpec, kept apart so that callers of `Trim` do not carry its existential.
- Seqs.Filter: its own contract does not fix how often an element is kept; Seqs.FilterCount states it, kept apart because a quantifier over all values in Filter's own contract makes its verification exceed the solver's resource limit.
- FollowupList.Matches: the joined client's `full_name` and `email` are taken to be non-null. On a NULL one, `clients?.full_name.toLowerCase()` would throw while the list renders, and that throw is not modelled.
- Null columns: a client column holding SQL `NULL` is `None`; `replace` renders it as "null" in the draft. A property missing from the row object altogether (which would render "undefined") is not modelled, since the query returns every column.
