# Job tracker core in Dafny

A model of the backend of a personal job-search tracker. Signed-in users keep job
applications and networking contacts. Every change to either is written to an activity log,
and the backend derives statistics and application streaks from the stored records.

The model covers:

- **Applications**: the `applications` collection, modelled as the class `AppStore`. It covers
  status validation, the defaults a new record receives, the unique index on
  (user, company, role, date applied), the `$set` update with protected fields, and deletion.
- **Activity logger**: the comparison of six tracked fields between the old and new application,
  the summaries it composes, and one log entry per change. The salary range is compared by its
  `JSON.stringify` text. For ranges that hold only `min` and `max`, written in that order, the
  model proves that this is the same as comparing by value.
- **Activity log**: the log collection, modelled as the class `LogStore`. Entries are
  append-only, and the only in-place edit is the user's note. It also covers the three queries
  (newest first) and the capped feed, including Mongo's `.limit` rules.
- **Application statistics**: counts by status, the response rate per source, and the rounded
  mean number of days per stage.
- **Streaks**: the current and longest runs of consecutive application days. Both loops are
  proved against recursive definitions.
- **Network contacts**: the `network` collection, modelled as the class `ContactStore`. It
  covers `metAt` and date validation, normalisation of text, defaults, the update document, and
  the statistics by company and by meeting place.
- **Route handlers**: the status code of every outcome, and the log entries each handler
  appends. This includes the field-by-field change log of a contact update.

Requests, ids and time are modelled as follows:

- A body key is `Missing`, `Null` or `Given(v)`. JavaScript truthiness and `x || d` are stated
  on that.
- Object ids are natural numbers.
- A route parameter that is not a valid object id is `None`.
- Instants are integers in milliseconds.
- A calendar day is `ms / 86400000`.
- The current time is passed in as `now`.
- Log timestamps come from a counter in the log store. This counter is strictly increasing, so
  "newest first" is a total order.

On update, `updateNetworkContact` lowercases only the email, and trims the name, company and
role without lowercasing them (`Network.PatchedNormalises`).

## Model

| member | source | states |
|---|---|---|
| Common.DayBefore | backend/models/Application.js:246-247 | the instant one day earlier falls on the previous calendar day, and a day number brackets its instant |
| Text.Trim | backend/models/Network.js:35 | the result is the middle of the input with only white space cut at both ends, and starts and ends with a non-space |
| Text.TrimIdempotent | backend/models/Network.js:106-109 | trimming an already trimmed value changes nothing |
| Text.Lower | backend/models/Network.js:36 | lower-casing keeps the length, leaves no upper-case ASCII letter and leaves every other character alone |
| Text.EmailNormal | backend/models/Network.js:107 | a stored email is its own trim and its own lower case |
| Json.NumberTextInjective | backend/utils/activityLogger.js:38 | two nullable bounds print alike only when they are equal |
| Json.StringifyInjective | backend/utils/activityLogger.js:37-38 | two salary ranges of `min` and `max`, written in that order, have the same JSON text exactly when they are equal |
| Grouping.TallyCounts | backend/models/Application.js:136 | counting one more document raises only its own key's count, by one |
| Grouping.TallyKeys | backend/models/Application.js:136 | counting one more document adds exactly its key to the keys |
| Grouping.TallyDistinct | backend/models/Application.js:136 | counting one more document keeps the group keys distinct |
| Grouping.TallyPositive | backend/models/Application.js:136 | counting one more document keeps every count positive |
| Grouping.GroupCount | backend/models/Application.js:136 | a counting `$group` yields distinct keys, exactly the values present, each with its number of occurrences, summing to the input size |
| Grouping.GroupCountExact | backend/models/Application.js:136 | each output group holds the number of occurrences of its key, at least one |
| Grouping.ToMap | backend/models/Application.js:206-209 | the reduce into an object has the group keys as keys and, with distinct keys, each group's count |
| Grouping.CountMapSpec | backend/models/Application.js:206-209 | group-then-reduce maps exactly the present values, each to its number of occurrences |
| Grouping.InsertByCountPermutes | backend/models/Network.js:177 | inserting a group adds exactly that group to the multiset |
| Grouping.InsertByCountSorted | backend/models/Network.js:177 | inserting into groups ordered by descending count keeps them ordered |
| Grouping.SortByCount | backend/models/Network.js:177 | `$sort: {count: -1}` is a permutation ordered by descending count |
| ActivityLog.LogStore.Append | backend/models/ActivityLog.js:4-21 | appends exactly one entry with the next id and a later timestamp, leaving the others alone |
| ActivityLog.CreateActivityLog | backend/models/ActivityLog.js:4-21 | stores the argument with `changes` defaulting to null and `userNote` to "", after every existing entry |
| ActivityLog.Shapes | backend/models/ActivityLog.js:7-17 | the shaped records of a run of arguments, position by position |
| ActivityLog.SelectMembers | backend/models/ActivityLog.js:23-37 | a query returns exactly the matching entries |
| ActivityLog.SelectNewestFirst | backend/models/ActivityLog.js:27-35 | on a store in insertion order, a query's result is in strictly decreasing timestamp order |
| ActivityLog.SelectSpec | backend/models/ActivityLog.js:23-37 | a query returns exactly the matching entries, newest first |
| ActivityLog.FindByEntityType | backend/models/ActivityLog.js:23-29 | returns exactly the user's entries of that entity type, newest first |
| ActivityLog.FindByEntityId | backend/models/ActivityLog.js:31-37 | returns every entry about the entity, whoever owns it, newest first |
| ActivityLog.LogStore.Locate | backend/models/ActivityLog.js:41-45 | finds an entry with that id owned by the user, or proves there is none |
| ActivityLog.LogStore.UpdateNote | backend/models/ActivityLog.js:39-47 | None exactly when the user owns no entry with that id; otherwise only that entry's note changes and the updated entry is returned |
| ActivityLog.NoteUpdatePreserves | backend/models/ActivityLog.js:41-45 | a note update keeps every id, timestamp and record apart from that note, and the store's order |
| ActivityLog.FindAllSpec | backend/models/ActivityLog.js:49-55 | the feed has as many entries as the limit allows, all the user's, newest first, and no entry it omits is newer than one it holds |
| Applications.NewRecord | backend/models/Application.js:27-40 | the given id, owner and date; trimmed company and role; a sent status, source, notes, salary range and contacts stored as sent, else "applied", "other", "", no salary and no contacts; one creation instant; a valid status unless rejected |
| Applications.FindById | backend/models/Application.js:76-82 | returns a stored record with that id owned by the user, or None when there is none |
| Applications.AfterUpdate | backend/models/Application.js:94-111 | id, owner and creation time unchanged, both update stamps set to now, every other field the sent value or the old one |
| Applications.AppStore.IndexOf | backend/models/Application.js:76-82 | the position of the record matching id and owner, or none exists |
| Applications.AppStore.Create | backend/models/Application.js:14-53 | fails with an invalid status exactly when a truthy status is outside the enum, as a duplicate exactly when the unique key is taken, else appends the new record |
| Applications.AppStore.Update | backend/models/Application.js:84-114 | an invalid status is refused whatever the id; no match changes nothing; a duplicate key is refused exactly when the updated record's key is held by another record; else exactly the owned record is replaced by its update |
| Applications.AppStore.Delete | backend/models/Application.js:116-123 | true exactly when a matching owned record existed, and then exactly that record is removed |
| ActivityLogger.DetectChanges | backend/utils/activityLogger.js:23-54 | the loop's changes and labels are those of the recursive comparison over the six tracked fields |
| ActivityLogger.ChangesOverSpec | backend/utils/activityLogger.js:36-54 | each change is a real difference of a compared field with its own label, and every difference is found |
| ActivityLogger.ChangesKeepOrder | backend/utils/activityLogger.js:27-36 | fields compared in increasing rank give changes in increasing rank |
| ActivityLogger.ChangesInTrackedOrder | backend/utils/activityLogger.js:27-54 | changes come out in the order status, company, role, notes, source, salaryRange |
| ActivityLogger.NoDifferenceNoChanges | backend/utils/activityLogger.js:36-56 | fields that all agree produce no change |
| ActivityLogger.DiffersIsInequality | backend/utils/activityLogger.js:37-46 | the field comparison, by JSON text for the salary range, is inequality of values |
| ActivityLogger.NoChangeIffTrackedSame | backend/utils/activityLogger.js:36-56 | no change exactly when the six tracked fields are equal |
| ActivityLogger.UpdateRecordsChanges | backend/utils/activityLogger.js:56-87 | one `updated` entry per changed tracked field, none when nothing changed, each naming the application and carrying old and new value |
| ActivityLogger.UpdateRecordsCover | backend/utils/activityLogger.js:36-87 | every changed tracked field has an entry |
| ActivityLogger.UpdateRecordsSummaries | backend/utils/activityLogger.js:58-76 | a status entry reads "Status changed from a to b"; a lone other change reads "Updated f"; the rest share "Updated " with the labels joined by ", " |
| ActivityLogger.LogApplicationUpdated | backend/utils/activityLogger.js:16-88 | appends exactly the entries of the comparison, in order, after the existing ones |
| ActivityLogger.CreatedRecord | backend/utils/activityLogger.js:3-14 | a `created` application entry named "company - role" with summary "Added company - role to applications" |
| ActivityLogger.LogApplicationCreated | backend/utils/activityLogger.js:3-14 | appends exactly that one entry |
| ActivityLogger.DeletedRecord | backend/utils/activityLogger.js:90-105 | a `deleted` application entry with summary "Deleted name application" |
| ActivityLogger.LogApplicationDeleted | backend/utils/activityLogger.js:90-105 | appends exactly that one entry |
| ApplicationStats.Owned | backend/models/Application.js:129 | exactly the user's applications |
| ApplicationStats.ByStatusSpec | backend/models/Application.js:131-138 | the keys are exactly the statuses present, each mapped to its number of applications, at least one, the counts summing to the total |
| ApplicationStats.RateBounds | backend/models/Application.js:167-173 | the rate lies in 0 to 100, is 0 for no applications, 100 exactly when all responded and 0 exactly when none did |
| ApplicationStats.CountRespondedBound | backend/models/Application.js:149-159 | responded never exceeds the source's total |
| ApplicationStats.SourceRowsSpec | backend/models/Application.js:141-177 | one row per source, with its number of applications, responded at most total, and the rate of the two |
| ApplicationStats.AsWrittenCountsApplied | backend/models/Application.js:149-159 | as written, responded exceeds a true count by exactly the applications still "applied" |
| ApplicationStats.AsWrittenAlwaysResponded | backend/models/Application.js:149-159 | as written, a source whose statuses are all in the enum always reports every application as responded |
| ApplicationStats.AppliedOnlyCounterexample | backend/models/Application.js:149-173 | one unanswered application: 100% as written, 0% corrected |
| ApplicationStats.RoundedMeanNearest | backend/models/Application.js:211-213 | the rounded mean is within half a day of the true mean, and halves round up |
| ApplicationStats.StatusCount | backend/models/Application.js:196-199 | every present status has at least one application to average over |
| ApplicationStats.AvgDaysPerStageSpec | backend/models/Application.js:179-214 | no "applied" key; the keys are the other statuses present; each value is the rounded mean of their elapsed days |
| ApplicationStats.SourceRowsBySource | backend/models/Application.js:141-177 | the rows name every source present and no other, once each, each with its total, its responded count and their rate |
| ApplicationStats.AsWrittenRows | backend/models/Application.js:141-177 | row by row, the pipeline as written has the same sources and totals, and its responded count exceeds the corrected one by the applications still "applied" |
| ApplicationStats.GetStats | backend/models/Application.js:125-216 | over the user's own applications: the total, byStatus holding exactly the statuses present with their counts, bySource one row per source present with its total, responses past "applied" and rate, and avgDaysPerStage the rounded mean of every later status |
| ApplicationStats.GetStatsAsWritten | backend/models/Application.js:125-216 | as written: the same total, byStatus and avgDaysPerStage, and bySource with the same rows, each counting its still-"applied" applications as responses too |
| Streak.Days | backend/models/Application.js:236 | the calendar day of each date, position by position |
| Streak.InsertDay | backend/models/Application.js:234-240 | adding a day keeps the list strictly decreasing and adds exactly that day |
| Streak.DistinctDaysDesc | backend/models/Application.js:234-240 | each day once, latest first, non-empty for a non-empty history |
| Streak.InsertDayLength | backend/models/Application.js:234-240 | a day already present adds nothing; otherwise the list grows by one |
| Streak.RunFromSpec | backend/models/Application.js:253-267 | the run from a position is a maximal stretch of days exactly one apart |
| Streak.RunFromIs | backend/models/Application.js:253-267 | a stretch of one-day gaps broken at its end is the run |
| Streak.RunEndingWithin | backend/models/Application.js:272-283 | inside a run, the run ending at each later position is at least as long as the distance walked |
| Streak.LongestUpToSpec | backend/models/Application.js:272-285 | the longest run bounds every run and is attained by one |
| Streak.StreakBounds | backend/models/Application.js:229-231 | no dates gives 0 and 0; otherwise the longest streak is at least one and at least the current one |
| Streak.StaleStreak | backend/models/Application.js:246-250 | a latest day before yesterday gives no current streak |
| Streak.ThreeDayExample | backend/models/Application.js:242-287 | today, yesterday and the day before give a current and longest streak of three |
| Streak.GapExample | backend/models/Application.js:242-287 | today and five days ago give a current and longest streak of one |
| Streak.CountCurrent | backend/models/Application.js:249-268 | the first loop computes the run from the latest day |
| Streak.CountLongest | backend/models/Application.js:270-283 | the second loop computes the longest run when it is two or more, else 0 |
| Streak.GetStreak | backend/models/Application.js:218-288 | 0 and 0 without dates; otherwise the current streak from today and the longest run over the distinct days |
| ApplicationRoutes.PickAllowed | backend/routes/applications.js:164-169 | the whitelist loop builds the update of the recursive definition |
| ApplicationRoutes.PickedSpec | backend/routes/applications.js:153-173 | the update never carries id, owner or time stamps, and is empty exactly when no body key is whitelisted |
| ApplicationRoutes.GetOne | backend/routes/applications.js:69-85 | 500 for a malformed id, the owned record if there is one, else 404 and no owned record exists |
| ApplicationRoutes.CreateRoute | backend/routes/applications.js:88-138 | 400 without company, role or date; then 500 exactly for a rejected status, 409 exactly when the new record's unique key is taken, and 201 otherwise, with the shaped record appended and one entry logged |
| ApplicationRoutes.UpdateRoute | backend/routes/applications.js:141-207 | 500, 404, 400 in that order; for an owned record and a non-empty update, 400 exactly for a rejected status, 500 exactly when the updated key is taken, else 200 with only that record replaced by its update and exactly its change entries logged |
| ApplicationRoutes.DeleteRoute | backend/routes/applications.js:210-237 | 500 for a malformed id, 404 when not owned; an owned record is always removed, exactly that one, with one entry under its old name |
| ApplicationRoutes.StreakRoute | backend/routes/applications.js:35-43 | the current and longest streak over the distinct days of the user's own application dates |
| Network.CreateErrorSpec | backend/models/Network.js:27-31 | refused for an invalid `metAt` first, else exactly when a given date does not parse |
| Network.NewRecordNormalised | backend/models/Network.js:33-50 | every new contact has trimmed text, a normalised email and a valid `metAt` |
| Network.NewRecordDefaults | backend/models/Network.js:33-50 | defaults: "other", "", met now, and null follow-up and last-contacted dates |
| Network.PatchedKeeps | backend/models/Network.js:103-131 | an update keeps id, owner and creation time, refreshes `updatedAt` and leaves absent keys alone |
| Network.PatchedNormalises | backend/models/Network.js:106-109 | a sent name, company or role is stored trimmed |
| Network.PatchedEmail | backend/models/Network.js:107 | a sent email is stored trimmed and lower-cased, a form that is its own trim and lower case |
| Network.PatchedMetAt | backend/models/Network.js:94-98 | a sent `metAt` is stored as sent, and only when it is in the enum |
| Network.FindById | backend/models/Network.js:82-89 | the owned contact with that id, or None when there is none |
| Network.ContactStore.IndexOf | backend/models/Network.js:82-89 | the position of the contact matching id and owner, or none exists |
| Network.ContactStore.Create | backend/models/Network.js:24-64 | refused exactly with the first validation error, else the normalised record appended |
| Network.ContactStore.Update | backend/models/Network.js:91-150 | refused exactly with the first validation error; no match changes nothing; else exactly the owned contact is patched |
| Network.ContactStore.Delete | backend/models/Network.js:152-161 | true exactly when an owned contact existed, and then exactly that one is removed |
| Network.Owned | backend/models/Network.js:166-170 | exactly the user's contacts |
| Network.KeysOr | backend/models/Network.js:192-198 | each value with null and "" replaced by the fallback |
| Network.CountBySpec | backend/models/Network.js:172-199 | keys are exactly the fallback-renamed values present, each counted once per contact, summing to the total |
| Network.GetStats | backend/models/Network.js:163-201 | over the user's own contacts: the total, and byCompany and byMetAt holding exactly the values present, with "unknown" and "other" for a missing one, each with its number of contacts |
| Network.GetStatsAsWritten | backend/models/Network.js:163-201 | as written: the same total and keys, the same count for every real value, and for "unknown" and "other" at least one and at most the corrected count |
| Grouping.ToMapLast | backend/models/Network.js:192-198 | a key of the reduced object holds the count of one group carrying that key |
| Network.OccurrencesRenamed | backend/models/Network.js:192-198 | renaming null and "" to the fallback only merges counts: a value's count is at most its key's, and equal unless the key is the fallback |
| Network.CountByAsWrittenKeys | backend/models/Network.js:172-199 | renaming after grouping produces the same keys as renaming before |
| Network.CountByAsWrittenValue | backend/models/Network.js:172-199 | renaming after grouping keeps every count of a real value and can only undercount the fallback |
| Network.RenamedCollide | backend/models/Network.js:192-195 | two groups renamed alike keep only the later count |
| Network.MissingCompanyCounterexample | backend/models/Network.js:172-195 | one "" and one null company: as written "unknown" counts 1, corrected 2 |
| NetworkRoutes.LogActivity | backend/routes/network.js:27-48 | appends exactly one network entry |
| NetworkRoutes.EntityName | backend/routes/network.js:150-152 | the name, followed by " (company)" exactly when the company is non-empty |
| NetworkRoutes.CreatedRecord | backend/routes/network.js:154-161 | a `created` network entry with summary "Added name to network" plus the route's suffix |
| NetworkRoutes.CreateWith | backend/routes/network.js:131-167 | 400 for a short name; then 500 exactly when the store refuses and 201 otherwise, with the normalised record appended and one entry logged |
| NetworkRoutes.CreateRoute | backend/routes/network.js:115-168 | 400 for a name under two characters after trimming; then 500 exactly for an invalid `metAt` or date and 201 otherwise, with the normalised body stored under its trimmed name and one entry logged |
| NetworkRoutes.BridgeContact | backend/routes/network.js:186-196 | `metAt` defaults to "other", notes to "", the contact is met now and has no last-contacted date |
| NetworkRoutes.BridgeRoute | backend/routes/network.js:174-217 | the same checks: 400 for a short name, then 500 exactly for an invalid `metAt` or follow-up date and 201 otherwise, with the contact met now stored and logged with " (from application)" |
| NetworkRoutes.GetOne | backend/routes/network.js:90-109 | 400 for a malformed id, the owned contact if there is one, else 404 and none exists |
| NetworkRoutes.LogChanges | backend/routes/network.js:246-277 | the loop appends exactly the change entries of the nine checked fields, in order |
| NetworkRoutes.ChangeRecordsOverSpec | backend/routes/network.js:260-277 | each entry is for a checked field whose value differs, and every differing field has one |
| NetworkRoutes.NoDifferenceNoRecords | backend/routes/network.js:260-277 | fields that all agree produce no entry |
| NetworkRoutes.ChangeRecordsSpec | backend/routes/network.js:246-277 | no entry exactly when the nine fields agree; each entry is an `updated` network entry with distinct old and new value and summary "Updated name's field" |
| NetworkRoutes.UpdateRoute | backend/routes/network.js:223-284 | 400, 404 in that order; for an owned contact, 500 exactly when the update is invalid, else 200 with only that contact replaced by its patch and exactly its change entries logged |
| NetworkRoutes.DeletedRecord | backend/routes/network.js:310-320 | a `deleted` network entry with summary "Deleted name from network" |
| NetworkRoutes.DeleteRoute | backend/routes/network.js:291-327 | 400, 404; an owned contact is always removed, exactly that one, with one entry under its old name |
| ActivityLogRoutes.ParseLimit | backend/routes/activityLogs.js:46 | a query that does not parse, or parses to 0, gives 50; any other number is kept |
| ActivityLogRoutes.ApplicationLogs | backend/routes/activityLogs.js:16-27 | exactly the user's application entries |
| ActivityLogRoutes.NetworkLogs | backend/routes/activityLogs.js:30-41 | exactly the user's network entries |
| ActivityLogRoutes.Feed | backend/routes/activityLogs.js:44-53 | exactly as many of the user's entries as `.limit` allows for the parsed limit (50 by default), newest first, and none left out is newer than one kept |
| ActivityLogRoutes.EntityLogs | backend/routes/activityLogs.js:56-64 | 500 exactly for a malformed id; else every entry about the entity |
| ActivityLogRoutes.UpdateNoteRoute | backend/routes/activityLogs.js:67-93 | 400 without a note, 500 for a malformed id, 404 exactly when the user owns no such entry; else 200 and only that note changes |

## Left out

- The list routes `GET /api/applications` and `GET /api/network` are not modelled. The same
  goes for `findApplicationsByUserId` and `findNetworkContactsByUserId`. Their filters are
  case-insensitive regular expressions built from user input, and regular-expression matching
  is not modelled.
- `buildUserIdMatch` is not modelled. User ids are strings, and a contact stored under an
  ObjectId-typed owner is not modelled.
- Object ids are counters in the stores. `isValidObjectId` and a failing `new ObjectId(x)` are
  both modelled as a `None` id.
- Database failures, the `catch` blocks that turn them into 500, asynchrony and concurrent
  requests are not modelled. So is the session middleware. Only the 500 answers that come from
  validation errors or malformed ids are modelled.
- `new Date()` is the parameter `now`. Log timestamps come from a counter in the log store.
  Parsing a date text is an input: the parsed instant, or none for an Invalid Date.
- Applications.NewRecord takes `dateApplied` as the instant it denotes. An unparsable
  application date, stored as an Invalid Date, is not modelled.
- An application update that sends `dateApplied` stores the body value unconverted. The model
  stores the instant, so a string date in an updated record is not modelled. The tracker page
  sends `dateApplied` as a "YYYY-MM-DD" text on every edit (frontend/js/tracker.js:172).
- Streak.GetStreak orders days by number, through Streak.DistinctDaysDesc, and so does
  ApplicationRoutes.StreakRoute. The source orders the `toISOString` day texts with
  `.sort().reverse()` (backend/models/Application.js:234-240). The two orders agree only for
  years 0000 to 9999. Outside that range the text is "+010000-…" or "-000001-…", and it sorts
  below every four-digit year. For one application today and one dated in the year 10000, the
  source answers a current and longest streak of 1. The model answers a current streak of 0 and a
  longest streak of 1.
- ApplicationRoutes.StreakRoute always succeeds in the model. In the source, once an edit has
  stored a text `dateApplied`, `toISOString` (backend/models/Application.js:236) throws and
  `GET /streak` answers 500.
- ApplicationStats.GetStats always succeeds in the model. In the source, `$subtract`
  (backend/models/Application.js:186) fails on a stored text `dateApplied`, and `GET /stats`
  answers 500.
- Bodies carry strings, salary ranges with integer bounds, and contact id lists.
  - Numbers or other JSON types sent where a string is expected are not modelled.
  - So is the resulting `String(x)` conversion.
  - Floating-point salary bounds are not modelled.
- Network.ContactStore.Update: `updateNetworkContact` spreads the whole request body into
  `$set`. The model's update document holds only the nine contact fields. Other keys, which the
  source would store as well, are not modelled.
- ActivityLogRoutes.UpdateNoteRoute: a `userNote` sent as null or as a non-string value is not
  modelled. The note is a string or absent.
- `logActivity` stores `changes || undefined`, so network entries without changes have no
  `changes` key, where application entries hold null. Both are `None` in the model.
- NetworkRoutes.CreateRoute checks the name with `NameTooShort`. JavaScript's
  `.trim().length` counts UTF-16 code units, and the model counts Unicode scalar values. A name
  made of one character outside the Basic Multilingual Plane, such as "😀", has length 2 in
  JavaScript and is accepted with 201. The model answers 400.
- NetworkRoutes.BridgeRoute uses the same name check, so it differs in the same way.
- Json.StringifyInjective: `JSON.stringify` writes an object's keys in insertion order, and the
  model always writes `min` before `max`. A stored `{min: 1, max: 5}` compared with a sent
  `{"max": 5, "min": 1}` gives different texts in the source, and the change is logged although
  the values agree. Extra keys in a sent range make the texts differ too. Neither is modelled.
- Entries written in one request often share a `new Date()` millisecond in the source, and
  `.sort({timestamp: -1})` leaves their order unspecified. The model's counter gives them
  distinct timestamps, so its newest-first order is total.
- Lower-casing covers the ASCII letters only. Trimming covers the characters JavaScript treats
  as white space.
- ApplicationStats.Rate is exact real division. Floating-point rounding of the rate is not
  modelled. `avgDaysPerStage` is computed exactly in integers before rounding.
- Mongo's `$group` emits groups in an unspecified order. The model emits them in order of first
  appearance. The `bySource` rows hold the source, total, responded and rate, without the `_id`
  field that `$project` keeps.
- The first streak loop also increments `tempStreak`. That value is reset before it is read
  again (backend/models/Application.js:271), so the model drops the increment.
- The network `GET /stats` and application `GET /stats` handlers only return the store
  functions' results. Their contracts are those of Network.GetStats and ApplicationStats.GetStats.
- The authentication routes, the user model, the database setup and the frontend are not part
  of this model.

## Findings

| source | as written | input that shows it | evidently intended | confidence | as-written member | corrected member |
|---|---|---|---|---|---|---|
| backend/models/Application.js:149-159 | `responded` counts applications whose status is in the status enum, which includes "applied" | one application from "linkedin" with status "applied": responded 1, rate 100 | count only applications whose status moved past "applied" | medium, not executed | ApplicationStats.AppliedOnlyCounterexample | ApplicationStats.SourceRowsSpec |
| backend/models/Network.js:172-199 | groups are formed on the raw company or `metAt`, then renamed with `item._id \|\| "unknown"` (or "other") and written into an object, so a later group overwrites an earlier one renamed alike | two contacts of one user, company "" and company null: byCompany is {unknown: 1} | count both under "unknown" ({unknown: 2}) | medium, not executed | Network.MissingCompanyCounterexample | Network.CountBySpec |

The corrected definitions are `ApplicationStats.BySource` (responses exclude "applied") and
`Network.CountBy` (renaming before grouping). `ApplicationStats.GetStats` and
`Network.GetStats` use them. The as-written definitions are `ApplicationStats.BySourceAsWritten`
and `Network.CountByAsWritten`. The top-level statistics exist in both forms as well:
`ApplicationStats.GetStatsAsWritten` and `Network.GetStatsAsWritten`.
