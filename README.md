# Club attendance tracker — a Dafny model

This project models the logic of a club attendance app. Members check in at a kiosk with their
USN (university serial number). Visitors without a member document register as guests. Either
kind checks out from a status page. Club admins use the admin pages:

- a dashboard;
- the club statistics;
- the all-clubs statistics, for SOSC admins only;
- the member list, with details and add and remove;
- the guest list;
- an account page for renaming and changing the password.

The backend collections are Dafny sequences (or maps, for the kiosk). Each backend query the
pages issue is a function over them. A query keeps collection order. `orderBy(field, "desc")`
drops documents that lack the field, then applies a stable descending sort, so equal
timestamps keep collection order (the backend breaks such ties by document id instead, as noted
under Left out). Each page whose state changes is a class, and each event handler is a method. A handler's contract states its
new state in terms of these query functions. Lemmas then prove what the pages promise: counters
that agree with per-record definitions, searches that keep exactly the matching rows, labels
that determine durations, and sessions that always point to an open attendance record.

Modules:

- `Common`: `Option` and JavaScript's `s || fallback`.
- `Strings`: `trim`, ASCII `toLowerCase`, `includes`, and integer printing.
- `Durations`: `Math.round` to tenths of an hour, and the `"{h}h {m}m"` label with JavaScript's
  truncating `%`.
- `Sorting`: a stable descending insertion sort by an integer key.
- `Records`: the documents, plus the per-record predicates and counts.
- `Batching`: groups of at most 30 ids for the `in` query.
- `Queries`: the backend queries.
- `ClubStats`, `AllStats`, `Dashboard`, `Members`, `Guests`: the admin pages.
- `Kiosk`: the home, guest-registration and status pages. They form one object over the shared
  collections and the stored check-in session.
- `Account`: the account page.

Adding a member uses `setDoc` on the trimmed USN. That write overwrites an existing member
document with the same USN, even one in another club, and reports success (`Members.Upsert`,
`Members.UpsertContents`). The failure message "The USN might already exist" is shown only when
the write itself fails.

## Model

| member | source | states |
|---|---|---|
| Common.Or | app/admin/members/page.tsx:128-131 | `s \|\| fallback`: the string itself when it is non-empty, otherwise the fallback |
| Strings.TrimStart | app/page.tsx:25 | drops leading white space; its meaning is stated by `TrimStartSpec` |
| Strings.TrimStartSpec | app/page.tsx:25 | dropping leading white space keeps a suffix; what it drops is all white space; what it keeps does not start with white space |
| Strings.TrimEnd | app/page.tsx:25 | drops trailing white space; its meaning is stated by `TrimEndSpec` |
| Strings.TrimEndSpec | app/page.tsx:25 | dropping trailing white space keeps a prefix; what it drops is all white space; what it keeps does not end with white space |
| Strings.Trim | app/page.tsx:25 | `s.trim()`, both ends; its meaning is stated by `TrimEmpty`, `TrimEnds`, `TrimIsSlice`, `TrimBounds` and `TrimIdempotent` |
| Strings.TrimEmpty | app/page.tsx:25 | `s.trim()` is empty exactly when every character of `s` is white space |
| Strings.TrimEnds | app/page.tsx:31 | a trimmed non-empty string neither starts nor ends with white space |
| Strings.TrimIsSlice | app/page.tsx:31 | the trimmed string is a slice `s[i..j]` with only white space before `i` and after `j` |
| Strings.TrimBounds | app/page.tsx:31 | the slice bounds: `i` is the number of leading spaces and `j - i` the trimmed length |
| Strings.TrimIdempotent | app/guest-registration/page.tsx:34-37 | trimming an already trimmed field changes nothing |
| Strings.ToLower | app/admin/members/page.tsx:68 | lower-casing keeps the length and maps each character through `LowerChar` |
| Strings.ToLowerIdempotent | app/admin/members/page.tsx:68-73 | lower-casing twice is lower-casing once |
| Strings.Includes | app/admin/members/page.tsx:71-73 | `s.includes(sub)` holds exactly when `sub` occurs at some index of `s` |
| Strings.IncludesEmpty | app/admin/guests/page.tsx:31 | the empty query occurs in every string |
| Strings.NatToString | app/admin/members/page.tsx:183 | a non-negative number prints as at least one decimal digit |
| Strings.IntToString | app/admin/members/page.tsx:183 | a negative number prints as a minus sign followed by digits |
| Strings.ParseNatToString | app/admin/members/page.tsx:183 | reading a printed number back gives the number |
| Strings.NatToStringInjective | app/admin/members/page.tsx:183 | different numbers print differently |
| Durations.RoundDiv | app/admin/stats/page.tsx:128 | `Math.round(n / d)`: the nearest integer, a half rounding up (`2n - d < 2dr <= 2n + d`) |
| Durations.TenthsOfHour | app/admin/stats/page.tsx:128 | `Math.round(hours * 10)` is within half a tenth of an hour of the duration |
| Durations.TenthsOfHourNonNegative | app/admin/stats/page.tsx:128 | a non-negative duration rounds to a non-negative number of tenths |
| Durations.JsRem | app/admin/members/page.tsx:182 | JavaScript `%`: the remainder takes the sign of the dividend and is smaller than the divisor in size |
| Durations.HoursPart | app/admin/members/page.tsx:181 | `Math.floor(diffMs / 3600000)`; for `ms >= 0`, `PartsOfDuration` states it is the number of whole hours |
| Durations.MinutesPart | app/admin/members/page.tsx:182 | `Math.floor((diffMs % 3600000) / 60000)` with the truncating `%`; for `ms >= 0`, `PartsOfDuration` states it is 0 to 59, the whole minutes left |
| Durations.PartsOfDuration | app/admin/members/page.tsx:180-182 | for `ms >= 0` the label's parts are the whole hours and 0 to 59 remaining whole minutes, `h*3600000 + m*60000 <= ms` less than one minute more |
| Durations.DurationText | app/admin/members/page.tsx:183 | the label has at least four characters and starts with a digit or a minus sign |
| Durations.DurationTextIsNotMarker | app/admin/guests/page.tsx:102-104 | a duration label is never "Active", "Still here" or "-" |
| Durations.DurationTextDeterminesParts | app/admin/members/page.tsx:180-183 | two non-negative durations with the same label have the same hours and minutes |
| Durations.TwoAndAHalfHours | app/admin/members/page.tsx:180-183 | 9,000,000 ms is labelled "2h 30m" |
| Sorting.Insert | app/admin/stats/page.tsx:113 | inserting into a descending sequence keeps it descending and adds exactly that element |
| Sorting.SortDesc | app/admin/stats/page.tsx:113 | the sort result is descending by key and a permutation of the input |
| Sorting.SortDescSameElements | app/admin/stats/page.tsx:113 | an element is in the sorted sequence exactly when it is in the input |
| Records.ClosedMs | app/admin/stats/page.tsx:95-97 | a record adds check-out minus check-in when both exist, and 0 otherwise |
| Records.TotalClosedMs | app/admin/stats/page.tsx:95-99 | the summed duration of the closed records; `TotalClosedMsOfOpen` and `TotalClosedMsNonNegative` state what it adds and that it is never negative |
| Records.CountOpen | app/admin/stats/page.tsx:101-103 | the number of open records is at most the number of records |
| Records.CountSince | app/admin/stats/page.tsx:105-107 | the number of records checked in since a time is at most the number of records |
| Records.CountOpenZero | app/admin/stats/page.tsx:101-103 | nobody is counted present exactly when every record has a check-out |
| Records.CountSinceAll | app/admin/stats/page.tsx:105-107 | every record is counted as today's exactly when every one was checked in since midnight |
| Records.TotalClosedMsOfOpen | app/admin/stats/page.tsx:95-99 | records without both times add no duration |
| Records.TotalClosedMsNonNegative | app/admin/stats/page.tsx:95-99 | well-ordered records add up to a non-negative duration |
| Records.LatestCheckIn | app/admin/members/page.tsx:118-120 | the last check-in is absent exactly when no record has one; otherwise it is one record's time and at least every other record's |
| Batching.Chunks | app/admin/stats/page.tsx:70-73 | `ceil(n / 30)` groups |
| Batching.FlattenChunks | app/admin/stats/page.tsx:70-73 | the groups concatenate to exactly the id list, in order |
| Batching.ChunkSizes | app/admin/stats/page.tsx:70-73 | each group holds 1 to 30 ids, within the `in` query's limit |
| Batching.ChunkAt | app/admin/stats/page.tsx:72 | group `k` is `ids.slice(30k, 30k + 30)` |
| Batching.MakeBatches | app/admin/stats/page.tsx:70-73 | the `for` loop builds exactly those groups |
| Queries.MembersOfClub | app/admin/stats/page.tsx:51-55 | `where("club", "==", club)` keeps exactly the documents of that club |
| Queries.Ids | app/admin/stats/page.tsx:56 | the ids of the documents, in order |
| Queries.InBatch | app/admin/stats/page.tsx:76-81 | the batch query returns exactly the member-type records whose user is in the batch |
| Queries.InBatchSince | app/admin/page.tsx:68-74 | the same, restricted to records checked in since midnight |
| Queries.FetchAll | app/admin/stats/page.tsx:75-81 | the batch queries' results, batch after batch; `ClubStats.FetchAllIsOneQuery` and `ClubStats.InBatchUnion` state that batches without a repeated id return each member-type record of their ids exactly once |
| Queries.FetchAllSince | app/admin/page.tsx:67-76 | the same with the check-in condition; `Dashboard.FetchAllSinceCount` states that it returns as many records as the batches' records checked in since then |
| Queries.OfMember | app/admin/members/page.tsx:99-104 | exactly the member-type records of one member |
| Queries.DataOf | app/admin/members/page.tsx:110-111 | the document data, in order |
| Queries.WithCheckIn | app/admin/page.tsx:98-101 | `orderBy("checkIn")` returns exactly the documents that have a check-in time |
| Queries.ByCheckInDesc | app/admin/page.tsx:98-102 | those documents sorted newest first, as a permutation of them |
| Queries.WithCreatedAt | app/admin/guests/page.tsx:50 | exactly the guest documents that have a creation time |
| Queries.GuestsByCreatedDesc | app/admin/guests/page.tsx:50 | those documents, newest first, as a permutation of them |
| ClubStats.Bump | app/admin/stats/page.tsx:90-98 | one record adds 1 to the summed counts and its closed time to the summed hours |
| ClubStats.BumpLookup | app/admin/stats/page.tsx:90-98 | after one record, only that record's user gains one check-in and its closed time; a key exists for it afterwards |
| ClubStats.BumpDistinct | app/admin/stats/page.tsx:90-92 | the dictionary never holds a key twice |
| ClubStats.Tally | app/admin/stats/page.tsx:83-108 | the summed counts are the number of records; the summed hours are the total closed time |
| ClubStats.TallyLookup | app/admin/stats/page.tsx:83-108 | each user's entry holds exactly that user's record count and closed time; a user has a key iff it has a record |
| ClubStats.TallyDistinct | app/admin/stats/page.tsx:90-92 | one entry per user |
| ClubStats.TallyEntry | app/admin/stats/page.tsx:112-118 | every entry has count at least 1, equal to its user's record count, and that user's closed time |
| ClubStats.MemberNamed | app/admin/stats/page.tsx:57-61 | the name lookup finds a club document with that id, or there is none |
| ClubStats.Present | app/admin/stats/page.tsx:115-120 | a top member row carries the entry's count and its rounded hours |
| ClubStats.PresentAll | app/admin/stats/page.tsx:115-120 | one row per entry, in order |
| ClubStats.Rank | app/admin/stats/page.tsx:112-113 | the entries sorted by count, highest first, as a permutation |
| ClubStats.TopMembers | app/admin/stats/page.tsx:112-114 | the table has `min(5, number of users)` rows |
| ClubStats.TopMembersSpec | app/admin/stats/page.tsx:112-120 | the rows are the first ranked entries, highest count first; no left-out user has more check-ins than one shown |
| ClubStats.ClubStatsOf | app/admin/stats/page.tsx:122-133 | the statistics are labelled with the requested club |
| ClubStats.AvgTenths | app/admin/stats/page.tsx:129-131 | 0 for a club without members, otherwise the total duration per member rounded to the nearest tenth of an hour (`2t - sD < 2sD r <= 2t + sD`, with `D` one tenth of an hour in ms) |
| ClubStats.ClubRecords | app/admin/stats/page.tsx:69-81 | the records the batches return; `ClubRecordsAreMemberRecords` states they are exactly the member-type records of the club's members |
| ClubStats.TallyStep | app/admin/stats/page.tsx:83-108 | what one more record does to the dictionary, total time, open count and today's count |
| ClubStats.CountSnapshot | app/admin/stats/page.tsx:83-108 | the `forEach` over one batch turns counters for the earlier records into counters for those records plus the batch |
| ClubStats.FetchClubStats | app/admin/stats/page.tsx:45-133 | `fetchClubStats` computes exactly `ClubStatsOf` for the club |
| ClubStats.InBatchUnion | app/admin/stats/page.tsx:76-81 | querying two disjoint id lists returns the records for their union |
| ClubStats.InBatchOfNoIds | app/admin/stats/page.tsx:69 | an empty id list matches nothing |
| ClubStats.FetchAllIsOneQuery | app/admin/stats/page.tsx:75-81 | batches without a repeated id fetch each matching record exactly once |
| ClubStats.ClubRecordsAreMemberRecords | app/admin/stats/page.tsx:69-81 | the batched records are exactly the member-type records of the club's members, neither lost nor double counted |
| ClubStats.ClubStatsCounterBounds | app/admin/stats/page.tsx:85-107 | `activeNow` and `activeToday` never exceed `totalCheckIns` |
| ClubStats.TopMemberBounds | app/admin/stats/page.tsx:112-120 | each top member's count is one user's record count, between 1 and `totalCheckIns`, with that user's rounded time |
| ClubStats.EmptyClub | app/admin/stats/page.tsx:129-131 | a club without members has all-zero statistics (average 0) and no top members |
| ClubStats.NoClubMembers | app/admin/stats/page.tsx:51-55 | no document of the club means an empty member query |
| ClubStats.StatsPage.constructor | app/admin/stats/page.tsx:34-36 | no admin, no statistics, spinner on |
| ClubStats.StatsPage.Mount | app/admin/stats/page.tsx:38-43 | no session: nothing changes; otherwise the admin is kept, the statistics are the club's (kept unset when a query fails), and the spinner stops |
| AllStats.StatsOfClubs | app/admin/all-stats/page.tsx:63-147 | one entry per club, in order, each that club's statistics |
| AllStats.AllClubsInOrder | app/admin/all-stats/page.tsx:27 | three entries, labelled SOSC, Challengers and SRC |
| AllStats.FetchAllClubStats | app/admin/all-stats/page.tsx:56-155 | the loop over `CLUBS` pushes exactly `StatsOfClubs(CLUBS)` |
| AllStats.SumTotals | app/admin/all-stats/page.tsx:171-179 | the `reduce` over the clubs; `SumTotalsAppend` and `SumTotalsBounds` state how it adds up and bounds present by check-ins |
| AllStats.SumTotalsAppend | app/admin/all-stats/page.tsx:171-179 | the totals of two club lists add up |
| AllStats.SumTotalsBounds | app/admin/all-stats/page.tsx:171-179 | if no club has more people present than check-ins, neither do the totals |
| AllStats.AllClubsActiveBound | app/admin/all-stats/page.tsx:171-179 | on the page's data, total present never exceeds total check-ins |
| AllStats.Displayed | app/admin/all-stats/page.tsx:167-169 | "all" shows every club; a selected club shows exactly the entries of that club |
| AllStats.OfClub | app/admin/all-stats/page.tsx:169 | the filter keeps exactly the entries of that club |
| AllStats.OfClubNone | app/admin/all-stats/page.tsx:169 | no entry of that club gives an empty view |
| AllStats.OfClubUnique | app/admin/all-stats/page.tsx:169 | with one entry per club, selecting a club shows only that entry |
| AllStats.SelectOneClub | app/admin/all-stats/page.tsx:167-169 | selecting one of the clubs shows exactly that club's statistics |
| AllStats.SelectAmongClubs | app/admin/all-stats/page.tsx:167-169 | the same, for any list labelled like `CLUBS` |
| AllStats.AllStatsPage.constructor | app/admin/all-stats/page.tsx:36-39 | no admin, no statistics, spinner on, "all" selected |
| AllStats.AllStatsPage.Mount | app/admin/all-stats/page.tsx:42-54 | no session: nothing changes; a non-SOSC admin goes to `/admin` and nothing is fetched; an SOSC admin gets every club's statistics, kept when a query fails |
| AllStats.AllStatsPage.Select | app/admin/all-stats/page.tsx:39 | only the selection changes |
| AllStats.AllStatsPage.Render | app/admin/all-stats/page.tsx:157-179 | spinner while loading; nothing for no admin or a non-SOSC admin; for a loaded SOSC admin exactly the totals of every club and the selected entries |
| AllStats.AllStatsPage.SettledNeverBlank | app/admin/all-stats/page.tsx:165 | once the mount has run, the "return null" branch is never reached |
| Dashboard.CountOpenSnapshot | app/admin/page.tsx:77-82 | the `forEach` adds the number of open records of the batch |
| Dashboard.CountOpenAppend | app/admin/page.tsx:77-82 | open counts of two lists add up |
| Dashboard.FetchDashboardStats | app/admin/page.tsx:38-95 | the card values are exactly `DashboardStatsOf` |
| Dashboard.TodayRecords | app/admin/page.tsx:57-76 | today's member-type records of the club's members, nothing without members; `DashboardBounds` and `DashboardAgreesWithStats` state their count |
| Dashboard.DashboardStatsOf | app/admin/page.tsx:41-95 | the four card values; `DashboardBounds` and `DashboardAgreesWithStats` state their bounds and their agreement with the statistics page |
| Dashboard.DashboardBounds | app/admin/page.tsx:57-84 | present today never exceeds today's check-ins; without members both are 0 |
| Dashboard.CountSinceAppend | app/admin/page.tsx:72 | today's counts of two lists add up |
| Dashboard.InBatchSinceCount | app/admin/page.tsx:68-74 | the batch query with the check-in condition returns as many records as the batch's records checked in since then |
| Dashboard.FetchAllSinceCount | app/admin/page.tsx:67-83 | the same for all batches |
| Dashboard.DashboardAgreesWithStats | app/admin/page.tsx:41-76 | the dashboard's member count and today's check-ins equal the statistics page's `totalMembers` and `activeToday` |
| Dashboard.ActivityOf | app/admin/page.tsx:104-117 | "Checked Out" exactly for a record with a check-out; name and type fall back to "Unknown" and "member" |
| Dashboard.ActivitiesOf | app/admin/page.tsx:103-118 | one row per record, in order |
| Dashboard.RecentActivity | app/admin/page.tsx:103 | at most ten rows |
| Dashboard.RecentActivitySpec | app/admin/page.tsx:98-118 | the rows are the newest records in order, times not increasing; no record left out is newer than a shown one |
| Dashboard.DashboardPage.constructor | app/admin/page.tsx:18-28 | zero cards, no rows, spinner on |
| Dashboard.DashboardPage.Mount | app/admin/page.tsx:30-36 | no session: nothing changes; otherwise the cards, then the recent rows, each kept when its query fails; the spinner stops |
| Members.RowOf | app/admin/members/page.tsx:106-143 | one member's row; `RowSummary` and `RowDefaults` state its summary and its fallbacks |
| Members.RowSummary | app/admin/members/page.tsx:106-143 | a row is active iff some record is open; "Never" iff no record has a check-in; otherwise the latest check-in; open records add no hours |
| Members.RowDefaults | app/admin/members/page.tsx:126-132 | name, email and phone fall back to "Unknown", "-" and "-", and the USN to the document id |
| Members.SummarizeMember | app/admin/members/page.tsx:106-143 | the per-member loop builds exactly `RowOf` |
| Members.RowsOf | app/admin/members/page.tsx:94-144 | one row per member document, in query order |
| Members.FetchMemberRows | app/admin/members/page.tsx:84-144 | the loop over the club's documents builds exactly those rows |
| Members.MatchesQuery | app/admin/members/page.tsx:68-74 | the lowercased name, USN or email contains the lowercased query; `FilterMembersSpec` states that the search keeps exactly such rows |
| Members.MatchesStatus | app/admin/members/page.tsx:75-79 | "all" passes every row, "active" the active ones, "inactive" the others; `ActiveCountIsActiveView` states that the two views split the rows |
| Members.Shown | app/admin/members/page.tsx:66-80 | a row passes the query filter (always, for an empty query) and the status filter; `FilterMembersSpec` and `FilterNothing` state what it lets through |
| Members.FilterMembers | app/admin/members/page.tsx:65-82 | the filter effect; `FilterMembersSpec` and `FilterMembersCounts` state which rows it keeps |
| Members.FilterMembersSpec | app/admin/members/page.tsx:65-82 | the filtered rows are an order-preserving sublist of the rows; each of them passes both filters, and every row that passes both is in it |
| Members.FilterMembersCounts | app/admin/members/page.tsx:65-82 | counted with multiplicity, a row passing both filters occurs as often as in the input, any other row never |
| Members.FilterNothing | app/admin/members/page.tsx:66-67 | an empty query with status "all" shows every row |
| Members.ActiveCount | app/admin/members/page.tsx:377 | the active count is at most the number of rows |
| Members.ActiveCountIsActiveView | app/admin/members/page.tsx:377 | the active count is the size of the "active" view, and with the "inactive" view it makes up all rows |
| Members.DetailOf | app/admin/members/page.tsx:173-205 | "Active" exactly when the visit lacks a time; otherwise the label of its duration |
| Members.DetailsOf | app/admin/members/page.tsx:173 | one line per record, in order |
| Members.MemberDetails | app/admin/members/page.tsx:165-173 | one line per record of the member that has a check-in time |
| Members.MemberDetailsSpec | app/admin/members/page.tsx:165-206 | the lines are those records, newest first |
| Members.ClosedDetailLabel | app/admin/members/page.tsx:178-184 | a closed visit of non-negative length is labelled with its whole hours and 0 to 59 minutes |
| Members.CanAdd | app/admin/members/page.tsx:218 | the handler's guard; its meaning is stated by `CanAddSpec` |
| Members.CanAddSpec | app/admin/members/page.tsx:218 | the guard passes exactly with an admin, and a USN and a name that are not all white space |
| Members.NewMember | app/admin/members/page.tsx:228-236 | the written document; `UpsertContents` and `AddedMemberListed` state what the write and the refetch do with it |
| Members.ReplaceId | app/admin/members/page.tsx:228-229 | each document with that id is replaced; every other document is kept in place |
| Members.Upsert | app/admin/members/page.tsx:228-236 | `setDoc` on the id; its meaning is stated by `UpsertContents` |
| Members.UpsertContents | app/admin/members/page.tsx:228-236 | after `setDoc`, the new document is the only one with its id, and all other documents are kept |
| Members.AddedMemberListed | app/admin/members/page.tsx:238-243 | the refetch after adding lists the new member |
| Members.WithoutId | app/admin/members/page.tsx:257 | `deleteDoc` keeps exactly the documents with another id |
| Members.DeletedMemberGone | app/admin/members/page.tsx:257-258 | the refetch after a delete has no row with that id |
| Members.MembersPage.constructor | app/admin/members/page.tsx:41-55 | empty lists, empty query, status "all", nothing expanded or cached, empty form |
| Members.MembersPage.FetchMembers | app/admin/members/page.tsx:84-155 | on success the rows of the club's members; a failed query keeps the old rows; the filtered view stays in sync |
| Members.MembersPage.Mount | app/admin/members/page.tsx:57-63 | with a session, the admin is kept and its club is fetched |
| Members.MembersPage.SetSearch | app/admin/members/page.tsx:65-82 | the new query, and the filtered view recomputed |
| Members.MembersPage.SetStatus | app/admin/members/page.tsx:65-82 | the new status, and the filtered view recomputed |
| Members.MembersPage.ToggleDetails | app/admin/members/page.tsx:157-215 | cached details only toggle the expansion; otherwise the query result is cached and expanded; a failed query changes nothing |
| Members.MembersPage.AddMember | app/admin/members/page.tsx:217-250 | a blank USN or name, or no admin: only the required-fields error; success: `setDoc`, form reset, modal closed, refetch; failure: the error message |
| Members.MembersPage.SaveMember | app/admin/members/page.tsx:226-249 | the write, then the reset and refetch, or the failure message |
| Members.MembersPage.DeleteMember | app/admin/members/page.tsx:252-263 | no admin or a declined dialog: nothing; success: delete and refetch; failure: the alert |
| Members.MembersPage.AddEnabled | app/admin/members/page.tsx:338 | the add button is enabled exactly when not saving and USN and name have text other than white space; for a signed-in admin exactly when the handler's check passes |
| Guests.FirstVisits | app/admin/guests/page.tsx:60-71 | the attendance map, first record per guest id winning; its meaning is stated by `FirstVisitsSpec` |
| Guests.FirstVisitsSpec | app/admin/guests/page.tsx:60-71 | a guest id is in the map iff some guest record has it, and then the map holds the first such record |
| Guests.BuildAttendanceMap | app/admin/guests/page.tsx:61-71 | the `forEach` builds exactly that map |
| Guests.LatestVisitKept | app/admin/guests/page.tsx:54-71 | over `orderBy("checkIn", "desc")`, no guest record of that id is newer than the one kept |
| Guests.RowOfGuest | app/admin/guests/page.tsx:73-125 | one guest's row, or `None` where the source would throw; its meaning is stated by `RowOfGuestLabel` |
| Guests.RowOfGuestLabel | app/admin/guests/page.tsx:73-125 | the label is "-" iff there is no visit, "Still here" iff it is open, otherwise the duration label; the fields fall back to placeholders |
| Guests.GuestRows | app/admin/guests/page.tsx:73-125 | the rows of all guests; its meaning is stated by `GuestRowsSpec` |
| Guests.GuestRowsSpec | app/admin/guests/page.tsx:73-125 | when every kept visit has a check-in, each guest gets exactly one row, in order |
| Guests.QueryVisitsHaveCheckIn | app/admin/guests/page.tsx:54-58 | every visit kept from the check-in query has a check-in, so building the rows never throws |
| Guests.MatchesGuest | app/admin/guests/page.tsx:33-41 | the lowercased name, USN or purpose, or the phone as typed, contains the lowercased query; `KeepMatchingSpec` states that the search keeps exactly such rows |
| Guests.KeepMatching | app/admin/guests/page.tsx:33-41 | the `filter` for a non-empty query; its meaning is stated by `KeepMatchingSpec` and `KeepMatchingCounts` |
| Guests.FilterGuests | app/admin/guests/page.tsx:30-45 | every row for an empty query, otherwise `KeepMatching`; see `GuestsPage.SetSearch` |
| Guests.KeepMatchingSpec | app/admin/guests/page.tsx:30-45 | the search result is an order-preserving sublist of the rows; each of its rows, and every row of the input whose name, USN or purpose (lowercased) or phone contains the query, is a matching row in it |
| Guests.KeepMatchingCounts | app/admin/guests/page.tsx:30-45 | counted with multiplicity, a matching row occurs as often as in the input, any other row never |
| Guests.VisitingCount | app/admin/guests/page.tsx:176 | the "currently visiting" count is at most the number of rows |
| Guests.VisitingCountIsOpenVisits | app/admin/guests/page.tsx:176 | the count is the number of guests whose kept visit has no check-out |
| Guests.GuestsPage.constructor | app/admin/guests/page.tsx:21-24 | empty lists, empty query, spinner on |
| Guests.GuestsPage.FetchGuests | app/admin/guests/page.tsx:47-134 | on success the rows of the guests newest first, from the visit map; a failed query keeps the old rows; the view stays in sync |
| Guests.GuestsPage.SetSearch | app/admin/guests/page.tsx:30-45 | the new query, and the filtered view recomputed |
| Kiosk.OpenRecord | app/page.tsx:36-41 | a check-in writes an open record checked in now |
| Kiosk.MemberSession | app/page.tsx:44-49 | the member's session: the new record, the trimmed USN, type member, no name; `SubmitCheckIn` keeps the session pointing to an open record |
| Kiosk.GuestSession | app/guest-registration/page.tsx:50-56 | the guest's session: the new record, the guest document id, type guest, the trimmed name; `SaveGuest` keeps the session pointing to an open record |
| Kiosk.Identity | app/status/page.tsx:121-124 | "USN" for a member, otherwise "Name", with `userName \|\| userId`; its meaning is stated by `IdentityShown` |
| Kiosk.IdentityShown | app/status/page.tsx:121-124 | a member's card shows "USN" and the id; a guest's shows "Name" and the registered name |
| Kiosk.CheckInEnabled | app/page.tsx:146 | the button is enabled iff not loading and the USN has a non-space character |
| Kiosk.Validate | app/guest-registration/page.tsx:24-27 | the handler's check; its meaning is stated by `ValidateSpec` |
| Kiosk.ValidateSpec | app/guest-registration/page.tsx:24-27 | the check passes exactly when each of the four fields has a character that is not white space; otherwise it alerts "Please fill in all fields" |
| Kiosk.SubmitEnabled | app/guest-registration/page.tsx:179 | the button is enabled exactly when not loading and the handler's check passes |
| Kiosk.GuestOf | app/guest-registration/page.tsx:33-39 | the guest document written; its meaning is stated by `StoredGuestShown` |
| Kiosk.StoredGuestShown | app/guest-registration/page.tsx:33-39 | a form that passes the check stores four non-empty trimmed fields, which the guests page shows as stored, with the new open visit as "Still here" |
| Kiosk.Kiosk.constructor | lib/session.ts:11-17 | the collections and the stored session as given; no route, no alert |
| Kiosk.Kiosk.HomeMount | app/page.tsx:14-20 | an existing session goes to `/status` |
| Kiosk.Kiosk.SubmitCheckIn | app/page.tsx:22-76 | blank USN: nothing; a member: a new open record, a member session, `/status`; unknown: `/guest-registration`; a failed lookup or write: the alert; the session invariant is kept |
| Kiosk.Kiosk.StatusMount | app/status/page.tsx:16-25 | no session goes home |
| Kiosk.Kiosk.CheckOut | app/status/page.tsx:27-61 | only the session's record gets a check-out; the session is cleared and the page goes home; a failed write alerts and keeps the session |
| Kiosk.Kiosk.RegisterGuest | app/guest-registration/page.tsx:21-74 | a blank field only alerts; otherwise the outcome of the two writes (see `SaveGuest`) |
| Kiosk.Kiosk.SaveGuest | app/guest-registration/page.tsx:31-73 | guest write failed: alert; record write failed: the guest is stored and the alert shown; success: guest, open record and guest session stored, `/status`, the invariant kept |
| Account.NameCheck | app/admin/account/page.tsx:36-41 | nothing happens iff there is no admin or the name is all white space; "same" iff the trimmed name is the current one; otherwise the trimmed, non-empty new name |
| Account.PasswordCheck | app/admin/account/page.tsx:66-79 | each message iff its check is the first to fail, in the source's order; none iff all pass |
| Account.ShortBeforeMismatch | app/admin/account/page.tsx:71-79 | a short password is reported short even when the two differ |
| Account.AuthErrorMessage | app/admin/account/page.tsx:103-112 | the message for each error code, with the generic message exactly for every other code; never the success text |
| Account.AccountPage.constructor | app/admin/account/page.tsx:12-25 | no admin, empty fields, no messages, spinner on |
| Account.AccountPage.Mount | app/admin/account/page.tsx:27-34 | a stored session fills the admin and the name field; the spinner stops |
| Account.AccountPage.ChangeName | app/admin/account/page.tsx:36-63 | skip, the "same" error, or the write: success renames only the session's name, failure shows the error |
| Account.AccountPage.ChangePassword | app/admin/account/page.tsx:65-116 | the first failing check's message; then the signed-in check; then success clears the three fields, or the mapped error keeps them |
| Account.AccountPage.NameButtonEnabled | app/admin/account/page.tsx:187 | the button is enabled exactly when not saving and the name has text other than white space, so the handler gets past its first check |
| Account.AccountPage.PasswordButtonEnabled | app/admin/account/page.tsx:256 | the button is enabled iff not loading and no field is empty |

## Left out

- Backend, auth, analytics and router calls are not executed. Query results are functions of the
  collections. Each call's success is a boolean parameter. Navigations are a `route` field.
- Generated document ids are parameters. Callers must pass ids not already in use.
- `serverTimestamp()` and the browser clock are one `now` parameter, so the kiosk cannot model a
  gap between them. The local midnight `todayStart` is a parameter too.
- Async interleaving, such as two handlers in flight at once, is not modelled. Each handler runs
  to completion.
- The loading, modal and `detailLoading` flags are modelled only where a handler's outcome
  depends on them.
- Date formatting with `toLocaleString` / `toLocaleDateString` is left out. Times stay integer
  milliseconds. The last check-in is `Never` or `On(ms)`.
- Durations.TenthsOfHour: hours are summed as exact integer milliseconds and rounded once. The
  source sums floating-point hours, so its last digit can differ by floating-point error.
- AllStats.SumTotals: the hours of the clubs are added as exact tenths. The source adds the
  already rounded floating-point `totalHours` of each club and prints the sum unrounded, so its
  label can show floating-point error, such as `16.599999999999998h` for 16.6.
- ClubStats.Tally: the dictionary is keyed by any user id. In the source a user id that names a
  property every JavaScript object inherits (`constructor`, `toString`, `__proto__`) finds that
  property instead of an own entry, so `Object.entries` never lists that user. The model always
  creates the key.
- Members.MembersPage.ToggleDetails: the details cache is a map, so a USN such as `constructor`
  is missing from it and its details are queried. In the source `attendanceDetails[memberId]`
  finds the inherited property, so the handler only toggles the expansion, and the details list
  then fails to render.
- Queries.ByCheckInDesc: ties among equal check-in times keep collection order. The backend
  orders such ties by document id, so which of several equal-time records is shown first, or is
  kept as a guest's visit, may differ. Queries.GuestsByCreatedDesc is modelled the same way.
- ClubStats.TopMembers: ties in check-in count keep the dictionary's insertion order.
  `Object.entries` orders integer-like keys first, so for numeric USNs the five shown among equal
  counts may differ.
- Members.FetchMemberRows: the rows stay in query order. The final `localeCompare` sort by name is
  locale-dependent and is not modelled.
- Members.MembersPage.FetchMembers: the stored `members` list is in query order, for the same
  reason; the source stores it sorted by name.
- Members.NewMember: `joinedAt` is not stored, because no page reads it.
- Strings.ToLower: only ASCII letters are lower-cased.
- Account.PasswordCheck: the length is counted in characters, not UTF-16 code units.
- The analytics duration logged on check-out is left out, because it is only logged.
- The text of the delete confirmation dialog is left out. Its answer is a boolean parameter.
- The session stores `lib/session.ts` and `lib/adminSession.ts` are `Option` fields. Their
  `localStorage` and JSON encoding are left out.
- The admin login page, the admin layout, the root layout and `types/index.ts` are not part of
  this model. They hold sign-in and navigation chrome, and their types are re-declared in
  `Records`.
- The reminder notifier is not part of this model, because its source is not among the modelled
  files.
- The all-clubs page's selector UI is only `Select`. The chart and card markup is left out.
