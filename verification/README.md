# Auto-Job-Hunter, modelled in Dafny

Auto-Job-Hunter is a job-search assistant. Scrapers collect postings from job
boards (the scout). The postings are normalised into one record shape (the
normalizer) and scored against the user's résumé by a language model (the
matcher and the reviewer). The results are kept in a document store, and a
React front end lists the jobs, the run history and the outreach messages.

This project models the core of that system and proves what it promises:

- **The document store and the repositories.** The in-memory collection the
  repository tests run against is modelled: cursors that sort, limit and list,
  `find_one` with sort and projection, and `update_one` and `delete_one` on
  the first match. Its queries are extended with what the production store
  adds and the repositories rely on: dotted paths into sub-documents and
  `$gte`/`$lte` range conditions. The repositories built on it are modelled too: the base
  repository and the scan-history, run, job, timeline and outreach
  repositories. Documents are maps from field names to JSON-like values.
  Sorting is a stable sort, and a sort on several keys is proved to order
  the documents lexicographically.
- **The agents.** These are the company-name and title normalisers, the
  salary parser, tag and skill extraction, the fingerprint input and job
  validation of `normalization_utils` (its date parser is a parameter), the
  normalizer, the scout and its retry wrapper, the
  matcher, the reviewer, the LLM client's retry loop and the résumé parser.
  Language-model calls, scrapers, regular expressions, PDF readers and hash
  functions are parameters.
- **The services.** These are the job, dashboard, outreach, user and run
  services: the queries they build, the records they write and the
  statistics they report. The current time is a parameter, in whole seconds.
- **The front end.** These are the job and profile stores, the API client's
  base URL and query parameters, and the logic of the Settings, Profile,
  Template editor and Jobs pages: how a form is loaded from a stored
  profile, changed, and sent back.

Code that changes state step by step is modelled as classes with `modifies`
clauses or as methods with loops and invariants. Examples are the fake
cursor and collection, the stores and the pages. Pure code is modelled as
functions, and each function is tied by lemmas to a partner: an inverse, an
invariant, or a reference definition.

Two modules are shared by the rest. `Values` defines the value type and
Python's truthiness and ordering of values, plus the JavaScript helpers
`||`, property access and text conversion. `Sorting` defines the stable
sort.

## Model

| member | source | states |
|---|---|---|
| DocStore.MatchedValue | backend/app/db/repositories/test_base_repository.py:58 | a document that matches a query with a plain (non-numeric, non-range) value holds exactly that value at the key |
| DocStore.SingleKeyQuery | backend/app/db/repositories/test_base_repository.py:58 | a one-key equality query matches exactly the documents whose field equals the value; a missing field reads as null |
| DocStore.Filter | backend/app/db/repositories/test_base_repository.py:57-59 | the documents kept are exactly the stored ones that match the query, and no more of them than were stored |
| DocStore.FilterAppend | backend/app/db/repositories/test_base_repository.py:57-59 | filtering keeps the stored order: filtering two parts one after the other equals filtering their concatenation |
| DocStore.Project | backend/app/db/repositories/test_base_repository.py:46-52 | an empty projection keeps the document; otherwise exactly the document's keys that the projection marks truthy are kept, with their values |
| DocStore.ProjectAll | backend/app/db/repositories/test_base_repository.py:46-52 | the projection is applied to every document, one for one |
| DocStore.Orders | backend/app/db/repositories/test_base_repository.py:72-73 | each (key, direction) pair becomes an order on that key, descending exactly when the direction is -1 |
| DocStore.FindOneIsLeast | backend/app/db/repositories/test_base_repository.py:63-75 | find_one returns nothing exactly when no document matches; otherwise it returns the projection of a matching document that sorts first under the sort specification |
| DocStore.FindOneByKey | backend/app/db/repositories/test_base_repository.py:71-75 | with one sort key, the returned document matches and its key is the greatest (direction -1) or the least of all matching documents |
| DocStore.FirstMatch | backend/app/db/repositories/test_base_repository.py:81-82 | the index of the first matching document, or -1 exactly when none matches |
| DocStore.FindOneUnsorted | backend/app/db/repositories/test_base_repository.py:68-75 | without a sort or projection find_one returns the first matching document in stored order |
| DocStore.Merge | backend/app/db/repositories/test_base_repository.py:83 | dict.update: the keys of both maps, with the new fields winning and the other old fields kept |
| DocStore.UpdateFirstOnlyFirst | backend/app/db/repositories/test_base_repository.py:80-84 | update_one merges the $set fields into the first matching document only, and changes nothing when none matches |
| DocStore.DeleteFirstRemovesOne | backend/app/db/repositories/test_base_repository.py:86-90 | delete_one removes exactly one occurrence of the first match (multiset), keeps every non-matching document, and changes nothing when none matches |
| DocStore.PrefixTwice | backend/app/db/repositories/test_base_repository.py:32-37 | limit(n) followed by to_list(n) is the same as one cut to n items |
| DocStore.LatestIsTop | backend/app/db/repositories/test_base_repository.py:16-37 | find, sort on one key descending, limit(n): at most n matching documents, newest first, and every matching document left out is no newer than each one kept |
| DocStore.FakeCursor.constructor | backend/app/db/repositories/test_base_repository.py:13-14 | the cursor holds a copy of the items |
| DocStore.FakeCursor.Sort | backend/app/db/repositories/test_base_repository.py:16-23 | after sorting on a list of keys the items are a permutation of the old ones, ordered lexicographically by the keys in the list's order |
| DocStore.FakeCursor.SortOn | backend/app/db/repositories/test_base_repository.py:24-29 | sorting on one key is a stable sort on that key, descending for -1 |
| DocStore.FakeCursor.Limit | backend/app/db/repositories/test_base_repository.py:32-34 | keeps the first n items (Python slice semantics for negative n) |
| DocStore.FakeCursor.ToList | backend/app/db/repositories/test_base_repository.py:36-37 | returns the first `length` items and never more than `length` |
| DocStore.FakeCollection.constructor | backend/app/db/repositories/test_base_repository.py:41-44 | the collection holds the given documents |
| DocStore.FakeCollection.Find | backend/app/db/repositories/test_base_repository.py:54-61 | a fresh cursor over the matching documents, projected, in stored order |
| DocStore.FakeCollection.FindOne | backend/app/db/repositories/test_base_repository.py:63-75 | the sorted, projected first match, and None exactly when no document matches |
| DocStore.FakeCollection.InsertOne | backend/app/db/repositories/test_base_repository.py:77-78 | the document is appended at the end |
| DocStore.FakeCollection.UpdateOne | backend/app/db/repositories/test_base_repository.py:80-84 | the collection becomes the one with the first match updated by the $set part |
| DocStore.FakeCollection.DeleteOne | backend/app/db/repositories/test_base_repository.py:86-90 | the collection becomes the one with the first match removed |
| DocStore.FakeDatabase.constructor | backend/app/db/repositories/test_base_repository.py:94-95 | one fresh collection per name, holding that name's documents |
| DocStore.FakeDatabase.Collection | backend/app/db/repositories/test_base_repository.py:97-98 | an existing collection is returned unchanged; an unknown name gets a fresh empty collection that is remembered |
| DocStore.FindSortedLimited | backend/app/db/repositories/test_base_repository.py:16-37 | find, then sort on one key, then limit, then to_list: the stable sort of the matches cut to n |
| Sorting.SortByAllSorted | backend/app/db/repositories/test_base_repository.py:17-23 | sorting by the keys in reverse order, each sort stable, leaves the list ordered lexicographically by the keys |
| Sorting.StableSortRefines | backend/app/db/repositories/test_base_repository.py:19-23 | a stable sort on a new first key keeps the order the later keys already gave to equal keys |
| Sorting.SortByAll | backend/app/db/repositories/test_base_repository.py:17-23 | the multi-key sort is a permutation of its input |
| Sorting.SortByAllHeadIsLeast | backend/app/db/repositories/test_base_repository.py:71-75 | the first item after sorting is an input item that sorts no later than any other |
| Sorting.StableSortHead | backend/app/db/repositories/test_base_repository.py:25-29 | the first item after a one-key stable sort is the first of the items with the best key |
| BaseRepository.FindOne | backend/app/db/repositories/base_repository.py:9-10 | the store's find_one result, which is None exactly when no document matches; the sort and projection are the callers' signature, not the source's |
| BaseRepository.FindAll | backend/app/db/repositories/base_repository.py:12-14 | at most `limit` results, each the projection of a stored matching document, ordered by the sort (the sort and projection are the callers' signature, not the source's) |
| BaseRepository.FindAllFacts | backend/app/db/repositories/base_repository.py:12-14 | the bound, the provenance and the order of find_all's result, for any collection |
| BaseRepository.WithId | backend/app/db/repositories/base_repository.py:17-18 | the stored record always has an _id: the caller's own when present, otherwise the fresh id |
| BaseRepository.Create | backend/app/db/repositories/base_repository.py:16-20 | appends the record with its _id and returns that _id |
| BaseRepository.Update | backend/app/db/repositories/base_repository.py:22-23 | the collection becomes the one with the document of that id updated |
| BaseRepository.Delete | backend/app/db/repositories/base_repository.py:25-26 | the collection becomes the one with the document of that id removed |
| BaseRepository.CreateThenFind | backend/app/db/repositories/base_repository.py:9-20 | a record created with an unused id is what find_one by that id returns |
| BaseRepository.CreateThenDelete | backend/app/db/repositories/base_repository.py:16-26 | deleting a freshly created record by its id gives the collection back as it was |
| BaseRepository.UpdateMerges | backend/app/db/repositories/base_repository.py:22-23 | update sets each given field on the document with that id, keeps its other fields, and keeps every other document |
| RepositoryTests.LatestCompletedIsSecond | backend/app/db/repositories/test_base_repository.py:112-115 | find_one of completed runs sorted by started_at descending returns run "2" with value "latest" |
| RepositoryTests.AscendingWithProjection | backend/app/db/repositories/test_base_repository.py:117-120 | find_all sorted ascending with a projection on _id and started_at gives ids 1, 3, 2, each with exactly those two keys |
| RepositoryTests.ListScansNewestFirst | backend/app/db/repositories/test_base_repository.py:122-124 | list_scans for user-1 with limit 5 gives ids 2, 3, 1 |
| ScanHistoryRepository.ScanRecord | backend/app/db/repositories/scan_history_repository.py:12-20 | a new scan is running, started now, with zero counts and score, for that user and those sources (an empty list when none) |
| ScanHistoryRepository.StartScan | backend/app/db/repositories/scan_history_repository.py:10-21 | appends the new scan record under the fresh id and returns that id |
| ScanHistoryRepository.EndFields | backend/app/db/repositories/scan_history_repository.py:25-29 | the update holds the status and completion time unless the stats carry their own, and every stats field |
| ScanHistoryRepository.EndScan | backend/app/db/repositories/scan_history_repository.py:23-30 | the scan with that id gets the end fields merged in |
| ScanHistoryRepository.ListScans | backend/app/db/repositories/scan_history_repository.py:32-38 | at most `limit` scans, all of that user, newest first; the sort arguments take no part |
| ScanHistoryRepository.ListScansOwned | backend/app/db/repositories/scan_history_repository.py:34-37 | every listed scan is a stored scan of that user |
| ScanHistoryRepository.ListScansNewestFirst | backend/app/db/repositories/scan_history_repository.py:37 | the listed scans are in non-increasing started_at order |
| ScanHistoryRepository.GetLastCompletedScan | backend/app/db/repositories/scan_history_repository.py:40-42 | None exactly when the user has no completed scan; otherwise a completed scan of that user started no earlier than any other |
| ScanHistoryRepository.RunQuery | backend/app/db/repositories/scan_history_repository.py:52-56 | the query filters on status and user exactly when each is non-empty |
| ScanHistoryRepository.GetLastRun | backend/app/db/repositories/scan_history_repository.py:44-58 | the matching run that is greatest (order -1) or least on the sort key, and None exactly when none matches |
| ScanHistoryRepository.GetRecentRuns | backend/app/db/repositories/scan_history_repository.py:60-78 | at most `limit` runs, all of that user when one is given, sorted stably on the sort key |
| ScanHistoryRepository.TotalScannedAppend | backend/app/db/repositories/scan_history_repository.py:80-94 | the total is 0 with no runs, and a new run adds its jobs_found exactly when it is a completed run of that user |
| ScanHistoryRepository.TotalScannedNone | backend/app/db/repositories/scan_history_repository.py:80-94 | the total is 0 when no stored run is a completed run (of that user, when a user is given) |
| RunRepository.TotalScannedNone | backend/app/db/repositories/run_repository.py:16-32 | the total is 0 when no stored run is completed |
| RunRepository.TotalScannedAppend | backend/app/db/repositories/run_repository.py:16-32 | a new run adds its jobs_found to the total exactly when it is completed with an integer count |
| RunRepository.GetRecentRuns | backend/app/db/repositories/run_repository.py:11-14 | at most `limit` stored runs, newest started_at first |
| RunRepository.GetLastCompletedRun | backend/app/db/repositories/run_repository.py:34-36 | None exactly when no run is completed; otherwise the first completed run in stored order (no sort is requested) |
| RunRepository.GetLastRun | backend/app/db/repositories/run_repository.py:38-42 | None exactly when there are no runs; otherwise a stored run started no earlier than any other |
| RunRepository.GetRecentLogs | backend/app/db/repositories/run_repository.py:48-51 | at most `limit` log entries, newest timestamp first |
| RunRepository.LogEntry | backend/app/db/repositories/run_repository.py:55-60 | the entry holds the step, the run id, the current time and the metadata (empty when none), and nothing else |
| RunRepository.AddLog | backend/app/db/repositories/run_repository.py:53-61 | appends the entry under the fresh id |
| TimelineRepository.GetRecentLogs | backend/app/db/repositories/timeline_repository.py:10-21 | an empty user id is refused with the source's message, and that is the only failure; otherwise at most `limit` entries of that user, newest first |
| TimelineRepository.StepEntry | backend/app/db/repositories/timeline_repository.py:25-31 | the entry holds the user, the step, the run id, the current time and the metadata (empty when none), and nothing else |
| TimelineRepository.AddStep | backend/app/db/repositories/timeline_repository.py:23-32 | appends the entry under the fresh id |
| TimelineRepository.AddedStepIsListed | backend/app/db/repositories/timeline_repository.py:10-32 | a step added later than every stored entry appears in that user's recent logs whenever the limit is positive |
| TimelineRepository.NewestIsListed | backend/app/db/repositories/timeline_repository.py:15-21 | a matching document newer than all others is always among the latest n, for n > 0 |
| TimelineRepository.LatestHeadBounds | backend/app/db/repositories/timeline_repository.py:15-21 | every matching document is either listed or no newer than the first one listed |
| TimelineRepository.LatestNonEmpty | backend/app/db/repositories/timeline_repository.py:15-21 | with a positive limit and some matching document, the listing is not empty |
| OutreachRepository.GetByUserId | backend/app/db/repositories/outreach_repository.py:10-14 | at most 100 templates, all of that user, newest created_at first |
| OutreachRepository.OwnedQueryMatches | backend/app/db/repositories/outreach_repository.py:18 | the query matches exactly the documents with that id and that user |
| OutreachRepository.GetById | backend/app/db/repositories/outreach_repository.py:16-19 | None exactly when no stored template has both that id and that user; otherwise one that has both |
| JobRepository.FindById | backend/app/db/repositories/job_repository.py:10-12 | None exactly when no job has that id; otherwise the first stored job with that id |
| JobRepository.FindByFingerprint | backend/app/db/repositories/job_repository.py:14-16 | None exactly when no job's metadata carries that fingerprint; otherwise the first stored job that carries it |
| JobRepository.GetMatchedJobs | backend/app/db/repositories/job_repository.py:18-20 | every job, not only matched ones, in stored order, cut to `limit` |
| JobRepository.CountByStatus | backend/app/db/repositories/job_repository.py:22-25 | the number of stored jobs whose status is the given one, never more than all jobs |
| JobRepository.FilterCount | backend/app/db/repositories/job_repository.py:24 | counting the documents that match a one-field query equals the length of the filtered list |
| JobRepository.CountByStatusAfterInsert | backend/app/db/repositories/job_repository.py:22-25 | inserting a job raises its status's count by one and leaves every other count unchanged |
| JobRepository.GetRecentJobs | backend/app/db/repositories/job_repository.py:27-30 | at most `limit` stored jobs, newest created_at first |
| JobRepository.ScoredJobs | backend/app/db/repositories/job_repository.py:36-38 | exactly the jobs whose match_score exists and is not null |
| JobRepository.MatchScoreStats | backend/app/db/repositories/job_repository.py:32-58 | the count is the number of scored jobs, the high-match count lies between 0 and it and counts the scored jobs whose score is at least 0.8, the average is the `$avg` of the scored jobs, and no scored jobs gives average 0.0 and zero counts |
| JobRepository.HighScores | backend/app/db/repositories/job_repository.py:45-47 | a numeric score is high exactly when it is at least 0.8; a null score never is; a string, document, list, boolean or date score always is, since it ranks above every number; a high job is a scored job |
| JobRepository.HighCountAppend | backend/app/db/repositories/job_repository.py:45-47 | the high-match count of two collections together is the sum of their counts |
| JobRepository.HighCountExact | backend/app/db/repositories/job_repository.py:45-47 | the high-match count is 0 exactly when no job is high, and the number of jobs exactly when every job is |
| JobRepository.HighCountScoredOnly | backend/app/db/repositories/job_repository.py:34-47 | filtering out jobs without a score first leaves the high-match count unchanged |
| JobRepository.MatchScoreStatsHighCount | backend/app/db/repositories/job_repository.py:32-58 | the reported high-match count is the number of high jobs in the whole collection |
| JobRepository.NumericCountZero | backend/app/db/repositories/job_repository.py:43 | no score is averaged exactly when no score is a number |
| JobRepository.AverageNull | backend/app/db/repositories/job_repository.py:43-58 | the reported average is null exactly when some job is scored and none of the scores is a number |
| JobRepository.StringScoreHasNoAverage | backend/app/db/repositories/job_repository.py:43-58 | one job scored with the string "0.9" yields count 1, high-match count 1 and a null average |
| JobRepository.NumericSumBounds | backend/app/db/repositories/job_repository.py:43 | scores within [0, 1] sum to between 0 and their number |
| JobRepository.AverageInUnitRange | backend/app/db/repositories/job_repository.py:43 | when every score lies in [0, 1], so does a numeric average |
| JobRepository.GroupKeys | backend/app/db/repositories/job_repository.py:64-67 | the distinct values of the field, each once, exactly those some job has |
| JobRepository.GroupsAreGroups | backend/app/db/repositories/job_repository.py:64-67 | each group document holds one field value and the number of jobs with it |
| JobRepository.CountBySourceFacts | backend/app/db/repositories/job_repository.py:60-74 | at most 10 entries, each a source some job has, paired with the number of jobs from that source |
| JobRepository.CountBySourceDescending | backend/app/db/repositories/job_repository.py:70 | the entries are in non-increasing order of count |
| JobRepository.GroupsDistinct | backend/app/db/repositories/job_repository.py:63-68 | the `$group` stage yields no two identical documents |
| JobRepository.SourcesByCountDistinct | backend/app/db/repositories/job_repository.py:62-73 | sorting the groups by count keeps one group per distinct source, no source twice |
| JobRepository.SourcesByCountKey | backend/app/db/repositories/job_repository.py:62-71 | each sorted group is the group document of one of the distinct sources |
| JobRepository.SourcesByCountCover | backend/app/db/repositories/job_repository.py:62-73 | every source some job has is grouped, with its job count, at some position of the sorted groups |
| JobRepository.SourcesByCountDescending | backend/app/db/repositories/job_repository.py:69-71 | the sorted groups run from the largest count down |
| JobRepository.CountBySourceAt | backend/app/db/repositories/job_repository.py:73-74 | entry i reports the id and count of the i-th sorted group |
| JobRepository.CountBySourceDistinct | backend/app/db/repositories/job_repository.py:60-74 | one entry per source: exactly min(10, number of distinct sources) entries, no source listed twice |
| JobRepository.CountBySourceComplete | backend/app/db/repositories/job_repository.py:60-74 | with at most ten distinct sources, every source some job has is listed |
| JobRepository.CountBySourceLeftOut | backend/app/db/repositories/job_repository.py:60-74 | a source that is not listed has no more jobs than any listed source |
| JobRepository.BreakdownOfGroups | backend/app/db/repositories/job_repository.py:87-89 | the breakdown built entry by entry maps exactly the grouped statuses to their counts |
| JobRepository.GetStatusBreakdown | backend/app/db/repositories/job_repository.py:76-90 | the map holds at most 10 statuses, exactly the first ten grouped, each mapped to its number of jobs |
| JobRepository.SumCountsIsCountIn | backend/app/db/repositories/job_repository.py:78-86 | summing the per-status counts of distinct statuses counts each job at most once |
| JobRepository.BreakdownTotal | backend/app/db/repositories/job_repository.py:76-90 | the counts in the breakdown add up to no more than the number of jobs |
| Models.StatusNameRoundTrip | backend/db/models.py:6-12 | each job status has exactly one stored name, and parsing a name gives back the status |
| Models.StatusNames | backend/db/models.py:6-12 | exactly the six names new, matched, applied, rejected, interview and offer parse as statuses |
| Models.NewUserProfile | backend/db/models.py:14-26 | a new profile has the given name, empty lists and preferences, zero years and no optional text |
| Models.NewUser | backend/db/models.py:28-32 | a new user has the id, the email, an unnamed default profile and the creation time |
| Models.NewMetadata | backend/db/models.py:47-53 | new metadata has the fingerprint and the collection time, and nothing else set |
| Models.NewJob | backend/db/models.py:55-100 | a new job has status new, is not remote, has no salary, outreach, score or URLs, empty lists, and the creation time |
| Models.NewScanRun | backend/db/models.py:131-139 | a new scan run is pending, with no sources, zero counts, started now and not completed |
| Models.JobDocumentKeys | backend/db/models.py:55-100 | the stored job keeps its id under _id, its status by name, and its metadata as a sub-document |
| Models.JobDocumentNoDottedKey | backend/db/models.py:55-100 | no stored field is named by the dotted path metadata.fingerprint, so lookups of that path reach the sub-document |
| Models.JobDocumentFingerprint | backend/db/models.py:51 | the dotted key metadata.fingerprint finds the job's fingerprint, which is what duplicate checks query |
| RunService.StatusOf | backend/app/services/run_service.py:15-25 | the status is running or idle, and running only when the last run is running |
| RunService.StatusRunningIff | backend/app/services/run_service.py:16-25 | the status is running exactly when the last run is running and has no start time or is at most an hour old |
| RunService.StopStats | backend/app/services/run_service.py:58-63 | the stop stats hold the stop message and the run's own counts and score, 0 where the run has none |
| RunService.StopUser | backend/app/services/run_service.py:67 | the stop is logged under the run's stored user_id, null included, and under system only when the run has no user_id |
| RunService.TimelineItem | backend/app/services/run_service.py:78-82 | each item holds exactly the step, timestamp and metadata of the log, null where the log lacks one |
| RunService.RunService.constructor | backend/app/services/run_service.py:8-10 | the service uses the scan history and timeline collections it is given |
| RunService.RunService.GetStatus | backend/app/services/run_service.py:12-27 | reports the status of the last run, and marks that run failed as stale exactly when it is running and more than an hour old |
| RunService.RunService.StartRun | backend/app/services/run_service.py:29-48 | refuses, with the already-running error and no other, exactly when the last run is running and less than an hour old, changing nothing; otherwise it marks a running last run stale, records the new run and two timeline steps, and returns the new id |
| RunService.RunService.LogStart | backend/app/services/run_service.py:43-46 | the timeline gains the started step and then the initializing step for the new run, and nothing else |
| RunService.RunService.StopRun | backend/app/services/run_service.py:50-70 | refuses, with the no-active-run error and no other, exactly when no run is running, changing nothing; otherwise it ends the most recent running run as failed with the stop stats and logs a step under the run's stored user_id, whatever its value (null included), or system when the run has no user_id field |
| RunService.RunService.GetLastCompletedRun | backend/app/services/run_service.py:86-87 | None exactly when no run completed; otherwise a completed run started no earlier than any other completed run |
| RunService.RunService.GetRecentRuns | backend/app/services/run_service.py:89-90 | at most `limit` runs, newest started_at first |
| RunService.GetTimeline | backend/app/services/run_service.py:72-84 | one item per log, in the logs' order, each the log's step, timestamp and metadata |
| RunService.StartAgreesWithStatus | backend/app/services/run_service.py:12-34 | except at exactly one hour or without a start time, a start is refused exactly when the status reports running |
| RunService.StatusAndStartDisagree | backend/app/services/run_service.py:18-33 | a running run that is exactly an hour old, or has no start time, is reported running and yet does not block a new start |
| RunService.MarkStaleKeepsStart | backend/app/services/run_service.py:19-22 | marking a run stale keeps every start time and changes no other run |
| RunService.StartedRunIsReported | backend/app/services/run_service.py:41-48 | once a run is started later than every stored run, the status reports it as running |
| RunService.StartAfterStaleIsReported | backend/app/services/run_service.py:36-48 | a run started after a stale one was marked failed is reported as running |
| RunService.StopFieldsFacts | backend/app/services/run_service.py:56-65 | stopping records status failed, the stop message, the stop time and the run's own counts |
| NormalizationUtils.StripChar | backend/app/agents/normalization_utils.py:26 | stripping dots leaves no dot at either end, and never lengthens the word |
| NormalizationUtils.DropTrailingPunct | backend/app/agents/normalization_utils.py:23 | removes one trailing comma or full stop, or nothing |
| NormalizationUtils.DropSuffixes | backend/app/agents/normalization_utils.py:26-27 | pops trailing suffix words only: the result is a prefix of the words, every popped word is a suffix, and the last kept word is not |
| NormalizationUtils.NormalizeCompanyName | backend/app/agents/normalization_utils.py:15-28 | the loop that pops suffix words computes the company name |
| NormalizationUtils.CompanyNameWords | backend/app/agents/normalization_utils.py:24-28 | the words of the result are exactly the words kept after the suffixes are dropped, so joining with single spaces loses no word |
| NormalizationUtils.WordsOfJoin | backend/app/agents/normalization_utils.py:28 | splitting words joined by single spaces gives the words back |
| NormalizationUtils.SuffixInc | backend/app/agents/normalization_utils.py:13-26 | "Inc" counts as a suffix, case-insensitively |
| NormalizationUtils.CompanyNameNotIdempotent | backend/app/agents/normalization_utils.py:23-28 | "Acme, Inc" normalises to "Acme," and a second pass gives "Acme": the function is not idempotent |
| NormalizationUtils.DropOpening | backend/app/agents/normalization_utils.py:38 | removes exactly the leading run of opening brackets |
| NormalizationUtils.DropClosing | backend/app/agents/normalization_utils.py:38 | removes exactly the trailing run of closing brackets |
| NormalizationUtils.NormalizeTitleCut | backend/app/agents/normalization_utils.py:34-39 | the title is a slice of the trimmed title, with only opening brackets before it and only closing brackets after it |
| NormalizationUtils.NormalizeTitleEnds | backend/app/agents/normalization_utils.py:38 | a non-empty result neither starts with an opening bracket nor ends with a closing one |
| NormalizationUtils.NormalizeTitlePlain | backend/app/agents/normalization_utils.py:34-39 | a title without surrounding brackets is only trimmed |
| NormalizationUtils.RunEnd | backend/app/agents/normalization_utils.py:44 | the end of the run of characters that satisfy the test, starting at i |
| NormalizationUtils.FirstDigit | backend/app/agents/normalization_utils.py:44 | the position of the first digit, where the regular expression's search starts its number, or -1 exactly when there is no digit |
| NormalizationUtils.AmountAt | backend/app/agents/normalization_utils.py:44-64 | reads a number, with a k or K suffix multiplying by 1000, and ends after it |
| NormalizationUtils.CurrencyBefore | backend/app/agents/normalization_utils.py:44 | an optional currency sign, one of dollar, euro or pound, before the spaces that precede the number |
| NormalizationUtils.UpperAt | backend/app/agents/normalization_utils.py:44 | the optional upper bound after a run of range marks, ending after the lower bound |
| NormalizationUtils.IntervalAt | backend/app/agents/normalization_utils.py:44-70 | the optional "per <word>" part gives a non-empty lower-case interval |
| NormalizationUtils.ParseSalaryWith | backend/app/agents/normalization_utils.py:46-71 | no minimum means no salary at all; a minimum always comes with a maximum; any currency is one of the three signs |
| NormalizationUtils.ParseSalaryNeedsDigit | backend/app/agents/normalization_utils.py:51-55 | the result is all None exactly when the text has no digit |
| NormalizationUtils.ParseSalaryIgnoresCommas | backend/app/agents/normalization_utils.py:53 | commas in the text make no difference |
| NormalizationUtils.ParseSalaryIntendedAgrees | backend/app/agents/normalization_utils.py:65-67 | the corrected parser agrees with the written one on the minimum and the currency, and everywhere the written one finds a range |
| NormalizationUtils.RangeAsWritten | backend/app/agents/normalization_utils.py:44-71 | as written, a range with currency signs on both bounds yields min = max = the lower bound and no interval |
| NormalizationUtils.RangeIntended | backend/app/agents/normalization_utils.py:44-71 | corrected, such a range yields both bounds, the currency and the interval |
| NormalizationUtils.SalaryExampleAsWritten | backend/app/agents/normalization_utils.py:48 | "$100k-$150k per year" parses as min 100000, max 100000, no interval |
| NormalizationUtils.SalaryExampleIntended | backend/app/agents/normalization_utils.py:48 | corrected, the same text parses as 100000 to 150000 per year |
| NormalizationUtils.FirstMentioned | backend/app/agents/normalization_utils.py:136-139 | the first seniority key in the table's order that the title or description mentions, and none before it |
| NormalizationUtils.SeniorityTags | backend/app/agents/normalization_utils.py:136-139 | at most one seniority tag, none exactly when no key is mentioned, and otherwise the tag of the first key mentioned |
| NormalizationUtils.TechTags | backend/app/agents/normalization_utils.py:141-143 | exactly the mentioned tech keywords, in the table's order |
| NormalizationUtils.TechTagsStep | backend/app/agents/normalization_utils.py:141-143 | each step of the loop adds the next keyword exactly when it is mentioned |
| NormalizationUtils.FirstSeniorityTag | backend/app/agents/normalization_utils.py:136-139 | the loop with its break computes the seniority tags |
| NormalizationUtils.AppendTechTags | backend/app/agents/normalization_utils.py:141-143 | the loop appends the tech tags |
| NormalizationUtils.ExtractTags | backend/app/agents/normalization_utils.py:130-151 | the tags of the lower-cased title and description, then remote, then the lower-cased employment type |
| NormalizationUtils.TagsShape | backend/app/agents/normalization_utils.py:130-151 | at most 17 tags; remote is tagged when set; the employment type, when given, is the last tag |
| NormalizationUtils.SplitWhere | backend/app/agents/normalization_utils.py:158 | the pieces hold no delimiter |
| NormalizationUtils.TitleCase | backend/app/agents/normalization_utils.py:159 | str.title on ASCII letters: upper case after a non-letter, lower case after a letter, other characters kept |
| NormalizationUtils.SkillEntries | backend/app/agents/normalization_utils.py:159 | exactly the title-cased trimmed pieces that are not blank, none of them empty |
| NormalizationUtils.ExtractSkillsClean | backend/app/agents/normalization_utils.py:153-160 | no skills for an empty description; otherwise distinct, non-empty, trimmed skills without delimiters, each a title-cased piece |
| NormalizationUtils.FingerprintInputFields | backend/app/agents/normalization_utils.py:169 | when no field holds a bar, the hashed text splits back into the four fields |
| NormalizationUtils.FingerprintInputInjective | backend/app/agents/normalization_utils.py:165-170 | bar-free fields are joined into equal fingerprint texts exactly when they are equal |
| NormalizationUtils.IsValidJob | backend/app/agents/normalization_utils.py:172-181 | invalid for a missing URL exactly when neither URL is truthy, then for a missing title exactly when the title is falsy, and valid with an empty reason otherwise |
| Normalizer.AsStrings | backend/agents/normalizer.py:92-93 | a list of strings keeps its length |
| Normalizer.WithApplyUrl | backend/agents/normalizer.py:50-51 | a missing apply URL is filled from the listing URL; nothing else changes, and an existing apply URL is kept |
| Normalizer.Cleaned | backend/agents/normalizer.py:54-58 | a truthy field that is not a string raises; a truthy string is replaced by its cleaned form; a falsy field and every other field are kept |
| Normalizer.JobRecord | backend/agents/normalizer.py:76-98 | the job's id is the source_id or else the fingerprint, its title and apply URL are the entry's, it is new and unscored, and its metadata records the source, fingerprint and raw payload; a type mismatch raises a validation error |
| Normalizer.FinalizeJob | backend/agents/normalizer.py:40-98 | computes the finalized job or its error |
| Normalizer.FinalizedSteps | backend/agents/normalizer.py:44-98 | a finalized job comes from a valid entry, prepared, fingerprinted and then built into a record |
| Normalizer.PreparedFields | backend/agents/normalizer.py:50-58 | preparing the entry normalises the company and title when truthy, fills the apply URL, and changes nothing else |
| Normalizer.FinalizeRaisesIffInvalid | backend/agents/normalizer.py:45-47 | finalize_job raises "Invalid job: <reason>" exactly when the entry fails validation |
| Normalizer.FinalizedHasApplyUrl | backend/agents/normalizer.py:49-51 | every finalized job has a non-empty apply URL |
| Normalizer.FinalizedFingerprint | backend/agents/normalizer.py:57-66 | the job's title is the normalised title, and its fingerprint hashes the normalised title and company with the source_id and location |
| Normalizer.FinalizedIdentity | backend/agents/normalizer.py:69-96 | the id is a truthy source_id or else the fingerprint; the job records its source and raw payload, is new and has no score |
| Normalizer.SourceLabel | backend/agents/normalizer.py:135-141 | a non-string via raises; otherwise the label holds no space |
| Normalizer.SourceLabelDefault | backend/agents/normalizer.py:135 | a raw job without via is labelled unknown |
| Normalizer.SourceLabelFolds | backend/agents/normalizer.py:135-141 | google wins over linkedin, which wins over indeed, as substrings of the lower-cased, underscored via |
| Normalizer.NormalizeJobBatch | backend/agents/normalizer.py:21-37 | a parsed answer is returned as is; an unparseable one discards the whole batch with one llm_parse_error reason per job |
| Normalizer.RawFor | backend/agents/normalizer.py:134 | an entry past the end of the batch gets an empty raw job |
| Normalizer.EntriesTally | backend/agents/normalizer.py:131-148 | every entry processed is either kept as a job or discarded with one reason |
| Normalizer.FinalizeEntries | backend/agents/normalizer.py:131-148 | the loop over the answer's entries computes that tally |
| Normalizer.FinalizeEntry | backend/agents/normalizer.py:134-143 | one entry's outcome: its finalised job under the listing's source label, or the failure that is counted as a discard |
| Normalizer.BatchStart | backend/agents/normalizer.py:124 | batches start at multiples of 10 below the number of raw jobs |
| Normalizer.BatchTally | backend/agents/normalizer.py:128-152 | a batch adds as many kept and discarded jobs as its answer lists |
| Normalizer.NodeStep | backend/agents/normalizer.py:124-152 | each batch appends its kept jobs, adds its failures and the answer's discards, and appends their reasons |
| Normalizer.NormalizerNode | backend/agents/normalizer.py:101-157 | no raw jobs gives an empty result; otherwise the loop over batches computes the tally of all batches |
| Normalizer.BatchesCover | backend/agents/normalizer.py:124-125 | the batches are non-empty, at most 10 long, and together are the raw jobs in order |
| Normalizer.NodeTally | backend/agents/normalizer.py:124-152 | kept plus discarded jobs equal what the answers accounted for |
| Normalizer.ProcessedHasApplyUrl | backend/agents/normalizer.py:134-143 | every processed job has a non-empty apply URL |
| Normalizer.EntriesJobsFinalized | backend/agents/normalizer.py:131-144 | every kept job is the finalized form of some entry of the answer |
| Normalizer.NodeJobsFinalized | backend/agents/normalizer.py:124-157 | every job the node returns has a non-empty apply URL and is the finalized form of an entry of some batch's answer |
| Normalizer.EntryPastBatch | backend/agents/normalizer.py:134-143 | an entry past the end of its batch is finalized with an empty raw job and source unknown |
| Matcher.ProfileForMatching | backend/app/agents/matcher.py:11-14 | the profile sent for matching has keywords: its own when truthy, otherwise its skills (or []), and every other field unchanged |
| Matcher.ProfileForMatchingStable | backend/app/agents/matcher.py:11-14 | preparing a profile with truthy skills twice is the same as once |
| Matcher.StringItems | backend/app/agents/matcher.py:30 | the missing skills are read only when every item is a string |
| Matcher.ReadScore | backend/app/agents/matcher.py:28-32 | a null score is None, a number is its value and a boolean is 0 or 1; any other score cannot be compared with 0.7 |
| Matcher.ReadAnswer | backend/app/agents/matcher.py:26-32 | an answer is unusable exactly when it is not an object or its score cannot be compared; otherwise the score is read as above, whatever the other fields hold, and text reasoning and a list of text skills are taken as given |
| Matcher.NumericScoreSetsStatus | backend/app/agents/matcher.py:28-35 | a numeric score is recorded and sets the status (matched from 0.7, new below) whatever types the other fields have |
| Matcher.NullMissingSkillsStillMatched | backend/app/agents/matcher.py:28-41 | an answer with score 0.9 and null missing skills still marks the job matched |
| Matcher.EmptyAnswer | backend/app/agents/matcher.py:28-30 | an empty JSON object reads as score 0.0, empty reasoning and no missing skills |
| Matcher.MatchJob | backend/app/agents/matcher.py:26-41 | an unparseable answer leaves the job as it was; otherwise the job takes the score, reasoning and missing skills, becomes matched exactly when the score is at least 0.7 and new otherwise, and nothing else changes |
| Matcher.ScoreAll | backend/app/agents/matcher.py:59-60 | every job is scored against its own answer, in order |
| Matcher.KeptAbove | backend/app/agents/matcher.py:63 | exactly the scored jobs at or above the threshold are kept |
| Matcher.KeptAboveAppend | backend/app/agents/matcher.py:63 | the filter keeps the jobs' order |
| Matcher.KeepMatched | backend/app/agents/matcher.py:63 | the comparison raises exactly when some job has no score; otherwise it keeps the jobs at or above the threshold |
| Matcher.MatcherNode | backend/app/agents/matcher.py:43-67 | the node raises exactly when some job is left unscored after matching |
| Matcher.UnparseableAnswerFailsRun | backend/app/agents/matcher.py:32-63 | a new job whose answer cannot be parsed keeps no score and makes the whole node raise |
| Matcher.MatcherNodeIntendedKeeps | backend/app/agents/matcher.py:59-63 | corrected, the node keeps exactly the scored jobs at or above the threshold, and agrees with the written node whenever that one does not raise |
| Matcher.LowThresholdKeepsNewJob | backend/app/agents/matcher.py:32-63 | with a run threshold below 0.7, a job scored between the two is kept while its status stays new |
| Matcher.DefaultThresholdKeepsMatched | backend/app/agents/matcher.py:32-63 | with the default threshold and every job scored, the node keeps exactly the jobs marked matched |
| Reviewer.Documents | backend/app/agents/reviewer.py:31 | each job is stored as its document |
| Reviewer.ReviewerNode | backend/app/agents/reviewer.py:10-38 | the loop over the matched jobs computes the review: the jobs kept and the store after it |
| Reviewer.StoredAppend | backend/app/agents/reviewer.py:28 | after a document is added, a fingerprint is stored exactly when it was before or is that document's |
| Reviewer.ReviewStep | backend/app/agents/reviewer.py:26-33 | a job whose fingerprint is stored is skipped; any other job is saved and kept |
| Reviewer.ReviewStore | backend/app/agents/reviewer.py:26-33 | the store afterwards is the old store followed by the kept jobs' documents |
| Reviewer.ReviewKeepsOrder | backend/app/agents/reviewer.py:26-33 | the kept jobs are a subsequence of the matched jobs |
| Reviewer.ReviewOnlyAdds | backend/app/agents/reviewer.py:26-33 | a fingerprint stored before is still stored after |
| Reviewer.ReviewKeepsNew | backend/app/agents/reviewer.py:26-33 | no kept job was stored before, and no two kept jobs share a fingerprint |
| Reviewer.ReviewCovers | backend/app/agents/reviewer.py:26-33 | afterwards every matched job's fingerprint is stored |
| Reviewer.ReviewKeepsFirstNew | backend/app/agents/reviewer.py:26-33 | the first job with a fingerprint not yet stored is kept |
| Scout.SearchesForFacts | backend/app/agents/scout.py:23-36 | one search per listed board whose name is among the sources, each with the joined query, and with the location exactly for Google's board |
| Scout.SearchesInBoardOrder | backend/app/agents/scout.py:21-36 | the searches follow the fixed board order google_jobs, yc, wellfound, linkedin, indeed, and every board named in the sources is searched |
| Scout.NoBoardNoListings | backend/app/agents/scout.py:21-43 | sources naming no board give no searches and no raw jobs |
| Scout.ScoutNode | backend/app/agents/scout.py:11-47 | searches with the keywords joined by spaces and the location (Remote by default), and returns the listings of all searches concatenated in order |
| Scout.ListingsPrefix | backend/app/agents/scout.py:41-43 | each step of the flattening loop appends the next search's listings |
| Scout.ListingsAppend | backend/app/agents/scout.py:41-43 | flattening keeps the order of the searches |
| ScraperUtils.WaitClosedForm | backend/app/agents/scraper_utils.py:21-32 | the k-th wait is the initial delay times the backoff to the power k |
| ScraperUtils.Waits | backend/app/agents/scraper_utils.py:21-32 | one wait per retried attempt |
| ScraperUtils.WaitsGeometric | backend/app/agents/scraper_utils.py:21-32 | the waits grow geometrically by the backoff |
| ScraperUtils.DefaultWaits | backend/app/agents/scraper_utils.py:9 | with the defaults the waits are 1 and 2 seconds |
| ScraperUtils.RetryAsync | backend/app/agents/scraper_utils.py:9-40 | at most max_attempts calls; every call before the last failed; the first success is returned after the geometric waits; when all fail the result is an empty list, with no wait after the last attempt |
| LlmClient.Pow2 | backend/app/agents/llm_client.py:25 | a power of two is at least 1 |
| LlmClient.RetryOnRateLimit | backend/app/agents/llm_client.py:11-29 | between 1 and 5 calls; every call before the last hit a rate limit; the last call's outcome is returned; a failure is either not a rate limit or the fifth; the waits are 2 times powers of two |
| LlmClient.BackoffsDouble | backend/app/agents/llm_client.py:25 | each wait doubles the previous one: 2, 4, 8, 16 seconds |
| LlmClient.RateLimitIgnoresCase | backend/app/agents/llm_client.py:19-20 | the rate-limit test is the same on the lower-cased message |
| LlmClient.Generate | backend/app/agents/llm_client.py:31-50 | the model's text, or "" when the call fails |
| LlmClient.GenerateJson | backend/app/agents/llm_client.py:52-72 | the model's text, or "{}" when the call fails |
| LlmClient.JsonSystemMessage | backend/app/agents/llm_client.py:59 | the system message followed by the instruction to return only JSON |
| ResumeParser.LastIndexOf | backend/utils/resume_parser.py:46 | the position of the last occurrence of the character, or -1 exactly when it does not occur |
| ResumeParser.Extension | backend/utils/resume_parser.py:46 | os.path.splitext: a non-empty extension starts with its only dot, holds no slash, and ends the path |
| ResumeParser.ExtractTextFromFile | backend/utils/resume_parser.py:44-53 | .pdf files go to the PDF reader and .doc or .docx files to the DOCX reader, case-insensitively; any other extension raises "Unsupported file type: <ext>" |
| ResumeParser.Mentioned | backend/utils/resume_parser.py:67-72 | exactly the skills whose lower-cased name occurs in the lower-cased text |
| ResumeParser.ExtractSkills | backend/utils/resume_parser.py:55-74 | exactly the known skills (the built-in list when none or an empty list is given) that the text mentions, case-insensitively, each once |
| ResumeParser.MentionedAppend | backend/utils/resume_parser.py:70-72 | the skills mentioned in two lists of skills one after the other are those of the first list, then those of the second |
| ResumeParser.FindMentioned | backend/utils/resume_parser.py:67-72 | the loop over the known skills appends exactly the mentioned skills, in the order of the list |
| ResumeParser.CollectSkills | backend/utils/resume_parser.py:55-74 | the loop followed by dropping duplicates yields exactly ExtractSkills |
| ResumeParser.FirstNonEmpty | backend/utils/resume_parser.py:85-87 | the first pattern that has any match |
| ResumeParser.Max | backend/utils/resume_parser.py:89 | the largest of the numbers |
| ResumeParser.ExtractExperienceYears | backend/utils/resume_parser.py:76-100 | the largest number captured by the first pattern that matches; with no match, the number of year ranges found (0 when none) |
| ResumeParser.ExperienceYears | backend/utils/resume_parser.py:76-100 | the loop over the patterns, returning at the first one that matches, yields exactly ExtractExperienceYears |
| ResumeParser.LongTerms | backend/utils/resume_parser.py:121 | exactly the capitalised terms longer than 3 characters |
| ResumeParser.ExtractKeywords | backend/utils/resume_parser.py:102-123 | at most 20 distinct keywords, exactly those among the first 20 candidates |
| ResumeParser.ShortTermsDropped | backend/utils/resume_parser.py:120-121 | a term of at most 3 characters that no keyword pattern matches never becomes a keyword |
| ResumeParser.CollapseSpaces | backend/utils/resume_parser.py:141-154 | every whitespace run becomes one space; a non-empty text stays non-empty |
| ResumeParser.Take | backend/utils/resume_parser.py:143-155 | at most n characters of the text |
| ResumeParser.SectionSummary | backend/utils/resume_parser.py:136-143 | a summary section is used only when non-empty and is cut to 500 characters |
| ResumeParser.BlankLineAt | backend/utils/resume_parser.py:147 | the position of the first blank line, or -1 when there is none |
| ResumeParser.SplitBlankLines | backend/utils/resume_parser.py:147 | the text splits into at least one piece at blank lines |
| ResumeParser.NonEmptyStripped | backend/utils/resume_parser.py:147 | only non-empty stripped paragraphs are kept |
| ResumeParser.FirstSummaryLike | backend/utils/resume_parser.py:149-155 | the first paragraph that looks like a summary, or none exactly when none does |
| ResumeParser.GeneratedSummary | backend/utils/resume_parser.py:164-171 | the generated summary is empty exactly when no skill was found |
| ResumeParser.ExtractSummary | backend/utils/resume_parser.py:125-171 | a substantial summary section wins; else the first summary-like paragraph among the first three, collapsed and cut to 500; else the summary generated from the years and the top five skills |
| ResumeParser.SummaryBounds | backend/utils/resume_parser.py:125-171 | a summary taken from the text is at most 500 characters, and the summary is empty exactly when there is no section, no such paragraph and no skill |
| ResumeParser.ParseResume | backend/utils/resume_parser.py:173-202 | it never raises: success exactly when the text could be read, with every field extracted from that text; otherwise the empty record with the error's message |
| ResumeParser.UnsupportedFileRecord | backend/utils/resume_parser.py:44-202 | an unsupported extension gives the empty record with the unsupported-file message |
| ResumeParser.ParsedResumeBounds | backend/utils/resume_parser.py:74-123 | at most 20 keywords, all distinct, and no skill twice |
| JobService.SearchKeywords | backend/app/services/job_service.py:25-33 | the search keywords are exactly the caller's keywords, the profile's keywords, and the profile's skills when no keywords were passed, each once; a non-empty list passed in is itself extended with the profile's keywords |
| JobService.ScanSources | backend/app/services/job_service.py:40 | the given sources, or google_jobs and yc when none are given |
| JobService.ScanLocation | backend/app/services/job_service.py:47 | the given location wins; otherwise the profile's preferred location, Remote by default; preferences that are not a dict raise |
| JobService.RunFields | backend/app/services/job_service.py:80-100 | a completed run records status completed, the time, and the raw and matched counts; a failed run records status failed, the time and the error |
| JobService.RunJobScan | backend/app/services/job_service.py:13-100 | set-up fails only when the location lookup does; otherwise the state is built from the keywords, sources and location, the pipeline's outcome is recorded on the scan run when there is a database and a run id, and a failure is the state's only error |
| JobService.RecordedRun | backend/app/services/job_service.py:80-100 | recording touches only the first run with that id and merges the fields into it |
| JobService.RunFieldsStatus | backend/app/services/job_service.py:80-100 | the recorded run shows completed with its counts, or failed with its error, and keeps its other fields |
| JobService.EndOfDay | backend/app/services/job_service.py:132 | the last second of the same day |
| JobService.DateQuery | backend/app/services/job_service.py:119-137 | the lower bound is present exactly when date_from is truthy and parses, and the upper bound, at 23:59:59, exactly when date_to is truthy and parses |
| JobService.ListJobsQuery | backend/app/services/job_service.py:104-137 | status, scan run and source are filtered exactly when truthy; the minimum score exactly when not None, even 0; the date range only when some bound parsed |
| JobService.ListOrder | backend/app/services/job_service.py:147-152 | only posted_at, match_score and created_at sort, descending exactly for desc |
| JobService.SortJobs | backend/app/services/job_service.py:146-152 | sorting permutes the jobs, and an unknown sort key leaves them as found |
| JobService.SortJobsSorted | backend/app/services/job_service.py:147-152 | with a known key the jobs end up ordered on it |
| JobService.ListJobs | backend/app/services/job_service.py:102-154 | the jobs found by the query, cut to the limit and then sorted |
| JobService.ListedJobsMatch | backend/app/services/job_service.py:102-154 | at most `limit` jobs, each stored and matching every filter |
| JobService.ZeroMinimumScoreKept | backend/app/services/job_service.py:115-116 | a minimum score of 0 is still sent as a filter |
| JobService.GenerateOutreach | backend/app/services/job_service.py:162-190 | None exactly when no job has that id; otherwise the writer's result for that job |
| Values.DisplayWholeReal | backend/app/services/dashboard_service.py:69 | a whole float is formatted with a trailing .0, so it never reads like the integer of the same value |
| DashboardService.RelativeTime | backend/app/services/dashboard_service.py:24-35 | under a minute is Just now, then whole minutes, whole hours, and whole days for a day or more |
| DashboardService.JustNowExactly | backend/app/services/dashboard_service.py:26-35 | Just now exactly when the difference is under a day and its seconds within the day are under a minute; every other text ends in " ago" |
| DashboardService.FutureTime | backend/app/services/dashboard_service.py:24-35 | a time in the future counts by its seconds within the day, as a negative timedelta does: ten seconds ahead reads 23h ago |
| DashboardService.FormatRelativeTime | backend/app/services/dashboard_service.py:12-35 | a falsy timestamp, or a string that does not parse, is Unknown; a date or a parsed string gives the relative time; any other value raises |
| DashboardService.Activity | backend/app/services/dashboard_service.py:66-83 | the entry carries its type and timestamp |
| DashboardService.RunActivity | backend/app/services/dashboard_service.py:66-72 | a completed run's entry is a scan_completed entry stamped with its completion time, or else its start time; it fails exactly when that time cannot be formatted |
| DashboardService.IsHighMatch | backend/app/services/dashboard_service.py:76 | a job is a high match exactly when its score is truthy and at least 0.7; a truthy score that is not a number raises |
| DashboardService.Percent | backend/app/services/dashboard_service.py:80 | the percentage is the score times 100, truncated |
| DashboardService.JobActivity | backend/app/services/dashboard_service.py:77-83 | a job_matched entry stamped with the job's creation time; it fails exactly when that time cannot be formatted |
| DashboardService.Entry | backend/app/services/dashboard_service.py:64-83 | runs add an entry exactly when completed, and jobs exactly when they are a high match |
| DashboardService.ActivitiesPrefix | backend/app/services/dashboard_service.py:64-83 | each step of the loops adds the item's entry, or stops at the first failure |
| DashboardService.ActivitiesErr | backend/app/services/dashboard_service.py:64-83 | building the entries fails exactly when some item's entry fails, with the first failure's error |
| DashboardService.ActivitiesOk | backend/app/services/dashboard_service.py:64-83 | the entries are exactly those the items add, no more entries than items |
| DashboardService.RunEntries | backend/app/services/dashboard_service.py:64-72 | the loop over the recent runs yields the entries of the completed runs in order, or the first failure |
| DashboardService.JobEntries | backend/app/services/dashboard_service.py:75-83 | the loop over the first jobs yields the entries of the high matches in order, or the first failure |
| DashboardService.ActivityFeed | backend/app/services/dashboard_service.py:61-87 | the loops build the feed |
| DashboardService.FeedIsTop | backend/app/services/dashboard_service.py:85-87 | at most 10 entries, newest first, and every entry left out is no newer than each one kept |
| DashboardService.FeedEntries | backend/app/services/dashboard_service.py:61-87 | every entry comes from a completed run or from one of the first three jobs; when there are at most 10 entries, none is dropped |
| DashboardService.GetStats | backend/app/services/dashboard_service.py:37-101 | the counts, pending reviews as matched plus new, the total scanned, the score statistics, the top sources, the status breakdown (keyed by exactly the first ten distinct statuses, each with its job count) and the feed; it fails with the feed's error when the feed fails, otherwise with the error of `round` when the average is null, and succeeds exactly when neither happens |
| DashboardService.RecentActivity | backend/app/services/dashboard_service.py:57-87 | the feed is built from the five latest runs and the five latest jobs |
| OutreachService.TemplateRecordFields | backend/app/services/outreach_service.py:18-27 | a new template has the fresh id, the owner, the name, subject and content given (null when absent), the type given or email, and the time as both creation and update time |
| OutreachService.CreateTemplate | backend/app/services/outreach_service.py:17-28 | appends the new template and returns its id |
| OutreachService.UpdateFields | backend/app/services/outreach_service.py:36-42 | the update holds the time and exactly the editable fields the caller gave |
| OutreachService.UpdateDocument | backend/app/services/outreach_service.py:36-42 | the update built field by field is the update time plus exactly the editable fields the caller gave |
| OutreachService.UpdateTemplate | backend/app/services/outreach_service.py:30-45 | updates, and answers true, exactly when the user owns the template; otherwise nothing changes |
| OutreachService.UpdateTouchesOnlyTemplate | backend/app/services/outreach_service.py:36-44 | only that template changes: it gets the time and the given fields, and keeps all its other fields |
| OutreachService.CopyData | backend/app/services/outreach_service.py:52-57 | the copy's name is the original's followed by " (Copy)"; subject, content and type are the original's |
| OutreachService.DuplicateTemplate | backend/app/services/outreach_service.py:47-58 | None, with nothing changed, exactly when the user does not own the template; otherwise a copy is appended under the fresh id |
| OutreachService.CopyKeepsTemplate | backend/app/services/outreach_service.py:47-58 | the stored copy belongs to the user and carries the original's subject, content and type |
| OutreachService.DeleteTemplate | backend/app/services/outreach_service.py:60-66 | deletes, and answers true, exactly when the user owns the template; otherwise nothing changes |
| OutreachService.RecordAt | backend/app/services/outreach_service.py:90-91 | the k-th stored record is the k-th template created, with its own fresh id |
| OutreachService.CreateDefaultTemplates | backend/app/services/outreach_service.py:68-91 | the loop appends the three default templates in order |
| OutreachService.DefaultTemplatesInOrder | backend/app/services/outreach_service.py:69-88 | three templates owned by the user: an email, a LinkedIn message that alone has no subject, and a follow-up |
| OutreachService.DefaultKinds | backend/app/services/outreach_service.py:69-88 | the defaults are an email, a LinkedIn message and a follow-up, in that order, and only the LinkedIn message has no subject |
| UserService.GetUserByClerkId | backend/app/services/user_service.py:10-11 | None exactly when no user has that Clerk id; otherwise the first stored user that has it |
| UserService.UpdateProfile | backend/app/services/user_service.py:13-14 | the user with that id gets the profile |
| UserService.UpdateProfileOnlyProfile | backend/app/services/user_service.py:13-14 | only that user's profile field changes, and no other user changes |
| UserService.CreateUser | backend/app/services/user_service.py:16-24 | the user is stored with an id and the three default templates are seeded for that id |
| UserService.NewUserOwnsDefaults | backend/app/services/user_service.py:16-24 | the default templates of a new user without an id of its own belong to the fresh id |
| JobStore.UpdatedJobs | frontend/src/store/jobStore.js:18-22 | the list keeps its length and order; each job with the id has the updates overlaid, every other job is untouched |
| JobStore.UpdateJobIdempotent | frontend/src/store/jobStore.js:18-22 | an update that does not change ids keeps which jobs have the id, and applying it twice equals applying it once |
| JobStore.AddedJobUpdated | frontend/src/store/jobStore.js:14-22 | updating a job just added, whose id no other job has, changes only the head of the list |
| JobStore.Store.constructor | frontend/src/store/jobStore.js:4-7 | the store starts with no jobs, not loading, no error, not scanning |
| JobStore.Store.SetJobs | frontend/src/store/jobStore.js:9 | replaces the jobs and nothing else |
| JobStore.Store.SetLoading | frontend/src/store/jobStore.js:10 | replaces the loading flag and nothing else |
| JobStore.Store.SetError | frontend/src/store/jobStore.js:11 | replaces the error and nothing else |
| JobStore.Store.SetScanning | frontend/src/store/jobStore.js:12 | replaces the scanning flag and nothing else |
| JobStore.Store.AddJob | frontend/src/store/jobStore.js:14-16 | puts the job in front of the others and changes nothing else |
| JobStore.Store.UpdateJob | frontend/src/store/jobStore.js:18-22 | the jobs become the updated list; the flags and error stay |
| JobStore.Store.ClearJobs | frontend/src/store/jobStore.js:24 | empties the jobs and changes nothing else |
| ProfileStore.Overlaid | frontend/src/store/profileStore.js:12-14 | the keys are those of the profile (none when there is none) and the updates; the updates win, other fields keep their values |
| ProfileStore.UpdatesCompose | frontend/src/store/profileStore.js:12-14 | two updates in a row equal one update with the second overlaid on the first |
| ProfileStore.UpdateAfterClear | frontend/src/store/profileStore.js:12-16 | updating a cleared profile gives exactly the updates |
| ProfileStore.Store.constructor | frontend/src/store/profileStore.js:4-6 | the store starts with no profile, not loading, no error |
| ProfileStore.Store.SetProfile | frontend/src/store/profileStore.js:8 | replaces the profile and nothing else |
| ProfileStore.Store.SetLoading | frontend/src/store/profileStore.js:9 | replaces the loading flag and nothing else |
| ProfileStore.Store.SetError | frontend/src/store/profileStore.js:10 | replaces the error and nothing else |
| ProfileStore.Store.UpdateProfile | frontend/src/store/profileStore.js:12-14 | the profile becomes the old one with the updates overlaid; the flag and error stay |
| ProfileStore.Store.ClearProfile | frontend/src/store/profileStore.js:16 | removes the profile and changes nothing else |
| Api.ApiBaseUrl | frontend/src/lib/api.js:5-19 | a configured address wins; otherwise port 8000 of the page's own host, or of localhost when the page is served locally |
| Api.BaseUrlFallback | frontend/src/lib/api.js:11-18 | without a configured address the URL is an http URL ending in port 8000, and it is the localhost address exactly when the page is served locally |
| Api.ListJobsParams | frontend/src/lib/api.js:62-74 | the parameters hold the user, the limit (50 when falsy) and exactly the optional filters that are truthy, with their values, and nothing else |
| Api.ZeroFiltersDropped | frontend/src/lib/api.js:65-71 | a limit of 0 is sent as 50 and a minimum score of 0 is not sent at all |
| Api.UpdateStatusRequest | frontend/src/lib/api.js:91-93 | a PATCH of the job's status path whose body holds exactly the status |
| Settings.LoadedSettings | frontend/src/pages/Settings.jsx:37-49 | each setting is the stored value when truthy and the default otherwise; the roles are the stored list; the salary minimum is the stored value as text |
| Settings.NothingStoredLoadsDefaults | frontend/src/pages/Settings.jsx:13-22 | preferences holding none of the page's settings load as the defaults |
| Settings.Without | frontend/src/pages/Settings.jsx:105 | the role is gone, every other role is kept, and the list does not grow |
| Settings.WithoutAbsent | frontend/src/pages/Settings.jsx:105 | removing a role that is not there changes nothing |
| Settings.WithoutAppend | frontend/src/pages/Settings.jsx:105 | removing from a list in two parts removes from each part, keeping the order |
| Settings.Toggled | frontend/src/pages/Settings.jsx:101-108 | the role is present afterwards exactly when it was absent before, other roles unchanged; an absent role goes at the end |
| Settings.ToggleTwiceRestores | frontend/src/pages/Settings.jsx:101-108 | toggling an absent role twice gives back the original list |
| Settings.SalaryValue | frontend/src/pages/Settings.jsx:72 | an empty salary is null; otherwise the parsed number, or null when it does not parse |
| Settings.SavedPreferences | frontend/src/pages/Settings.jsx:63-76 | the stored preferences with every setting of the page written over them; other stored preferences are kept |
| Settings.SaveThenLoad | frontend/src/pages/Settings.jsx:37-76 | loading the preferences just saved gives back the settings on the page, for settings the page can hold |
| Settings.ProfileFields | frontend/src/pages/Settings.jsx:78-87 | the profile sent names the signed-in user and carries exactly nine fields: the stored name, else the sign-in name, else "User"; the e-mail; the stored skills and keywords, else empty lists; the stored experience, else 0; the stored summary and LinkedIn address; and the location from the stored preferences |
| Settings.SaveRequest | frontend/src/pages/Settings.jsx:57-99 | nothing is sent without a user or loaded data; saving fails when the loaded data has no profile; otherwise the profile fields with the saved preferences spread over them |
| Settings.SaveSendsSettings | frontend/src/pages/Settings.jsx:63-89 | a save with a loaded profile sends every setting of the page and keeps the other stored preferences |
| Settings.Page.constructor | frontend/src/pages/Settings.jsx:8-22 | the page opens with the default settings, no data and the spinner on |
| Settings.Page.LoadSettings | frontend/src/pages/Settings.jsx:30-55 | with a user, the spinner ends; a loaded profile sets the settings from its preferences; a failed load keeps the page as it was |
| Settings.Page.ToggleRoleFocus | frontend/src/pages/Settings.jsx:101-108 | only the role list changes, to the toggled list |
| ProfilePage.Texts | frontend/src/pages/ProfilePage.jsx:39 | each list item as the text join gives it, in order |
| ProfilePage.SkillsText | frontend/src/pages/ProfilePage.jsx:39 | a missing skills list reads as ""; a list is joined with ", "; any other value fails the load, as calling join on it throws |
| ProfilePage.TextOr | frontend/src/pages/ProfilePage.jsx:40 | the value's text, or the fallback exactly when that text is empty or the value is missing |
| ProfilePage.LoadedForm | frontend/src/pages/ProfilePage.jsx:37-43 | the load fails exactly when the skills cannot be joined; otherwise the four form fields from the profile, each with its default when falsy |
| ProfilePage.RemoteOnlyAlwaysOn | frontend/src/pages/ProfilePage.jsx:42 | the remote-only box always loads ticked, even when the stored preference is false |
| ProfilePage.Cleaned | frontend/src/pages/ProfilePage.jsx:62 | trimmed pieces with the empty ones dropped: every piece kept is non-empty and has no outer space |
| ProfilePage.CleanedCommaFree | frontend/src/pages/ProfilePage.jsx:62 | the cleaned pieces of comma-free text stay comma-free |
| ProfilePage.ParseSkills | frontend/src/pages/ProfilePage.jsx:62 | every skill parsed from the text is trimmed, non-empty and comma-free |
| ProfilePage.SplitJoin | frontend/src/pages/ProfilePage.jsx:39-62 | splitting ", "-joined comma-free skills at the commas gives the first skill and each other skill with its leading space |
| ProfilePage.CleanedSpaced | frontend/src/pages/ProfilePage.jsx:62 | cleaning those pieces gives back the skills |
| ProfilePage.SkillsRoundTrip | frontend/src/pages/ProfilePage.jsx:39-62 | skills that are trimmed, non-empty and comma-free survive loading into the form and submitting it unchanged |
| ProfilePage.Changed | frontend/src/pages/ProfilePage.jsx:99-105 | the named field becomes the checkbox's state or the input's text; the other fields are kept |
| ProfilePage.SubmitBody | frontend/src/pages/ProfilePage.jsx:58-66 | the profile sent carries exactly seven fields: the user id; the sign-in name, else "User"; the e-mail; the skills parsed from the form; the parsed experience, or null when it does not parse; and the form's location and remote-only flag |
| ProfilePage.SubmitRequest | frontend/src/pages/ProfilePage.jsx:52-76 | nothing is sent without a user; building the request fails exactly when the skills field is not text; otherwise it sends the parsed skills for the user |
| ProfilePage.Page.constructor | frontend/src/pages/ProfilePage.jsx:12-21 | the page opens with the default form and no spinner |
| ProfilePage.Page.LoadProfile | frontend/src/pages/ProfilePage.jsx:30-50 | with a user the spinner ends; a successful load goes to the profile store and, when it holds a profile, fills the form; a failure keeps both |
| ProfilePage.Page.HandleChange | frontend/src/pages/ProfilePage.jsx:99-105 | the form becomes the changed form |
| TemplateEditor.LoadedForm | frontend/src/components/outreach/TemplateEditor.jsx:12-21 | each of the four fields is the template's when truthy and the new template's default otherwise |
| TemplateEditor.EmptyTemplateLoadsDefaults | frontend/src/components/outreach/TemplateEditor.jsx:5-21 | a template with none of the fields opens as a new one |
| TemplateEditor.Spliced | frontend/src/components/outreach/TemplateEditor.jsx:35 | the text before the selection, then the variable, then the text after it |
| TemplateEditor.InsertionUndone | frontend/src/components/outreach/TemplateEditor.jsx:35 | inserting at a caret and cutting the variable out again gives back the text |
| TemplateEditor.Editor.constructor | frontend/src/components/outreach/TemplateEditor.jsx:5-21 | the editor opens on the template's fields, or on a new template when none is given |
| TemplateEditor.Editor.InsertVariable | frontend/src/components/outreach/TemplateEditor.jsx:28-44 | without the text area nothing changes; otherwise the selection in the body is replaced by the variable, the other fields stay, and the caret moves past the variable |
| JobsPage.WithStatus | frontend/src/pages/JobsPage.jsx:46 | exactly the jobs with that status |
| JobsPage.WithStatusAppend | frontend/src/pages/JobsPage.jsx:46 | filtering keeps the store's order |
| JobsPage.FilteredJobs | frontend/src/pages/JobsPage.jsx:46 | every job under "all", otherwise exactly the jobs with the chosen status, in their order (the order-keeping filter WithStatus) |
| JobsPage.MatchColor | frontend/src/pages/JobsPage.jsx:48-52 | green exactly from 0.9, blue exactly from 0.7 below 0.9, orange exactly below 0.7 |
| JobsPage.MatchColorMonotone | frontend/src/pages/JobsPage.jsx:48-52 | a better score never gets a worse colour |
| JobsPage.HighMatchNotOrange | frontend/src/pages/JobsPage.jsx:48-52 | a score the dashboard reports as a high match is never orange |
| JobsPage.ZeroScoreNoBadge | frontend/src/pages/JobsPage.jsx:108 | a missing or zero score shows no badge |
| JobsPage.Page.constructor | frontend/src/pages/JobsPage.jsx:10-11 | the page opens on all jobs, busy with none |
| JobsPage.Page.SetFilter | frontend/src/pages/JobsPage.jsx:10 | changes only the filter |
| JobsPage.Page.HandleGenerateOutreach | frontend/src/pages/JobsPage.jsx:32-44 | without a user nothing happens; otherwise one request for the job is made while the page shows it busy, and afterwards it is busy with none |
| JobsPage.LoadJobs | frontend/src/pages/JobsPage.jsx:19-30 | with a user the store stops loading and holds the listed jobs (none when the answer has none), or keeps its jobs when the request fails |

## Left out
- Logging, `print`, `console.*`, alerts and `setTimeout` are output only and are left out.
- The job boards' scrapers, the LLM calls (including normalize_job_batch and the Groq call in match_job) and the scan pipeline are I/O. Their answers are parameters of the operations that use them.
- `asyncio.gather` in the scout and the matcher is modelled as a sequential loop in list order. Background tasks are left out.
- SHA-256 in generate_fingerprint is a parameter (an uninterpreted hash function). uuid4 ids are fresh-id parameters.
- The regular expressions of the resume parser and the PDF and DOCX readers are parameters. Only dispatch, bounds and the record's shape are stated.
- Text is modelled character by character with ASCII case rules. Unicode case folding and normalisation are left out.
- Floating-point quantities are exact reals. Scores are only compared with thresholds.
- DashboardService.GetStats: the average match score is not rounded to two places; only the failure of `round` on a null average is modelled.
- ScanHistoryRepository.TotalScanned: a jobs_found stored as a non-integral number counts as 0, where `$sum` would add it.
- Times are whole seconds passed in as `now`. Time zones, microseconds and ISO parsing are left out (parse_posted_date is a parameter of the normalizer). utcnow is read once per operation.
- Python's `list(set(xs))` has no fixed order. The model keeps first occurrences, in ExtractSkills and in the keyword lists.
- Pydantic's coercions are modelled as type checks on the stored values.
- Sorting values of different types raises in Python. The model orders them by type rank, as the document store does.
- Values.Display: `str()` of lists, dicts and dates is left out, and so is `str()` of a float that is not a whole number below 10^16 in size (Python's shortest round-trip digits). Such values render as "" in fingerprints, copy names and feed details.
- A missing `_id` reads as null.
- backend/app/db/models.py is not part of this model. The record types come from backend/db/models.py.
- The normalizer imports backend/agents/normalization_utils.py. The model uses the functions of backend/app/agents/normalization_utils.py in its place.
- The Mongo driver, aggregation pipelines and FastAPI routes are not part of this model. The aggregations are functions over the stored jobs. Queries and updates act on the in-memory collection of test_base_repository.py, extended with two features of the production store. Dotted paths such as `metadata.fingerprint` read through sub-documents, and `$gte`/`$lte` conditions compare values. The fake itself only compares top-level fields for equality, so there find_by_fingerprint and list_jobs' score and date filters would match nothing.
- Call sites whose arguments do not fit their callees are not modelled: those callees are modelled by their own definition (for example stop_run's extra argument and the user id get_recent_logs needs from get_timeline). The base repository's find_one and find_all are the one exception, in the next line.
- BaseRepository.FindOne / BaseRepository.FindAll: the source's `find_one(query)` and `find_all(query, limit)` (backend/app/db/repositories/base_repository.py:9-14) accept no `sort` or `projection`, so list_scans, get_last_completed_scan and get_last_run (backend/app/db/repositories/scan_history_repository.py:34-38, 42, 58) and the tests at backend/app/db/repositories/test_base_repository.py:112 and 117, which pass them, raise TypeError as written; the model instead gives both methods the signature those callers and tests assume, with the in-memory collection's sort and projection, and with no sort and no projection they are the source's methods.
- Normalizer.JobRecord: the date parser is a parameter that cannot fail, so a truthy `posted_at` that is not a string, on which parse_posted_date (backend/app/agents/normalization_utils.py:78-90) raises TypeError at the relative-date search and the entry is discarded, is kept in the model with whatever date the parameter gives.
- JobService.SearchKeywords: a truthy profile `keywords` or `skills` that is not a list reads as no items; the source's `.extend` (backend/app/services/job_service.py:26-30) adds a string's characters one by one and raises TypeError for a number.
- get_job, update_status, list_templates and get_template only forward to the repository and have no model of their own.
- RunService.GetTimeline: the logs are a parameter, because the service's call to the timeline repository lacks the user id it needs. log_step is left out.
- Scout.ScoutNode: a location that is present but null is not modelled. Only a missing location defaults to "Remote".
- Matcher.ReadAnswer: the job record holds only text for the reasoning and the missing skills, so a reasoning that is not text is recorded as none and missing skills that are not a list of text as an empty list; the source stores such values as given (its log line's `len()` may then raise, which the handler catches after the status is set).
- Matcher.ReadScore: a score that `>=` cannot compare with a float (text, a list, an object) leaves the job as it was in the model; the source records that value before the comparison raises, and later fails the node on it, as the model does for the unscored job. A boolean score is recorded as 0.0 or 1.0 rather than as the boolean.
- RunService.StatusOf: a started_at that is not a date is not modelled.
- ResumeParser.ParseResume: the dict it returns is a record with one field per key.
- ResumeParser.ExtractKeywords: the loop that extends the keyword list pattern by pattern is not modelled step by step; the searches are one parameter that returns every pattern's matches in pattern order, and the list is built as a value.
- Matcher.MatchJob: the source assigns the score, reasoning, missing skills and status on the job object in place, and `matcher_node`'s state still holds that same object; the model returns the updated job as a new value, so that aliasing is not captured.
- JobService.RunJobScan: the pipeline's nodes are one parameter that returns the final state or an error.
- Values.JsText: non-integral numbers, lists, objects and dates render as "".
- JavaScript's undefined and null are the same value in the model.
- Settings.LoadedSettings: a truthy stored role_focus that is not a list reads as an empty list.
- Settings.SavedPreferences: spreading stored preferences that are not an object contributes no fields.
- JobStore.UpdatedJobs: ids are compared as model values, so an integer id and the same number held as a real differ, where JavaScript's `===` finds them equal. The role comparisons of Settings.Toggled work the same way.
- TemplateEditor.LoadedForm: a truthy body that is not a string is read as its text.
- The pages' spinner and saved flags are modelled only where an operation sets them.
- The badge's `Math.round` percentage is display only and is left out.
- The other HTTP calls of api.js are I/O.
- TemplateEditor's handleSubmit only passes the form to its caller.
- ProfilePage's handleStartScan only sends a fixed request and sets the scanning flags around it. It is left out.

## Findings
| source | as written | input that shows it | evidently intended | confidence | as-written member | corrected member |
|---|---|---|---|---|---|---|
| backend/app/agents/normalization_utils.py:44 | the upper bound of a range must follow the range mark directly, so a currency sign before it stops the group from matching; the maximum falls back to the minimum, and the interval is never read | "$100k-$150k per year", the format the function's own docstring names, gives min = max = 100000, currency "$", no interval | min 100000, max 150000, currency "$", interval "year" | not executed | NormalizationUtils.SalaryExampleAsWritten | NormalizationUtils.SalaryExampleIntended |
| backend/app/agents/matcher.py:63 | an answer that is not JSON leaves a new job's match_score at None (lines 39-41), and `None >= threshold` then raises TypeError, failing the whole matcher node | one normalised job whose model answer cannot be parsed | skip the jobs that could not be scored and keep the others | not executed | Matcher.UnparseableAnswerFailsRun | Matcher.MatcherNodeIntendedKeeps |
