# Task scoring and listing model

A Dafny model of the rule-based core of a task planner's backend. Every task is rated on
four criteria: focus level, mental load, urgency and movement. Each rating is one of three
levels: low, medium or high.

The levels come either from the user or from keyword heuristics over the task's description.
They are weighted into a raw score, then a mana cost (0–100), then an energy zone (Peak,
Balance or Low). Tasks also carry a work tag: deep_work, admin, communicating or learning. The
user gives the tag, or keyword heuristics infer it.

Around this engine sits the controller policy:

- `createTask` validates a request and scores the task;
- `updateTask` re-scores and re-tags a stored task, but only when asked;
- `previewScore` scores a draft;
- `listTasks` builds the database filter, including the UTC day window, and orders the
  fetched tasks. The AI-scheduled group comes first, sorted by energy; the manual group
  follows, sorted by creation time.

The model is organised as follows.

- **JS values.** `Js` models request values as a JSON datatype. JavaScript truthiness, `??`,
  destructuring defaults, `String(x)`, `trim` and ASCII `toLowerCase` are spelled out.
  `Outcomes` holds `Option` and `Result`.
- **Enums and keywords.** `TaskDomain` holds the enums and tables. `Keywords` holds the
  keyword lists and word-boundary matching.
- **The scoring service** (`services/taskScoringService.js`) has five modules:
  - `Normalization`: level and tag normalisation, and tag classification;
  - `Heuristics`: the keyword inference;
  - `Calculator`: the weighted calculator;
  - `Scoring`: the `scoreTask` loop, written as a method and proved against a specification
    function;
  - `Provenance`: the scoring-source label.
- **The controller** (`controller/taskController.js`) has one or more modules per
  operation:
  - `Subtasks`, `Requests`, `TaskCreation`, `ScorePreview`;
  - for `updateTask`: `UpdateFields`, `UpdateWrites`, `TaskUpdate`, `UpdateLaws`;
  - for `listTasks`: `DateFilter`, `TaskOrder`, `StableSort`, `TaskListing`.

The loops of the source are methods with loop invariants. Each method's postcondition ties
its result to a specification function, and lemmas state the properties of those functions.

The two in-place `.sort` calls of `listTasks` are modelled as an insertion sort over an
`array`. It is proved to produce the stable sort defined by `StableSort.SortedBy`.

A few representation choices:

- Timestamps are integer milliseconds since the epoch.
- Whatever `new Date(...)` would make of a request value is an input (`None` for an invalid
  date).
- A fetched task list is an input sequence, and a stored task is a record.
- An update is a map from field keys to field values.

## Model

| member | source | states |
|---|---|---|
| TaskDomain.ParseLevelName | model/Task.js:10 | a name parses to the level whose name it is, and fails exactly when no level has that name |
| TaskDomain.ParseTagName | model/Task.js:12 | a name parses to the tag whose name it is, and fails exactly when no tag has that name |
| TaskDomain.Points | services/taskScoringService.js:17-21 | every level is worth 1, 2 or 3 points |
| TaskDomain.Weight | services/taskScoringService.js:10-15 | every criterion weighs between 1 and 3 |
| TaskDomain.CriteriaComplete | controller/taskController.js:11 | every criterion occurs exactly once in the scoring order and in the controller's key order |
| Normalization.LevelOfNumber | services/taskScoringService.js:61-68 | a number is accepted iff it is 1, 2 or 3, and then the level is worth that many points; any other number fails with an error that names it |
| Normalization.LevelOfText | services/taskScoringService.js:70-76 | a string is accepted iff its trimmed, lower-cased form is low, medium or high, and the level is the one with that name; otherwise it fails with an error naming the string |
| Normalization.NormalizeLevelMeaning | services/taskScoringService.js:56-79 | an absent value (undefined or null) gives the fallback; a number is accepted iff it is 1, 2 or 3, giving the level worth that many points, and otherwise fails naming it; a string is accepted iff its trimmed, lower-cased form is low, medium or high, giving the level of that name, and otherwise fails naming it; booleans, arrays and objects fail as an unsupported type |
| Normalization.NormalizeLevelIdempotent | services/taskScoringService.js:70-76 | normalising the name of any level gives that level back, whatever the fallback |
| Normalization.NormalizeLevelNumericAgrees | services/taskScoringService.js:61-76 | the number of points of a level and the level's name normalise to the same result |
| Normalization.NormalizeLevelPadded | services/taskScoringService.js:70-71 | surrounding whitespace changes neither whether a level string is accepted nor the level it gives |
| Normalization.CollapseWhitespace | services/taskScoringService.js:85-87 | the result holds no whitespace, is no longer than the input, and leaves whitespace-free text alone |
| Normalization.CollapseRun | services/taskScoringService.js:85-87 | a maximal run of whitespace after whitespace-free text becomes exactly one `_`, with the text in front kept and the rest collapsed in turn |
| Normalization.CanonicalSpaced | services/taskScoringService.js:83-87 | two whitespace-free words with any run of whitespace between them canonicalise to the lower-cased words joined by one `_` |
| Normalization.NormalizeTagSpaced | services/taskScoringService.js:81-92 | two words separated by any run of whitespace, in any letter case, are accepted as the tag whose name is the lower-cased words joined by `_` |
| Normalization.DeepWorkSpaced | services/taskScoringService.js:81-92 | "Deep", any run of whitespace, then "Work" is the deep_work tag |
| Normalization.NormalizeTag | services/taskScoringService.js:81-92 | a falsy tag gives no tag; otherwise the tag is the one whose name is the trimmed, lower-cased, whitespace-run-to-underscore form, and the call fails iff no tag has that name, with an error carrying the tag text |
| Normalization.NormalizeTagRoundTrip | services/taskScoringService.js:81-92 | normalising the name of any tag gives that tag back |
| Normalization.ClassifyTaskTag | services/taskScoringService.js:103-119 | a truthy supplied tag gives the normalised tag with manual source, or its normalisation error; no tag with AI disabled fails as tag-required; otherwise the inferred tag with AI source; the source is manual iff a tag was supplied |
| Normalization.ClassifySuppliedIgnoresAi | services/taskScoringService.js:103-110 | with a supplied tag, neither the description nor the AI flag affects the classification |
| Heuristics.InferredLevelTiers | services/taskScoringService.js:126-165 | each criterion is high iff its high keywords match, takes its second tier (low, or medium for movement) iff only the second-tier keywords match, and keeps its default (medium, or low for movement) iff neither matches |
| Heuristics.InferredLevelsByCriterion | services/taskScoringService.js:129-163 | the inferred levels assign exactly the four criteria, each by its own rule |
| Heuristics.OverrideLevel | services/taskScoringService.js:136-162 | one if/else chain replaces a criterion's default level with the level its keywords call for |
| Heuristics.InferLevelsFromDescription | services/taskScoringService.js:126-165 | fails iff the description is neither absent nor a string; otherwise (an absent description reading as the empty text) gives, for every criterion, the level its tier rule assigns to the lower-cased text |
| Heuristics.InferTag | services/taskScoringService.js:94-101 | fails iff the description is neither absent nor a string; otherwise, over the lower-cased description (an absent one reading as the empty text), the tag is deep_work iff its keywords match, else communicating iff those match, else learning iff those match, else admin |
| Calculator.PointsOrMedium | services/taskScoringService.js:171-173 | every criterion counts 1 to 3 points: its level's points, or medium's 2 when it has no level |
| Calculator.WeightedSum | services/taskScoringService.js:171-174 | a weighted sum lies between one and three times the total weight of the criteria summed |
| Calculator.MaxRawScoreOf | services/taskScoringService.js:23-26 | the maximum raw score is three times the total weight |
| Calculator.MaxRawScoreValue | services/taskScoringService.js:10-26 | the weights total 9 and the maximum raw score is 27 |
| Calculator.RawScoreFormula | services/taskScoringService.js:170-174 | raw score = 3·focus + 3·mental load + 2·urgency + 1·movement in points, missing levels as medium, hence between 9 and 27 |
| Calculator.RawScoreMonotone | services/taskScoringService.js:170-174 | raising one criterion's level raises the raw score by exactly the criterion's weight times the points gained |
| Calculator.ManaCost | services/taskScoringService.js:176 | the mana cost is the integer nearest to raw·100/MAX_RAW_SCORE, a half rounding up |
| Calculator.ManaCostRange | services/taskScoringService.js:176 | a raw score from 9 to 27 gives a mana cost from 33 to 100, with both ends reached |
| Calculator.ManaCostMonotone | services/taskScoringService.js:176 | the mana cost never falls as the raw score rises |
| Calculator.FindBand | services/taskScoringService.js:177 | the first band whose minimum the mana reaches is found, and none is found iff no band's minimum is reached |
| Calculator.EnergyZone | services/taskScoringService.js:28-32 | Peak iff mana ≥ 70, Balance iff 40 ≤ mana < 70, Low iff mana < 40 |
| Calculator.EnergyZoneMonotone | services/taskScoringService.js:28-32 | a higher mana cost never gives a lower zone |
| Calculator.CalculateScoresMeaning | services/taskScoringService.js:170-180 | the raw score is 3·focus + 3·mental load + 2·urgency + movement in points (a missing level as medium) and lies in 9..27; the mana cost is the integer nearest to 100·raw/27, a half rounding up, and lies in 33..100; the zone is Peak iff mana ≥ 70, Balance iff 40 ≤ mana < 70, Low iff mana < 40 |
| Calculator.CalculateScoresExtremes | services/taskScoringService.js:170-180 | all-high rates 27/100/Peak and all-low rates 9/33/Low |
| Scoring.FillLevels | services/taskScoringService.js:199-215 | a criterion the request lacks reads as undefined; fills iff every criterion is either supplied with a valid level or inferable; a supplied criterion keeps its normalised value and is not auto-filled; an absent one takes the inferred level and is auto-filled |
| Scoring.FillLevelsErrorPersists | services/taskScoringService.js:199-215 | the first failing criterion decides the loop's failure |
| Scoring.FillLevelsIgnoresHeuristics | services/taskScoringService.js:199-215 | when every criterion is supplied, the inferred levels play no part |
| Scoring.ScoreFilled | services/taskScoringService.js:199-227 | succeeds iff the fill loop does, with its levels and auto-fill record, the calculator's scores, and aiUsed iff some criterion was absent |
| Scoring.ScoreTaskSpec | services/taskScoringService.js:185-228 | a falsy description fails; otherwise it succeeds iff every criterion is supplied validly or absent with AI allowed (and the description is a string when AI is on, while with AI off no inference is run); supplied values are never replaced; absent ones are inferred and marked auto-filled; aiUsed iff some criterion was absent; scores come from the calculator |
| Scoring.FillCriteria | services/taskScoringService.js:199-215 | the loop over the criteria computes exactly the fill of the specification |
| Scoring.ScoreCriteria | services/taskScoringService.js:199-227 | the loop followed by scoring computes the specification's scored result |
| Scoring.ScoreTask | services/taskScoringService.js:185-228 | the method computes exactly ScoreTaskSpec |
| Scoring.ScoreTaskDescriptionIndependent | services/taskScoringService.js:199-215 | with all four criteria supplied, the result does not depend on the description |
| Provenance.BuildScoringSource | controller/taskController.js:32-37 | manual iff AI was not used, mixed iff AI was used and some key was supplied, ai iff AI was used and none was |
| Provenance.ScoringSourceOfResult | controller/taskController.js:32-37 | for a scored task the label is manual iff no criterion was absent, and ai iff some was absent and no key was supplied |
| Subtasks.Clean | controller/taskController.js:19-22 | a kept item's title is its trimmed text, which trimming again leaves unchanged, and its completion flag is its truthiness |
| Subtasks.SanitizeItems | controller/taskController.js:14-24 | never lengthens the list, and every title is already trimmed |
| Subtasks.SanitizeSubtasks | controller/taskController.js:14-24 | a non-array gives the empty list; an array gives no more items than it has, with trimmed titles |
| Subtasks.SanitizeItemsAppend | controller/taskController.js:14-24 | sanitising is done item by item, so it distributes over concatenation and keeps order |
| Subtasks.SanitizeItemsSingle | controller/taskController.js:18-22 | one item is kept, cleaned, iff it and its title are truthy |
| Subtasks.SanitizeItemsLength | controller/taskController.js:14-24 | when all items are kept nothing is dropped, and when none is kept the result is empty |
| Requests.RequiredText | controller/taskController.js:62-72 | a value is blank iff it is falsy or a whitespace-only string; any other truthy non-string fails; otherwise gives the trimmed non-empty text |
| TaskCreation.CollectRequiredLevels | controller/taskController.js:78-88 | with rating on, the loop stops at the first criterion that is undefined, null or empty, and otherwise collects all four with every key marked user-provided |
| TaskCreation.CollectDefaultedLevels | controller/taskController.js:89-97 | with rating off, an absent criterion becomes "low" and a key counts as user-provided iff it was present |
| TaskCreation.NormalizeWithLowFallback | controller/taskController.js:109-127 | succeeds iff every collected value normalises with the low fallback, and then none is auto-filled; on failure the error is that of the first criterion to fail |
| TaskCreation.RateTask | controller/taskController.js:75-127 | with rating on, a missing criterion rejects the request naming the first; otherwise all four user levels are normalised and scored; with rating off, absent levels become low and nothing is scored; the source is manual either way |
| TaskCreation.NoteText | controller/taskController.js:154 | a falsy note is stored as none, a string note as its trimmed text (a fixed point of trimming), and any other note fails |
| TaskCreation.CreateTask | controller/taskController.js:39-178 | blank description, start time and end time are rejected in that order, then a missing criterion while rating is on; the task is created iff all checks pass, with trimmed texts, defaults for aiSchedule and status (a default replacing only an undefined value), sanitised subtasks, the classified-or-admin tag, manual source, nothing auto-filled, and scores iff rating is on |
| ScorePreview.CollectPresentLevels | controller/taskController.js:430-437 | collects exactly the criteria present in the request, and marks exactly those keys as user-provided |
| ScorePreview.PresentLevelsProvided | controller/taskController.js:430-437 | what the scorer reads for a criterion is what the request holds, and undefined when the request lacks it |
| ScorePreview.PreviewScore | controller/taskController.js:427-460 | the preview fails iff scoring or tagging fails (the scoring error first), otherwise reports both results; its source is manual iff no criterion is null or absent, ai iff all are absent, mixed otherwise |
| UpdateFields.CopiedFields | controller/taskController.js:334-342 | a field is copied iff it is listed and in the body, with the date parsed and any other value as sent |
| UpdateFields.KeysInBody | controller/taskController.js:348 | lists exactly the criteria whose keys are in the body |
| UpdateFields.RequestFields | controller/taskController.js:319-346 | the mutable fields are copied iff present, subtasks are sanitised iff present, and nothing else is written |
| UpdateFields.WriteLevels | controller/taskController.js:370-372 | every listed criterion gets its level written, and every other field is left as it was |
| UpdateWrites.CopyMutableFields | controller/taskController.js:334-342 | the copying loop produces exactly the copied fields |
| UpdateWrites.StampWritten | controller/taskController.js:374-384 | after re-scoring, the raw score, mana cost, zone, source label and auto-fill record are written from the result |
| UpdateWrites.LevelWritten | controller/taskController.js:370-372 | after re-scoring, every criterion's field holds the result's level |
| UpdateWrites.WithScoresRecords | controller/taskController.js:370-384 | the updates record the whole scoring result |
| UpdateWrites.WithScoresFrame | controller/taskController.js:370-384 | re-scoring writes every score field and leaves every other field untouched |
| UpdateWrites.RecordScores | controller/taskController.js:370-384 | the writing steps produce exactly the recorded scoring result |
| TaskUpdate.StoredValueRoundTrip | controller/taskController.js:360 | the value passed on for a stored criterion normalises back to the stored level |
| TaskUpdate.CollectScoringLevels | controller/taskController.js:355-362 | the loop collects a criterion from the body when present, from the stored task when AI scoring was not asked for, and leaves it out otherwise |
| TaskUpdate.RescoreStage | controller/taskController.js:348-368 | a successful re-score assigns a level to every criterion |
| TaskUpdate.RescoreUpdates | controller/taskController.js:354-385 | the re-scoring block yields exactly the specified stage |
| TaskUpdate.RetagUpdates | controller/taskController.js:387-395 | the re-tagging block yields exactly the specified stage |
| TaskUpdate.UpdateTask | controller/taskController.js:319-395 | the update assembled step by step equals the specification |
| UpdateLaws.UpdateFailure | controller/taskController.js:348-395 | an update fails iff a required re-score or re-tag fails, and it reports the re-score's error first |
| UpdateLaws.UpdateCopiesMutableFields | controller/taskController.js:319-342 | every mutable field other than the tag is written iff sent, with the sent value (the date parsed) |
| UpdateLaws.UpdateCopiesChecklist | controller/taskController.js:344-346 | subtasks are written iff sent, sanitised |
| UpdateLaws.UpdateRescoresOnlyWhenNeeded | controller/taskController.js:348-385 | level and score fields are written iff useAiScoring or forceRecalculate is exactly true or a criterion key was sent |
| UpdateLaws.UpdateRecordsRescore | controller/taskController.js:354-385 | when re-scoring runs, the update records its full result |
| UpdateLaws.UpdateRetagsOnlyWhenAsked | controller/taskController.js:387-395 | the tag and its source are written iff a tag was sent or useAiTagging is exactly true |
| UpdateLaws.UpdateRecordsRetag | controller/taskController.js:387-395 | when re-tagging runs, the update records the classified tag and source |
| UpdateLaws.UpdateWritesKnownFields | controller/taskController.js:319-395 | an update writes only mutable fields, subtasks, the tag source and score fields |
| UpdateLaws.StoredLevelKept | controller/taskController.js:355-362 | without explicit AI scoring, an unsent criterion keeps its stored level and is not auto-filled |
| UpdateLaws.NothingAutoFilled | controller/taskController.js:355-380 | without explicit AI scoring, and with every criterion stored and none sent as null, nothing is inferred and the source is manual |
| UpdateLaws.RetagSource | controller/taskController.js:387-395 | a re-tag is manual iff a truthy tag was sent |
| TaskOrder.ZoneWeight | controller/taskController.js:12 | Peak weighs 0, Balance 1, Low 2, and a missing zone 99 |
| TaskOrder.CompareMatchesKey | controller/taskController.js:267-279 | each comparator is negative, zero or positive exactly as its task's lexicographic key (zone weight, mana descending, date, update time descending; or creation time) is smaller, equal or larger |
| TaskOrder.KeyTotal | controller/taskController.js:267-279 | the key order is a strict total order |
| TaskOrder.KeyTransitive | controller/taskController.js:267-279 | the key order is transitive |
| StableSort.SortedByPermutes | controller/taskController.js:267-279 | sorting keeps exactly the same tasks |
| StableSort.SortedByInOrder | controller/taskController.js:267-279 | after sorting no task is followed by one with a smaller key |
| StableSort.SortedByStable | controller/taskController.js:267-279 | tasks with equal keys keep their fetched order |
| TaskListing.AutoGroup | controller/taskController.js:256-265 | the AI group holds only AI-scheduled tasks |
| TaskListing.ManualGroup | controller/taskController.js:256-265 | the manual group holds only manual tasks |
| TaskListing.InsertInto | controller/taskController.js:267-279 | one pass of the in-place sort inserts the next task into the sorted prefix and leaves the rest of the array alone |
| TaskListing.SortTasks | controller/taskController.js:267-279 | the array is sorted in place into the stable sort of its contents |
| TaskListing.SplitGroups | controller/taskController.js:256-265 | the split loop produces the two groups in fetched order |
| TaskListing.ListTasks | controller/taskController.js:256-283 | the response lists the sorted AI group, then the sorted manual group, and its count is the number of fetched tasks |
| TaskListing.GroupsPartition | controller/taskController.js:256-265 | the two groups together hold exactly the fetched tasks |
| TaskListing.ListingPermutes | controller/taskController.js:256-283 | the listing is a permutation of the fetched tasks |
| TaskListing.AutoBeforeManual | controller/taskController.js:256-283 | every AI-scheduled task is listed before every manual one |
| TaskListing.GroupsInOrder | controller/taskController.js:267-281 | each group is listed in its comparator's order |
| TaskListing.GroupsStable | controller/taskController.js:267-281 | within each group, tasks that tie keep their fetched order |
| DateFilter.DayStart | controller/taskController.js:211-216 | the start of a timestamp's UTC day is at most the timestamp and less than a day before it |
| DateFilter.DayEnd | controller/taskController.js:218-223 | the end of a timestamp's UTC day is at or after the timestamp and less than a day later, so the window it closes never reaches into the next day (DayWindow: the window is exactly that UTC day) |
| DateFilter.DayWindow | controller/taskController.js:209-225 | a timestamp lies in the window of a day iff it falls on that UTC day |
| DateFilter.UpToDayEnd | controller/taskController.js:234-245 | a timestamp is at most the end of a day iff its UTC day is not later |
| DateFilter.RangeWindow | controller/taskController.js:227-247 | the from/to bounds select exactly the tasks from `from` on, through the UTC day of `to` |
| DateFilter.BuildDateBounds | controller/taskController.js:194-252 | a `date` gives its UTC day window and overrides from/to; otherwise the valid from/to bounds are set; the key is kept iff some bound is valid, and the bounds select exactly the wanted dates |
| DateFilter.BuildFilter | controller/taskController.js:183-252 | the filter holds the user, the zone/status/tag iff sent truthy, and the date bounds as above |

## Left out

- Database access is left out: Mongoose reads and writes, `ObjectId.isValid`, and the 404 paths. The fetched list, the stored task and the update map are values instead.
- Authentication, Express routing, CORS and start-up are left out.
- The clock is left out. `scoringDetails.evaluatedAt` is not recorded.
- Date parsing is left out: `parseDate`, the `YYYY-MM-DD` check and `new Date(...)`. The parsed timestamp is a parameter.
- JavaScript `Date` range limits are not modelled.
- Numbers are integers. A non-integer criterion value, which the source rejects as an invalid numeric level, is not represented.
- `toLowerCase` is modelled on ASCII letters only. `trim` and `\s` use the ECMAScript whitespace set listed in `Js`. Unicode case mapping is not modelled.
- Keyword regexes are modelled as "the keyword occurs bounded by non-word characters". Backtracking regex semantics are not modelled.
- Normalization.LevelOfText: `LEVEL_POINTS[normalized]` also accepts inherited object keys such as "constructor". The model accepts only low, medium and high.
- Heuristics.InferTag: the worked examples ("Read new machine learning paper" is learning, "Team meeting about roadmap" is communicating) are not proved as concrete instances. The priority rule they illustrate is proved for all texts.
- Js.ToJsString: `String(n)` of a number is modelled as its exact decimal digits. JavaScript prints numbers from 1e21 on in exponent form, and rounds to shortest round-trip digits above 2^53. Such numbers reach subtask titles and the invalid-tag error text; this is not modelled.
- Calculator.ManaCost: `Math.round` of a floating-point quotient is modelled by the exact integer formula (200·raw + 27) div 54. No tie occurs on the reachable raw scores 9..27.
- TaskOrder.ZoneWeight: a zone is an `Option<Zone>`. A stored string outside the enum, which would also weigh 99, is not representable, because the schema refuses it.
- TaskListing.SortTasks: `Array.prototype.sort` is modelled as a stable insertion sort.
- Mongoose schema validation of created and updated documents is not modelled. Examples are the enum checks and the min/max bounds.
- The route for `listSubtaskTemplates` refers to a handler the controller never exports. It is not part of this model.
- Three route tests create tasks without the criteria, or without start and end times. The current `createTask` rejects such requests. Their expected 201 status is not a property of the model.
