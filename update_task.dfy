/** Updating a task (controller/taskController.js, updateTask): which fields of the
    request are copied into the update, when the task is re-scored and re-tagged, and
    how the stored levels stand in for the criteria the request leaves out. The lookup
    of the stored task and the write are not modelled: the stored task is a parameter
    and the answer is the `updates` dictionary that would be set. */
module TaskUpdate {
  import opened Js
  import opened Outcomes
  import opened TaskDomain
  import opened Normalization
  import opened Calculator
  import opened Scoring
  import opened Provenance
  import opened Subtasks
  import opened Requests
  import opened UpdateFields
  import opened UpdateWrites

  /** The parts of the stored task the update reads. A level field the stored document
      lacks is absent from `levels`. */
  datatype StoredTask = StoredTask(description: string, aiSchedule: bool, levels: map<Criterion, Level>)

  /** `existingTask[key]`: the stored level's name, or undefined when it is missing. */
  function StoredValue(existing: StoredTask, c: Criterion): (v: Json)
    ensures c in existing.levels ==> v == Str(LevelName(existing.levels[c]))
    ensures c !in existing.levels ==> v.Undefined?
  {
    if c in existing.levels then Str(LevelName(existing.levels[c])) else Undefined
  }

  /** The value passed on for an unsent criterion normalises back to the stored level,
      so re-scoring without that criterion keeps it. */
  lemma StoredValueRoundTrip(existing: StoredTask, c: Criterion)
    requires c in existing.levels
    ensures NormalizeLevel(StoredValue(existing, c), Medium) == Ok(existing.levels[c])
  {
    NormalizeLevelIdempotent(existing.levels[c], Medium);
  }

  /** needsScoring */
  predicate NeedsScoring(body: map<Key, Json>) {
    Get(body, UseAiScoring) == Bool(true)
    || Get(body, ForceRecalculate) == Bool(true)
    || |KeysInBody(body, CRITERIA_KEYS)| > 0
  }

  /** Whether the tag is classified again. */
  predicate Retags(body: map<Key, Json>) {
    TagField in body || Get(body, UseAiTagging) == Bool(true)
  }

  /** The levels handed to scoreTask: the body's value for a criterion it names;
      otherwise the stored level, unless AI scoring was asked for explicitly, in which
      case the criterion is left out so that the heuristics fill it. */
  function ScoringLevels(body: map<Key, Json>, existing: StoredTask, cs: seq<Criterion>)
    : map<Criterion, Json>
  {
    map c | c in cs && (CriterionField(c) in body || Get(body, UseAiScoring) != Bool(true)) ::
      if CriterionField(c) in body then body[CriterionField(c)] else StoredValue(existing, c)
  }

  /** One more criterion gathered. */
  lemma ScoringLevelsStep(body: map<Key, Json>, existing: StoredTask, cs: seq<Criterion>, c: Criterion)
    ensures ScoringLevels(body, existing, cs + [c])
         == if CriterionField(c) in body then ScoringLevels(body, existing, cs)[c := body[CriterionField(c)]]
            else if Get(body, UseAiScoring) != Bool(true) then ScoringLevels(body, existing, cs)[c := StoredValue(existing, c)]
            else ScoringLevels(body, existing, cs)
  {
  }

  /** `updates.description ?? existingTask.description` */
  function UpdatedDescription(body: map<Key, Json>, existing: StoredTask): Json {
    Coalesce(Get(body, Description), Str(existing.description))
  }

  /** The re-score of an update, as scoreTask computes it. */
  function Rescore(body: map<Key, Json>, existing: StoredTask): Result<ScoreResult, Failure> {
    ScoreTaskSpec(UpdatedDescription(body, existing), ScoringLevels(body, existing, CRITERIA_KEYS),
                  Coalesce(Get(body, UseAiScoring), Bool(existing.aiSchedule)))
  }

  /** The re-tag of an update: permission is `useAiTagging ?? useAiScoring ?? aiSchedule`. */
  function Retag(body: map<Key, Json>, existing: StoredTask): Result<TagResult, Failure> {
    ClassifyTaskTag(UpdatedDescription(body, existing), Get(body, TagField),
                    Coalesce(Get(body, UseAiTagging), Coalesce(Get(body, UseAiScoring), Bool(existing.aiSchedule))))
  }

  /** The loop that gathers the levels to score. */
  method CollectScoringLevels(body: map<Key, Json>, existing: StoredTask)
    returns (provided: map<Criterion, Json>)
    ensures provided == ScoringLevels(body, existing, CRITERIA_KEYS)
  {
    provided := map[];
    for i := 0 to |CRITERIA_KEYS|
      invariant provided == ScoringLevels(body, existing, CRITERIA_KEYS[..i])
    {
      var c := CRITERIA_KEYS[i];
      assert CRITERIA_KEYS[..i + 1] == CRITERIA_KEYS[..i] + [c];
      ScoringLevelsStep(body, existing, CRITERIA_KEYS[..i], c);
      var key := CriterionField(c);
      if key in body {
        provided := provided[c := body[key]];
      } else if Get(body, UseAiScoring) != Bool(true) {
        provided := provided[c := StoredValue(existing, c)];
      }
    }
    assert CRITERIA_KEYS[..|CRITERIA_KEYS|] == CRITERIA_KEYS;
  }

  /** The re-score, when needsScoring holds. */
  function RescoreStage(body: map<Key, Json>, existing: StoredTask): (r: Option<Result<ScoreResult, Failure>>)
    ensures r.Some? && r.value.Ok? ==> forall c :: c in r.value.value.levels
  {
    if NeedsScoring(body) then Some(Rescore(body, existing)) else None
  }

  /** The re-tag, when a tag is sent or AI tagging is asked for explicitly. */
  function RetagStage(body: map<Key, Json>, existing: StoredTask): Option<Result<TagResult, Failure>> {
    if Retags(body) then Some(Retag(body, existing)) else None
  }

  /** The updates after the re-score stage: its error if it failed, its writes over
      `copied` if it ran, `copied` itself if it did not run. */
  function AfterRescore(copied: map<Key, FieldValue>, userProvidedKeys: seq<Criterion>,
                        rescore: Option<Result<ScoreResult, Failure>>)
    : Result<map<Key, FieldValue>, Failure>
    requires rescore.Some? && rescore.value.Ok? ==> forall c :: c in rescore.value.value.levels
  {
    if rescore.None? then Ok(copied)
    else if rescore.value.Err? then Err(rescore.value.error)
    else Ok(WithScores(copied, rescore.value.value, userProvidedKeys))
  }

  /** The updates after the re-tag stage: its error if it failed, the new tag and its
      source over `updates` if it ran, `updates` itself if it did not run. */
  function AfterRetag(updates: map<Key, FieldValue>, retag: Option<Result<TagResult, Failure>>)
    : Result<map<Key, FieldValue>, Failure>
  {
    if retag.None? then Ok(updates)
    else if retag.value.Err? then Err(retag.value.error)
    else Ok(updates[TagField := TagOf(retag.value.value.tag)][TagSource := SourceOf(retag.value.value.source)])
  }

  /** The updates after the copy and the re-score stage. */
  function Rescored(body: map<Key, Json>, existing: StoredTask, parsedDate: Option<int>)
    : Result<map<Key, FieldValue>, Failure>
  {
    AfterRescore(RequestFields(body, parsedDate), KeysInBody(body, CRITERIA_KEYS), RescoreStage(body, existing))
  }

  /** updateTask as a function of the request body, the stored task and the parsed
      date: copy, then re-score when needsScoring holds, then re-tag when asked to. */
  function UpdateSpec(body: map<Key, Json>, existing: StoredTask, parsedDate: Option<int>)
    : Result<map<Key, FieldValue>, Failure>
  {
    match Rescored(body, existing, parsedDate)
    case Err(e) => Err(e)
    case Ok(u) => AfterRetag(u, RetagStage(body, existing))
  }

  /** The re-score part of updateTask: when needsScoring holds, gather the levels,
      score them and record the result. */
  method RescoreUpdates(updates: map<Key, FieldValue>, body: map<Key, Json>, existing: StoredTask)
    returns (r: Result<map<Key, FieldValue>, Failure>)
    ensures r == AfterRescore(updates, KeysInBody(body, CRITERIA_KEYS), RescoreStage(body, existing))
  {
    var userProvidedKeys := KeysInBody(body, CRITERIA_KEYS);
    var needsScoring := Get(body, UseAiScoring) == Bool(true)
                        || Get(body, ForceRecalculate) == Bool(true)
                        || |userProvidedKeys| > 0;
    if !needsScoring {
      return Ok(updates);
    }
    var provided := CollectScoringLevels(body, existing);
    var description := Coalesce(Get(body, Description), Str(existing.description));
    var scored := ScoreTask(description, provided, Coalesce(Get(body, UseAiScoring), Bool(existing.aiSchedule)));
    assert RescoreStage(body, existing) == Some(scored);
    if scored.Err? {
      return Err(scored.error);
    }
    var updated := RecordScores(updates, scored.value, userProvidedKeys);
    r := Ok(updated);
  }

  /** The re-tag part of updateTask: when a tag is sent or AI tagging is asked for
      explicitly, classify the tag again and record it with its source. */
  method RetagUpdates(updates: map<Key, FieldValue>, body: map<Key, Json>, existing: StoredTask)
    returns (r: Result<map<Key, FieldValue>, Failure>)
    ensures r == AfterRetag(updates, RetagStage(body, existing))
  {
    if !(TagField in body || Get(body, UseAiTagging) == Bool(true)) {
      return Ok(updates);
    }
    var description := Coalesce(Get(body, Description), Str(existing.description));
    var tagged := ClassifyTaskTag(description, Get(body, TagField),
                                  Coalesce(Get(body, UseAiTagging),
                                           Coalesce(Get(body, UseAiScoring), Bool(existing.aiSchedule))));
    if tagged.Err? {
      return Err(tagged.error);
    }
    r := Ok(updates[TagField := TagOf(tagged.value.tag)][TagSource := SourceOf(tagged.value.source)]);
  }

  /** updateTask, from the request body onwards: copy, re-score, re-tag. */
  method UpdateTask(body: map<Key, Json>, existing: StoredTask, parsedDate: Option<int>)
    returns (r: Result<map<Key, FieldValue>, Failure>)
    ensures r == UpdateSpec(body, existing, parsedDate)
  {
    var updates := CopyMutableFields(body, parsedDate);
    if SubtasksField in body {
      updates := updates[SubtasksField := Checklist(SanitizeSubtasks(body[SubtasksField]))];
    }
    assert updates == RequestFields(body, parsedDate);
    var rescored := RescoreUpdates(updates, body, existing);
    if rescored.Err? {
      return rescored;
    }
    r := RetagUpdates(rescored.value, body, existing);
  }
}
