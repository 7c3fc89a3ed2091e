/** What updateTask (controller/taskController.js) promises, stated about TaskUpdate.UpdateSpec. */
module UpdateLaws {
  import opened Js
  import opened Outcomes
  import opened TaskDomain
  import opened Normalization
  import opened Scoring
  import opened Provenance
  import opened Subtasks
  import opened UpdateFields
  import opened TaskUpdate
  import opened UpdateWrites

  /** An update fails exactly when the re-score it needs fails or the re-tag it asks for
      fails, and reports the re-score's error first. */
  lemma UpdateFailure(body: map<Key, Json>, existing: StoredTask, parsedDate: Option<int>)
    ensures var r := UpdateSpec(body, existing, parsedDate);
            && (r.Err? <==> (NeedsScoring(body) && Rescore(body, existing).Err?)
                            || (Retags(body) && Retag(body, existing).Err?))
            && (r.Err? && NeedsScoring(body) && Rescore(body, existing).Err? ==> r.error == Rescore(body, existing).error)
            && (r.Err? && !(NeedsScoring(body) && Rescore(body, existing).Err?) ==> r.error == Retag(body, existing).error)
  {
  }

  /** Outside the score fields, the re-score stage keeps what it was given. */
  lemma AfterRescoreFrame(copied: map<Key, FieldValue>, keys: seq<Criterion>, rescore: Option<Result<ScoreResult, Failure>>)
    requires rescore.Some? && rescore.value.Ok? ==> forall c :: c in rescore.value.value.levels
    requires AfterRescore(copied, keys, rescore).Ok?
    ensures var u := AfterRescore(copied, keys, rescore).value;
            && (forall f :: !IsScoreField(f) ==> (f in u <==> f in copied))
            && (forall f :: !IsScoreField(f) && f in copied ==> u[f] == copied[f])
  {
    if rescore.Some? {
      WithScoresFrame(copied, rescore.value.value, keys);
    }
  }

  /** When the dictionary it is given holds no score field, the re-score stage leaves
      the score fields present exactly when it ran, recording its result. */
  lemma AfterRescoreWrites(copied: map<Key, FieldValue>, keys: seq<Criterion>, rescore: Option<Result<ScoreResult, Failure>>)
    requires rescore.Some? && rescore.value.Ok? ==> forall c :: c in rescore.value.value.levels
    requires AfterRescore(copied, keys, rescore).Ok?
    requires forall f :: IsScoreField(f) ==> f !in copied
    ensures var u := AfterRescore(copied, keys, rescore).value;
            && (forall f :: IsScoreField(f) ==> (f in u <==> rescore.Some?))
            && (rescore.Some? ==> RecordsScores(u, rescore.value.value, keys))
  {
    if rescore.Some? {
      WithScoresFrame(copied, rescore.value.value, keys);
      WithScoresRecords(copied, rescore.value.value, keys);
    }
  }

  /** Outside the tag and its source, the re-tag stage keeps what it was given; the tag
      and its source are the new classification when it ran. */
  lemma AfterRetagWrites(updates: map<Key, FieldValue>, retag: Option<Result<TagResult, Failure>>)
    requires AfterRetag(updates, retag).Ok?
    ensures var u := AfterRetag(updates, retag).value;
            && (forall f :: f != TagField && f != TagSource ==> (f in u <==> f in updates))
            && (forall f :: f != TagField && f != TagSource && f in updates ==> u[f] == updates[f])
            && (TagField in u <==> retag.Some? || TagField in updates)
            && (TagSource in u <==> retag.Some? || TagSource in updates)
            && (retag.Some? ==> u[TagField] == TagOf(retag.value.value.tag)
                                && u[TagSource] == SourceOf(retag.value.value.source))
  {
  }

  /** A successful update is a successful re-score stage followed by the re-tag stage. */
  lemma UpdateStages(body: map<Key, Json>, existing: StoredTask, parsedDate: Option<int>)
    requires UpdateSpec(body, existing, parsedDate).Ok?
    ensures Rescored(body, existing, parsedDate).Ok?
    ensures UpdateSpec(body, existing, parsedDate)
            == AfterRetag(Rescored(body, existing, parsedDate).value, RetagStage(body, existing))
  {
  }

  /** The copy sets the tag exactly when the body sends one, and never a tag source. */
  lemma RequestTagFields(body: map<Key, Json>, parsedDate: Option<int>)
    ensures TagField in RequestFields(body, parsedDate) <==> TagField in body
    ensures TagSource !in RequestFields(body, parsedDate)
  {
    assert TagField == MUTABLE_FIELDS[5];
    MutableFieldsKind();
  }

  /** Before the re-tag stage the updates hold a tag exactly when the body sends one,
      and never a tag source. */
  lemma RescoredTagFields(body: map<Key, Json>, existing: StoredTask, parsedDate: Option<int>)
    requires Rescored(body, existing, parsedDate).Ok?
    ensures var before := Rescored(body, existing, parsedDate).value;
            (TagField in before <==> TagField in body) && TagSource !in before
  {
    RequestTagFields(body, parsedDate);
    assert !IsScoreField(TagField) && !IsScoreField(TagSource);
    AfterRescoreFrame(RequestFields(body, parsedDate), KeysInBody(body, CRITERIA_KEYS), RescoreStage(body, existing));
  }

  /** The mutable fields are neither score fields nor the tag's source nor the checklist. */
  lemma MutableFieldsKind()
    ensures forall f :: f in MUTABLE_FIELDS ==> !IsScoreField(f) && f != TagSource && f != SubtasksField
  {
  }

  /** Both stages keep every field other than the score fields, the tag and its source. */
  lemma StagesKeep(copied: map<Key, FieldValue>, keys: seq<Criterion>,
                   rescore: Option<Result<ScoreResult, Failure>>, retag: Option<Result<TagResult, Failure>>)
    requires rescore.Some? && rescore.value.Ok? ==> forall c :: c in rescore.value.value.levels
    requires AfterRescore(copied, keys, rescore).Ok?
    requires AfterRetag(AfterRescore(copied, keys, rescore).value, retag).Ok?
    ensures var u := AfterRetag(AfterRescore(copied, keys, rescore).value, retag).value;
            forall f :: !IsScoreField(f) && f != TagField && f != TagSource ==>
              (f in u <==> f in copied) && (f in copied ==> u[f] == copied[f])
  {
    AfterRescoreFrame(copied, keys, rescore);
    AfterRetagWrites(AfterRescore(copied, keys, rescore).value, retag);
  }

  /** A successful update sets each mutable field the body names, the tag aside (it is
      classified again), to the value copied from the body, and no other. */
  lemma UpdateCopiesMutableFields(body: map<Key, Json>, existing: StoredTask, parsedDate: Option<int>)
    requires UpdateSpec(body, existing, parsedDate).Ok?
    ensures var u := UpdateSpec(body, existing, parsedDate).value;
            forall f :: f in MUTABLE_FIELDS && f != TagField ==>
              (f in u <==> f in body) && (f in body ==> u[f] == CopiedValue(body, parsedDate, f))
  {
    UpdateStages(body, existing, parsedDate);
    MutableFieldsKind();
    StagesKeep(RequestFields(body, parsedDate), KeysInBody(body, CRITERIA_KEYS),
               RescoreStage(body, existing), RetagStage(body, existing));
  }

  /** A successful update carries the sanitised checklist exactly when the body sends one. */
  lemma UpdateCopiesChecklist(body: map<Key, Json>, existing: StoredTask, parsedDate: Option<int>)
    requires UpdateSpec(body, existing, parsedDate).Ok?
    ensures var u := UpdateSpec(body, existing, parsedDate).value;
            && (SubtasksField in u <==> SubtasksField in body)
            && (SubtasksField in body ==> u[SubtasksField] == Checklist(SanitizeSubtasks(body[SubtasksField])))
  {
    UpdateStages(body, existing, parsedDate);
    StagesKeep(RequestFields(body, parsedDate), KeysInBody(body, CRITERIA_KEYS),
               RescoreStage(body, existing), RetagStage(body, existing));
    assert !IsScoreField(SubtasksField);
  }

  /** The copy sets no score field. */
  lemma RequestScoreFields(body: map<Key, Json>, parsedDate: Option<int>)
    ensures forall f :: IsScoreField(f) ==> f !in RequestFields(body, parsedDate)
  {
    MutableFieldsKind();
  }

  /** After the re-score stage the score fields are present exactly when needsScoring holds. */
  lemma RescoredScoreFields(body: map<Key, Json>, existing: StoredTask, parsedDate: Option<int>)
    requires Rescored(body, existing, parsedDate).Ok?
    ensures forall f :: IsScoreField(f) ==> (f in Rescored(body, existing, parsedDate).value <==> NeedsScoring(body))
  {
    var rescore := RescoreStage(body, existing);
    assert rescore.Some? <==> NeedsScoring(body);
    RequestScoreFields(body, parsedDate);
    AfterRescoreWrites(RequestFields(body, parsedDate), KeysInBody(body, CRITERIA_KEYS), rescore);
  }

  /** The levels and scores are written exactly when needsScoring holds. */
  lemma UpdateRescoresOnlyWhenNeeded(body: map<Key, Json>, existing: StoredTask, parsedDate: Option<int>)
    requires UpdateSpec(body, existing, parsedDate).Ok?
    ensures forall f :: IsScoreField(f) ==> (f in UpdateSpec(body, existing, parsedDate).value <==> NeedsScoring(body))
  {
    UpdateStages(body, existing, parsedDate);
    RescoredScoreFields(body, existing, parsedDate);
    AfterRetagWrites(Rescored(body, existing, parsedDate).value, RetagStage(body, existing));
  }

  /** The re-tag stage keeps a recorded re-score. */
  lemma RetagKeepsScores(updates: map<Key, FieldValue>, retag: Option<Result<TagResult, Failure>>,
                         s: ScoreResult, keys: seq<Criterion>)
    requires RecordsScores(updates, s, keys) && AfterRetag(updates, retag).Ok?
    ensures RecordsScores(AfterRetag(updates, retag).value, s, keys)
  {
  }

  /** After a re-score the levels and scores are those of the re-score of the merged
      levels. */
  lemma UpdateRecordsRescore(body: map<Key, Json>, existing: StoredTask, parsedDate: Option<int>)
    requires UpdateSpec(body, existing, parsedDate).Ok? && NeedsScoring(body)
    ensures Rescore(body, existing).Ok?
    ensures RecordsScores(UpdateSpec(body, existing, parsedDate).value, Rescore(body, existing).value,
                          KeysInBody(body, CRITERIA_KEYS))
  {
    UpdateStages(body, existing, parsedDate);
    var copied, keys := RequestFields(body, parsedDate), KeysInBody(body, CRITERIA_KEYS);
    var s := Rescore(body, existing).value;
    var before := Rescored(body, existing, parsedDate).value;
    assert before == WithScores(copied, s, keys);
    WithScoresRecords(copied, s, keys);
    RetagKeepsScores(before, RetagStage(body, existing), s, keys);
  }

  /** The tag and its source are written exactly when a tag is sent or AI tagging is
      asked for explicitly. */
  lemma UpdateRetagsOnlyWhenAsked(body: map<Key, Json>, existing: StoredTask, parsedDate: Option<int>)
    requires UpdateSpec(body, existing, parsedDate).Ok?
    ensures var u := UpdateSpec(body, existing, parsedDate).value;
            (TagField in u <==> Retags(body)) && (TagSource in u <==> Retags(body))
  {
    UpdateStages(body, existing, parsedDate);
    RescoredTagFields(body, existing, parsedDate);
    AfterRetagWrites(Rescored(body, existing, parsedDate).value, RetagStage(body, existing));
  }

  /** A re-tagged update holds the new classification and its source. */
  lemma UpdateRecordsRetag(body: map<Key, Json>, existing: StoredTask, parsedDate: Option<int>)
    requires UpdateSpec(body, existing, parsedDate).Ok? && Retags(body)
    ensures Retag(body, existing).Ok?
    ensures var u := UpdateSpec(body, existing, parsedDate).value;
            && TagField in u && u[TagField] == TagOf(Retag(body, existing).value.tag)
            && TagSource in u && u[TagSource] == SourceOf(Retag(body, existing).value.source)
  {
    UpdateStages(body, existing, parsedDate);
    AfterRetagWrites(Rescored(body, existing, parsedDate).value, RetagStage(body, existing));
  }

  /** An update writes nothing beyond the request's fields, the re-score and the re-tag. */
  lemma UpdateWritesKnownFields(body: map<Key, Json>, existing: StoredTask, parsedDate: Option<int>)
    requires UpdateSpec(body, existing, parsedDate).Ok?
    ensures forall f :: f in UpdateSpec(body, existing, parsedDate).value ==>
              f in MUTABLE_FIELDS || f == SubtasksField || f == TagSource || IsScoreField(f)
  {
    UpdateStages(body, existing, parsedDate);
    AfterRescoreFrame(RequestFields(body, parsedDate), KeysInBody(body, CRITERIA_KEYS), RescoreStage(body, existing));
    AfterRetagWrites(Rescored(body, existing, parsedDate).value, RetagStage(body, existing));
  }

  /** Unless AI scoring is asked for explicitly, a criterion the request leaves out keeps
      its stored level and is not marked as auto-filled. */
  lemma StoredLevelKept(body: map<Key, Json>, existing: StoredTask, c: Criterion)
    requires Get(body, UseAiScoring) != Bool(true)
    requires CriterionField(c) !in body && c in existing.levels
    requires Rescore(body, existing).Ok?
    ensures Rescore(body, existing).value.levels[c] == existing.levels[c]
    ensures !Rescore(body, existing).value.autoFilled[c]
  {
    CriteriaComplete(c);
    assert Get(ScoringLevels(body, existing, CRITERIA_KEYS), c) == Str(LevelName(existing.levels[c]));
    NormalizeLevelIdempotent(existing.levels[c], Medium);
  }

  /** Unless AI scoring is asked for explicitly, a stored task with all four levels and a
      request that names no criterion as null or undefined is re-scored without the
      heuristics, so the result is labelled manual. */
  lemma NothingAutoFilled(body: map<Key, Json>, existing: StoredTask)
    requires Get(body, UseAiScoring) != Bool(true)
    requires forall c :: c in existing.levels
    requires forall c :: CriterionField(c) in body ==> !Nullish(body[CriterionField(c)])
    requires Rescore(body, existing).Ok?
    ensures !Rescore(body, existing).value.aiUsed
    ensures BuildScoringSource(Rescore(body, existing).value.aiUsed, KeysInBody(body, CRITERIA_KEYS)) == Manual
  {
    forall c ensures !Nullish(Get(ScoringLevels(body, existing, CRITERIA_KEYS), c)) {
      CriteriaComplete(c);
    }
  }

  /** Re-tagging leaves the stored tag alone unless a tag is sent or AI tagging is
      asked for explicitly; a sent tag is always taken as the user's. */
  lemma RetagSource(body: map<Key, Json>, existing: StoredTask)
    requires Retags(body) && Retag(body, existing).Ok?
    ensures Retag(body, existing).value.source == Manual <==> Truthy(Get(body, TagField))
  {
  }
}
