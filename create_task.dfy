/** Creating a task (controller/taskController.js, createTask): the required-field
    checks, the energy-rating branch, tag classification with its fallback, and the
    record that is stored. The storage call, the owner and the evaluation timestamp
    are not modelled; the parsed `date` arrives as a parameter. */
module TaskCreation {
  import opened Js
  import opened Outcomes
  import opened TaskDomain
  import opened Normalization
  import opened Calculator
  import opened Scoring
  import opened Provenance
  import opened Subtasks
  import opened Requests

  /** The fields createTask stores. */
  datatype NewTask = NewTask(
    description: string,
    aiSchedule: Json,
    date: Option<int>,
    startTime: string,
    endTime: string,
    repeat: Json,
    note: Option<string>,
    status: Json,
    subtasks: seq<Subtask>,
    locked: bool,
    enableEnergyRating: bool,
    levels: map<Criterion, Level>,
    scores: Option<Scores>,
    scoringSource: Source,
    autoFilled: map<Criterion, bool>,
    tag: Tag,
    tagSource: Source)

  /** The 400 answers. */
  datatype Rejection =
    | DescriptionRequired
    | StartTimeRequired
    | EndTimeRequired
    | CriterionRequired(criterion: Criterion)

  /** 400 with a message, 500 with the error raised, or 201 with the stored task. */
  datatype CreateResponse =
    | Rejected(reason: Rejection)
    | Failed(error: Failure)
    | Created(task: NewTask)

  /** `!v || !v.trim()` holds without raising. */
  predicate IsBlank(v: Json) {
    !Truthy(v) || (v.Str? && Trim(v.s) == "")
  }

  /** A required text field that passes the check. */
  predicate IsFilled(v: Json) {
    v.Str? && Trim(v.s) != ""
  }

  /** `v === undefined || v === null || v === ''`: a criterion that counts as not given
      while energy rating is on. */
  predicate LevelMissing(v: Json) {
    v.Undefined? || v.Null? || v == Str("")
  }

  /** `CRITERIA_KEYS[i]` is the first criterion, in the controller's order, whose field
      is missing. */
  predicate FirstMissing(body: map<string, Json>, i: int) {
    0 <= i < |CRITERIA_KEYS|
    && LevelMissing(LevelField(body, CRITERIA_KEYS[i]))
    && forall j :: 0 <= j < i ==> !LevelMissing(LevelField(body, CRITERIA_KEYS[j]))
  }

  /** `providedLevels` after the loop has copied the fields of `cs` unchanged. */
  function FieldLevels(body: map<string, Json>, cs: seq<Criterion>): map<Criterion, Json> {
    map c | c in cs :: LevelField(body, c)
  }

  /** `providedLevels` after the loop has copied the fields of `cs`, with `'low'` for an
      absent one. */
  function DefaultedLevels(body: map<string, Json>, cs: seq<Criterion>): map<Criterion, Json> {
    map c | c in cs :: WithDefault(LevelField(body, c), Str("low"))
  }

  /** One more criterion copied as given. */
  lemma FieldLevelsStep(body: map<string, Json>, cs: seq<Criterion>, c: Criterion)
    ensures FieldLevels(body, cs + [c]) == FieldLevels(body, cs)[c := LevelField(body, c)]
  {
  }

  /** One more criterion copied. */
  lemma DefaultedLevelsStep(body: map<string, Json>, cs: seq<Criterion>, c: Criterion)
    ensures DefaultedLevels(body, cs + [c]) == DefaultedLevels(body, cs)[c := WithDefault(LevelField(body, c), Str("low"))]
  {
  }

  /** The outcome of the tag step: a classification error is swallowed and replaced by
      the manual `admin` tag. */
  function TagOrDefault(r: Result<TagResult, Failure>): (t: TagResult)
    ensures r.Ok? ==> t == r.value
    ensures r.Err? ==> t == TagResult(Admin, Manual)
  {
    if r.Ok? then r.value else TagResult(Admin, Manual)
  }

  /** The loop that demands every criterion while energy rating is on: it stops at the
      first missing one, and otherwise copies every field and records every key as
      supplied by the caller. */
  method CollectRequiredLevels(body: map<string, Json>)
    returns (missing: Option<Criterion>, provided: map<Criterion, Json>, userProvidedKeys: seq<Criterion>)
    ensures missing.None? <==> forall c :: !LevelMissing(LevelField(body, c))
    ensures missing.Some? ==> exists i :: FirstMissing(body, i) && CRITERIA_KEYS[i] == missing.value
    ensures missing.None? ==> provided == FieldLevels(body, CRITERIA_KEYS) && userProvidedKeys == CRITERIA_KEYS
  {
    provided := map[];
    userProvidedKeys := [];
    for i := 0 to |CRITERIA_KEYS|
      invariant forall j :: 0 <= j < i ==> !LevelMissing(LevelField(body, CRITERIA_KEYS[j]))
      invariant provided == FieldLevels(body, CRITERIA_KEYS[..i])
      invariant userProvidedKeys == CRITERIA_KEYS[..i]
    {
      var c := CRITERIA_KEYS[i];
      var value := LevelField(body, c);
      if LevelMissing(value) {
        assert FirstMissing(body, i);
        return Some(c), provided, userProvidedKeys;
      }
      assert CRITERIA_KEYS[..i + 1] == CRITERIA_KEYS[..i] + [c];
      FieldLevelsStep(body, CRITERIA_KEYS[..i], c);
      provided := provided[c := value];
      userProvidedKeys := userProvidedKeys + [c];
    }
    assert CRITERIA_KEYS[..|CRITERIA_KEYS|] == CRITERIA_KEYS;
    forall c ensures !LevelMissing(LevelField(body, c)) {
      CriteriaComplete(c);
    }
    missing := None;
  }

  /** The loop that fills in `'low'` while energy rating is off; a key counts as
      supplied when its field is present at all. */
  method CollectDefaultedLevels(body: map<string, Json>)
    returns (provided: map<Criterion, Json>, userProvidedKeys: seq<Criterion>)
    ensures provided == DefaultedLevels(body, CRITERIA_KEYS)
    ensures forall c :: c in userProvidedKeys <==> !LevelField(body, c).Undefined?
  {
    provided := map[];
    userProvidedKeys := [];
    for i := 0 to |CRITERIA_KEYS|
      invariant provided == DefaultedLevels(body, CRITERIA_KEYS[..i])
      invariant forall c :: c in userProvidedKeys <==> c in CRITERIA_KEYS[..i] && !LevelField(body, c).Undefined?
    {
      var c := CRITERIA_KEYS[i];
      assert CRITERIA_KEYS[..i + 1] == CRITERIA_KEYS[..i] + [c];
      DefaultedLevelsStep(body, CRITERIA_KEYS[..i], c);
      var value := LevelField(body, c);
      provided := provided[c := if !value.Undefined? then value else Str("low")];
      if !value.Undefined? {
        userProvidedKeys := userProvidedKeys + [c];
      }
    }
    assert CRITERIA_KEYS[..|CRITERIA_KEYS|] == CRITERIA_KEYS;
    forall c ensures c in CRITERIA_KEYS {
      CriteriaComplete(c);
    }
  }

  /** The levels normalised with `'low'` as the fallback, all marked as not auto-filled;
      the first value that does not normalise raises. */
  method NormalizeWithLowFallback(provided: map<Criterion, Json>) returns (r: Result<Fill, Failure>)
    ensures r.Ok? <==> forall c :: NormalizeLevel(Get(provided, c), Level.Low).Ok?
    ensures r.Ok? ==> forall c :: (c in r.value.levels && c in r.value.autoFilled
              && r.value.levels[c] == NormalizeLevel(Get(provided, c), Level.Low).value
              && !r.value.autoFilled[c])
    ensures r.Err? ==> exists i :: (0 <= i < |CRITERIA_KEYS|
              && NormalizeLevel(Get(provided, CRITERIA_KEYS[i]), Level.Low) == Err(r.error)
              && forall j :: 0 <= j < i ==> NormalizeLevel(Get(provided, CRITERIA_KEYS[j]), Level.Low).Ok?)
  {
    var levels: map<Criterion, Level> := map[];
    var autoFilled: map<Criterion, bool> := map[];
    for i := 0 to |CRITERIA_KEYS|
      invariant forall j :: 0 <= j < i ==> NormalizeLevel(Get(provided, CRITERIA_KEYS[j]), Level.Low).Ok?
      invariant forall j :: 0 <= j < i ==> (CRITERIA_KEYS[j] in levels && CRITERIA_KEYS[j] in autoFilled
                  && levels[CRITERIA_KEYS[j]] == NormalizeLevel(Get(provided, CRITERIA_KEYS[j]), Level.Low).value
                  && !autoFilled[CRITERIA_KEYS[j]])
    {
      var c := CRITERIA_KEYS[i];
      var normalized := NormalizeLevel(Get(provided, c), Level.Low);
      if normalized.Err? {
        return Err(normalized.error);
      }
      levels := levels[c := normalized.value];
      autoFilled := autoFilled[c := false];
    }
    forall c ensures NormalizeLevel(Get(provided, c), Level.Low).Ok?
                     && c in levels && c in autoFilled
                     && levels[c] == NormalizeLevel(Get(provided, c), Level.Low).value && !autoFilled[c] {
      CriteriaComplete(c);
      var j :| 0 <= j < |CRITERIA_KEYS| && CRITERIA_KEYS[j] == c;
    }
    r := Ok(Fill(levels, autoFilled));
  }

  /** What the energy-rating branch contributes to the stored task. */
  datatype Rating = Rating(levels: map<Criterion, Level>, autoFilled: map<Criterion, bool>,
                           scores: Option<Scores>, source: Source)

  datatype RatingOutcome =
    | RatingRejected(criterion: Criterion)
    | RatingFailed(error: Failure)
    | Rated(rating: Rating)

  /** The `allowAi` passed to scoreTask: `useAiScoring ?? aiSchedule`, with aiSchedule
      defaulting to true. */
  function ScoringPermission(body: map<string, Json>): Json {
    Coalesce(Get(body, "useAiScoring"), WithDefault(Get(body, "aiSchedule"), Bool(true)))
  }

  /** The energy-rating branch. When rating is on, every criterion is required, so the
      heuristics never fill anything in and the levels are the caller's, normalised with
      the medium fallback and scored. When rating is off, absent criteria become low and
      nothing is scored. Either way the source is manual. */
  method RateTask(body: map<string, Json>, enabled: bool) returns (r: RatingOutcome)
    requires IsFilled(Get(body, "description"))
    ensures r.RatingRejected? <==> enabled && exists c :: LevelMissing(LevelField(body, c))
    ensures r.RatingRejected? ==> exists i :: FirstMissing(body, i) && CRITERIA_KEYS[i] == r.criterion
    ensures r.Rated? <==>
              if enabled then forall c :: !LevelMissing(LevelField(body, c))
                                        && NormalizeLevel(LevelField(body, c), Medium).Ok?
              else forall c :: NormalizeLevel(WithDefault(LevelField(body, c), Str("low")), Level.Low).Ok?
    ensures r.Rated? ==> r.rating.source == Manual
    ensures r.Rated? ==> forall c :: c in r.rating.levels && c in r.rating.autoFilled && !r.rating.autoFilled[c]
    ensures r.Rated? && enabled ==>
              (forall c :: r.rating.levels[c] == NormalizeLevel(LevelField(body, c), Medium).value)
              && r.rating.scores == Some(CalculateScores(r.rating.levels))
    ensures r.Rated? && !enabled ==>
              (forall c :: r.rating.levels[c] == NormalizeLevel(WithDefault(LevelField(body, c), Str("low")), Level.Low).value)
              && r.rating.scores.None?
  {
    if enabled {
      var missing, provided, userProvidedKeys := CollectRequiredLevels(body);
      if missing.Some? {
        return RatingRejected(missing.value);
      }
      forall c ensures Get(provided, c) == LevelField(body, c) {
        CriteriaComplete(c);
      }
      var scored := ScoreTask(Get(body, "description"), provided, ScoringPermission(body));
      if scored.Err? {
        return RatingFailed(scored.error);
      }
      var result := scored.value;
      r := Rated(Rating(result.levels, result.autoFilled, Some(result.scores),
                        BuildScoringSource(result.aiUsed, userProvidedKeys)));
    } else {
      var provided, _ := CollectDefaultedLevels(body);
      forall c ensures Get(provided, c) == WithDefault(LevelField(body, c), Str("low")) {
        CriteriaComplete(c);
      }
      var normalized := NormalizeWithLowFallback(provided);
      if normalized.Err? {
        return RatingFailed(normalized.error);
      }
      r := Rated(Rating(normalized.value.levels, normalized.value.autoFilled, None, Manual));
    }
  }

  /** `note ? note.trim() : undefined`: a truthy non-string has no `trim`. */
  function NoteText(note: Json): (r: Result<Option<string>, Failure>)
    ensures !Truthy(note) ==> r == Ok(None)
    ensures Truthy(note) && note.Str? ==> r == Ok(Some(Trim(note.s)))
    ensures Truthy(note) && !note.Str? ==> r == Err(NotAString)
    ensures r.Ok? && r.value.Some? ==> note.Str? && Trim(r.value.value) == r.value.value
  {
    TrimIdempotent(if note.Str? then note.s else "");
    if !Truthy(note) then Ok(None)
    else if note.Str? then Ok(Some(Trim(note.s)))
    else Err(NotAString)
  }

  /** The tag stored with a new task: the classification of the description and the
      requested tag, with `useAiTagging ?? aiSchedule` as the permission; an error
      falls back to the manual `admin` tag. */
  function CreationTag(body: map<string, Json>): TagResult {
    TagOrDefault(ClassifyTaskTag(Get(body, "description"), Get(body, "tag"),
                                 Coalesce(Get(body, "useAiTagging"), WithDefault(Get(body, "aiSchedule"), Bool(true)))))
  }

  /** createTask. */
  method CreateTask(body: map<string, Json>, parsedDate: Option<int>) returns (r: CreateResponse)
    ensures r == Rejected(DescriptionRequired) <==> IsBlank(Get(body, "description"))
    ensures r == Rejected(StartTimeRequired) <==>
              IsFilled(Get(body, "description")) && IsBlank(Get(body, "startTime"))
    ensures r == Rejected(EndTimeRequired) <==>
              IsFilled(Get(body, "description")) && IsFilled(Get(body, "startTime")) && IsBlank(Get(body, "endTime"))
    ensures (r.Rejected? && r.reason.CriterionRequired?) <==>
              IsFilled(Get(body, "description")) && IsFilled(Get(body, "startTime")) && IsFilled(Get(body, "endTime"))
              && DefaultTrue(Get(body, "enableEnergyRating"))
              && exists c :: LevelMissing(LevelField(body, c))
    ensures r.Rejected? && r.reason.CriterionRequired? ==>
              exists i :: FirstMissing(body, i) && CRITERIA_KEYS[i] == r.reason.criterion
    ensures r.Created? <==>
              IsFilled(Get(body, "description")) && IsFilled(Get(body, "startTime")) && IsFilled(Get(body, "endTime"))
              && (if DefaultTrue(Get(body, "enableEnergyRating"))
                  then forall c :: !LevelMissing(LevelField(body, c)) && NormalizeLevel(LevelField(body, c), Medium).Ok?
                  else forall c :: NormalizeLevel(WithDefault(LevelField(body, c), Str("low")), Level.Low).Ok?)
              && (Truthy(Get(body, "note")) ==> Get(body, "note").Str?)
    ensures r.Created? ==>
              var t := r.task;
              && t.description == Trim(Get(body, "description").s)
              && t.startTime == Trim(Get(body, "startTime").s)
              && t.endTime == Trim(Get(body, "endTime").s)
              && t.aiSchedule == WithDefault(Get(body, "aiSchedule"), Bool(true))
              && t.date == parsedDate
              && t.repeat == (if Truthy(Get(body, "repeat")) then Get(body, "repeat") else Null)
              && t.note == NoteText(Get(body, "note")).value
              && t.status == WithDefault(Get(body, "status"), Str("pending"))
              && t.subtasks == SanitizeSubtasks(Get(body, "subtasks"))
              && t.locked == Truthy(Get(body, "locked"))
              && t.enableEnergyRating == DefaultTrue(Get(body, "enableEnergyRating"))
              && TagResult(t.tag, t.tagSource) == CreationTag(body)
    ensures r.Created? ==> r.task.scoringSource == Manual
    ensures r.Created? ==> forall c :: c in r.task.levels && c in r.task.autoFilled && !r.task.autoFilled[c]
    ensures r.Created? && r.task.enableEnergyRating ==>
              (forall c :: r.task.levels[c] == NormalizeLevel(LevelField(body, c), Medium).value)
              && r.task.scores == Some(CalculateScores(r.task.levels))
    ensures r.Created? && !r.task.enableEnergyRating ==>
              (forall c :: r.task.levels[c] == NormalizeLevel(WithDefault(LevelField(body, c), Str("low")), Level.Low).value)
              && r.task.scores.None?
  {
    var description := RequiredText(Get(body, "description"));
    if description.Err? {
      return Failed(description.error);
    }
    if description.value.Blank? {
      return Rejected(DescriptionRequired);
    }
    var startTime := RequiredText(Get(body, "startTime"));
    if startTime.Err? {
      return Failed(startTime.error);
    }
    if startTime.value.Blank? {
      return Rejected(StartTimeRequired);
    }
    var endTime := RequiredText(Get(body, "endTime"));
    if endTime.Err? {
      return Failed(endTime.error);
    }
    if endTime.value.Blank? {
      return Rejected(EndTimeRequired);
    }
    var enabled := DefaultTrue(Get(body, "enableEnergyRating"));
    var rated := RateTask(body, enabled);
    if rated.RatingRejected? {
      return Rejected(CriterionRequired(rated.criterion));
    }
    if rated.RatingFailed? {
      return Failed(rated.error);
    }
    var rating := rated.rating;
    var tag := CreationTag(body);
    var note := NoteText(Get(body, "note"));
    if note.Err? {
      return Failed(note.error);
    }
    var repeat := Get(body, "repeat");
    r := Created(NewTask(
      description.value.text,
      WithDefault(Get(body, "aiSchedule"), Bool(true)),
      parsedDate,
      startTime.value.text,
      endTime.value.text,
      if Truthy(repeat) then repeat else Null,
      note.value,
      WithDefault(Get(body, "status"), Str("pending")),
      SanitizeSubtasks(Get(body, "subtasks")),
      Truthy(Get(body, "locked")),
      enabled,
      rating.levels,
      rating.scores,
      rating.source,
      rating.autoFilled,
      tag.tag,
      tag.source));
  }
}
