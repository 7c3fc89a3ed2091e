/** scoreTask: per criterion, the supplied level or the inferred one, then the
    weighted scores and a record of which criteria were filled in automatically
    (services/taskScoringService.js, scoreTask). The evaluation timestamp is not
    modelled. */
module Scoring {
  import opened Js
  import opened Outcomes
  import opened TaskDomain
  import opened Heuristics
  import opened Normalization
  import opened Calculator

  /** The two records the loop fills: the level of each criterion visited so far and
      whether it was filled in from the heuristics. */
  datatype Fill = Fill(levels: map<Criterion, Level>, autoFilled: map<Criterion, bool>)

  /** Whether the loop can get past criterion `c`: a supplied value must normalise,
      and a missing one needs the heuristics (`aiText` is the lower-cased description
      they read, or None when AI scoring is off). */
  predicate CanFill(provided: map<Criterion, Json>, aiText: Option<string>, c: Criterion) {
    if Nullish(Get(provided, c)) then aiText.Some?
    else NormalizeLevel(Get(provided, c), Medium).Ok?
  }

  /** The records after the loop has visited `cs`, or the error it stops at. */
  function FillLevels(provided: map<Criterion, Json>, aiText: Option<string>, cs: seq<Criterion>)
    : (r: Result<Fill, Failure>)
    ensures r.Ok? <==> forall c :: c in cs ==> CanFill(provided, aiText, c)
    ensures r.Ok? ==> r.value.levels.Keys == r.value.autoFilled.Keys == set c | c in cs
    ensures r.Ok? ==> forall c :: c in cs && !Nullish(Get(provided, c)) ==>
              NormalizeLevel(Get(provided, c), Medium).Ok?
              && r.value.levels[c] == NormalizeLevel(Get(provided, c), Medium).value
              && !r.value.autoFilled[c]
    ensures r.Ok? ==> forall c :: c in cs && Nullish(Get(provided, c)) ==>
              aiText.Some? && r.value.levels[c] == InferredLevel(c, aiText.value)
              && r.value.autoFilled[c]
  {
    if cs == [] then Ok(Fill(map[], map[]))
    else
      var c := cs[|cs| - 1];
      assert c in cs;
      assert forall d :: d in cs <==> d in cs[..|cs| - 1] || d == c;
      match FillLevels(provided, aiText, cs[..|cs| - 1])
      case Err(e) => Err(e)
      case Ok(acc) =>
        var value := Get(provided, c);
        if !Nullish(value) then
          match NormalizeLevel(value, Medium)
          case Err(e) => Err(e)
          case Ok(l) => Ok(Fill(acc.levels[c := l], acc.autoFilled[c := false]))
        else if aiText.None? then Err(MissingCriterion(c))
        else Ok(Fill(acc.levels[c := InferredLevel(c, aiText.value)], acc.autoFilled[c := true]))
  }

  /** The loop visits one more criterion after `cs`. */
  lemma FillLevelsStep(provided: map<Criterion, Json>, aiText: Option<string>, cs: seq<Criterion>, c: Criterion)
    requires FillLevels(provided, aiText, cs).Ok?
    ensures var acc := FillLevels(provided, aiText, cs).value;
      var value := Get(provided, c);
      FillLevels(provided, aiText, cs + [c])
      == if !Nullish(value) then
           (match NormalizeLevel(value, Medium)
            case Err(e) => Err(e)
            case Ok(l) => Ok(Fill(acc.levels[c := l], acc.autoFilled[c := false])))
         else if aiText.None? then Err(MissingCriterion(c))
         else Ok(Fill(acc.levels[c := InferredLevel(c, aiText.value)], acc.autoFilled[c := true]))
  {
    assert (cs + [c])[..|cs|] == cs;
  }

  /** Once the loop has stopped with an error, visiting further criteria keeps that error. */
  lemma {:induction false} FillLevelsErrorPersists(provided: map<Criterion, Json>, aiText: Option<string>,
                                                   cs: seq<Criterion>, k: nat)
    requires k <= |cs| && FillLevels(provided, aiText, cs[..k]).Err?
    ensures FillLevels(provided, aiText, cs) == FillLevels(provided, aiText, cs[..k])
    decreases |cs|
  {
    if k < |cs| {
      var prefix := cs[..|cs| - 1];
      assert prefix[..k] == cs[..k];
      FillLevelsErrorPersists(provided, aiText, prefix, k);
    } else {
      assert cs[..k] == cs;
    }
  }

  /** When every criterion of `cs` is supplied, the heuristics are never consulted. */
  lemma {:induction false} FillLevelsIgnoresHeuristics(provided: map<Criterion, Json>, t1: Option<string>,
                                                       t2: Option<string>, cs: seq<Criterion>)
    requires forall c :: c in cs ==> !Nullish(Get(provided, c))
    ensures FillLevels(provided, t1, cs) == FillLevels(provided, t2, cs)
  {
    if cs != [] {
      FillLevelsIgnoresHeuristics(provided, t1, t2, cs[..|cs| - 1]);
    }
  }

  /** What scoreTask returns (its `evaluatedAt` stamp aside). */
  datatype ScoreResult = ScoreResult(scores: Scores, levels: map<Criterion, Level>,
                                     autoFilled: map<Criterion, bool>, aiUsed: bool)

  /** The heuristics' view of the description when AI scoring is on (`allowAi = true`
      by default): its lower-cased text, or the TypeError a non-string raises. When
      AI scoring is off the description is never read. */
  function SuggestionText(description: Json, allowAi: Json): (r: Result<Option<string>, Failure>)
    ensures !DefaultTrue(allowAi) ==> r == Ok(None)
    ensures DefaultTrue(allowAi) && description.Str? ==> r == Ok(Some(ToLower(description.s)))
    ensures DefaultTrue(allowAi) && !(description.Str? || description.Undefined?) ==> r == Err(NotAString)
  {
    if !DefaultTrue(allowAi) then Ok(None)
    else
      match LoweredDescription(description)
      case Err(e) => Err(e)
      case Ok(t) => Ok(Some(t))
  }

  /** What scoreTask returns once the heuristics' view of the description is known:
      the filled criteria and their scores, or the error the loop stops at. */
  function ScoreFilled(provided: map<Criterion, Json>, aiText: Option<string>): (r: Result<ScoreResult, Failure>)
    ensures r.Ok? <==> FillLevels(provided, aiText, CRITERIA).Ok?
    ensures r.Err? ==> r.error == FillLevels(provided, aiText, CRITERIA).error
    ensures r.Ok? ==> (r.value.levels == FillLevels(provided, aiText, CRITERIA).value.levels
                       && r.value.autoFilled == FillLevels(provided, aiText, CRITERIA).value.autoFilled
                       && r.value.scores == CalculateScores(r.value.levels))
    ensures r.Ok? ==> (r.value.aiUsed <==> exists c :: Nullish(Get(provided, c)))
  {
    var filled := FillLevels(provided, aiText, CRITERIA);
    if filled.Err? then Err(filled.error)
    else
      var f := filled.value;
      forall c ensures c in CRITERIA {
        CriteriaComplete(c);
      }
      assert (true in f.autoFilled.Values) <==> exists c :: Nullish(Get(provided, c)) by {
        if exists c :: Nullish(Get(provided, c)) {
          var c :| Nullish(Get(provided, c));
          assert f.autoFilled[c];
        }
      }
      Ok(ScoreResult(CalculateScores(f.levels), f.levels, f.autoFilled, true in f.autoFilled.Values))
  }

  /** scoreTask as a function of its three inputs. */
  function ScoreTaskSpec(description: Json, provided: map<Criterion, Json>, allowAi: Json)
    : (r: Result<ScoreResult, Failure>)
    ensures r == Err(MissingDescription) <==> !Truthy(description)
    ensures r.Ok? <==> Truthy(description) && (description.Str? || !DefaultTrue(allowAi))
                       && forall c :: if Nullish(Get(provided, c)) then DefaultTrue(allowAi)
                                      else NormalizeLevel(Get(provided, c), Medium).Ok?
    ensures Truthy(description) && DefaultTrue(allowAi) && !description.Str? ==> r == Err(NotAString)
    ensures !DefaultTrue(allowAi) && (exists c :: Nullish(Get(provided, c))) ==> r.Err?
    ensures r.Ok? ==> forall c :: c in r.value.levels && c in r.value.autoFilled
    ensures r.Ok? ==> forall c :: !Nullish(Get(provided, c)) ==>
              NormalizeLevel(Get(provided, c), Medium).Ok?
              && r.value.levels[c] == NormalizeLevel(Get(provided, c), Medium).value
              && !r.value.autoFilled[c]
    ensures r.Ok? ==> forall c :: Nullish(Get(provided, c)) ==>
              description.Str? && r.value.levels[c] == InferredLevel(c, ToLower(description.s)) && r.value.autoFilled[c]
    ensures r.Ok? ==> (r.value.aiUsed <==> exists c :: Nullish(Get(provided, c)))
    ensures r.Ok? ==> r.value.scores == CalculateScores(r.value.levels)
  {
    if !Truthy(description) then Err(MissingDescription)
    else
      match SuggestionText(description, allowAi)
      case Err(e) => Err(e)
      case Ok(aiText) =>
        assert aiText.Some? <==> DefaultTrue(allowAi);
        assert aiText.Some? ==> description.Str? && aiText.value == ToLower(description.s);
        assert ScoreFilled(provided, aiText).Err? ==> ScoreFilled(provided, aiText).error != MissingDescription by {
          FillLevelsErrorKind(provided, aiText, CRITERIA);
        }
        forall c ensures c in CRITERIA {
          CriteriaComplete(c);
        }
        ScoreFilled(provided, aiText)
  }

  /** The loop only ever stops at a level that does not normalise or at a missing
      criterion; it never reports a missing description. */
  lemma {:induction false} FillLevelsErrorKind(provided: map<Criterion, Json>, aiText: Option<string>,
                                               cs: seq<Criterion>)
    ensures FillLevels(provided, aiText, cs).Err? ==>
              FillLevels(provided, aiText, cs).error !in {MissingDescription, NotAString}
  {
    if cs != [] {
      FillLevelsErrorKind(provided, aiText, cs[..|cs| - 1]);
    }
  }

  /** The loop of scoreTask over CRITERIA: a supplied value is normalised and marked
      as not auto-filled; a missing one is taken from the heuristics' suggestion and
      marked as auto-filled, or stops the loop when there is no suggestion. */
  method FillCriteria(provided: map<Criterion, Json>, suggestion: Option<map<Criterion, Level>>,
                      ghost aiText: Option<string>)
    returns (r: Result<Fill, Failure>)
    requires suggestion.Some? <==> aiText.Some?
    requires suggestion.Some? ==> suggestion.value == InferredLevels(aiText.value)
    ensures r == FillLevels(provided, aiText, CRITERIA)
  {
    var levels: map<Criterion, Level> := map[];
    var autoFilled: map<Criterion, bool> := map[];
    for i := 0 to |CRITERIA|
      invariant FillLevels(provided, aiText, CRITERIA[..i]) == Ok(Fill(levels, autoFilled))
    {
      var c := CRITERIA[i];
      assert CRITERIA[..i + 1] == CRITERIA[..i] + [c];
      FillLevelsStep(provided, aiText, CRITERIA[..i], c);
      var value := Get(provided, c);
      if !Nullish(value) {
        var normalized := NormalizeLevel(value, Medium);
        if normalized.Err? {
          FillLevelsErrorPersists(provided, aiText, CRITERIA, i + 1);
          return Err(normalized.error);
        }
        levels := levels[c := normalized.value];
        autoFilled := autoFilled[c := false];
        continue;
      }
      if suggestion.None? {
        FillLevelsErrorPersists(provided, aiText, CRITERIA, i + 1);
        return Err(MissingCriterion(c));
      }
      assert suggestion.value[c] == InferredLevel(c, aiText.value);
      levels := levels[c := suggestion.value[c]];
      autoFilled := autoFilled[c := true];
    }
    assert CRITERIA[..|CRITERIA|] == CRITERIA;
    r := Ok(Fill(levels, autoFilled));
  }

  /** The rest of scoreTask once the suggestion is known: fill the criteria, score the
      levels, and note whether any level came from the heuristics. */
  method ScoreCriteria(provided: map<Criterion, Json>, suggestion: Option<map<Criterion, Level>>,
                       ghost aiText: Option<string>)
    returns (r: Result<ScoreResult, Failure>)
    requires suggestion.Some? <==> aiText.Some?
    requires suggestion.Some? ==> suggestion.value == InferredLevels(aiText.value)
    ensures r == ScoreFilled(provided, aiText)
  {
    var filled := FillCriteria(provided, suggestion, aiText);
    if filled.Err? {
      return Err(filled.error);
    }
    var scores := CalculateScores(filled.value.levels);
    var aiUsed := true in filled.value.autoFilled.Values;
    r := Ok(ScoreResult(scores, filled.value.levels, filled.value.autoFilled, aiUsed));
  }

  /** scoreTask: rejects a falsy description, asks the heuristics only when AI scoring
      is on, fills the criteria, and scores the result. */
  method ScoreTask(description: Json, provided: map<Criterion, Json>, allowAi: Json)
    returns (r: Result<ScoreResult, Failure>)
    ensures r == ScoreTaskSpec(description, provided, allowAi)
  {
    if !Truthy(description) {
      return Err(MissingDescription);
    }
    ghost var aiText := SuggestionText(description, allowAi);
    var suggestion: Option<map<Criterion, Level>> := None;
    if DefaultTrue(allowAi) {
      var inferred := InferLevelsFromDescription(description);
      if inferred.Err? {
        return Err(inferred.error);
      }
      suggestion := Some(inferred.value);
    }
    r := ScoreCriteria(provided, suggestion, aiText.value);
  }

  /** With all four criteria supplied, the levels and scores do not depend on the
      description, as long as the heuristics can read it (a string) or are not asked. */
  lemma ScoreTaskDescriptionIndependent(d1: Json, d2: Json, provided: map<Criterion, Json>, allowAi: Json)
    requires forall c :: !Nullish(Get(provided, c))
    requires Truthy(d1) && Truthy(d2)
    requires (d1.Str? && d2.Str?) || !DefaultTrue(allowAi)
    ensures ScoreTaskSpec(d1, provided, allowAi) == ScoreTaskSpec(d2, provided, allowAi)
  {
    FillLevelsIgnoresHeuristics(provided, SuggestionText(d1, allowAi).value,
                                SuggestionText(d2, allowAi).value, CRITERIA);
  }
}
