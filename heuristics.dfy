/** The keyword heuristics that stand in for an AI model: the four criterion levels
    and the work tag inferred from a task description
    (services/taskScoringService.js, inferLevelsFromDescription and
    inferTagFromDescription). */
module Heuristics {
  import opened Js
  import opened Outcomes
  import opened TaskDomain
  import opened Keywords

  /** `description.toLowerCase()` for a parameter declared `description = ''`:
      undefined reads as the empty text; any other non-string has no
      `toLowerCase` and throws a TypeError. */
  function LoweredDescription(description: Json): (r: Result<string, Failure>)
    ensures description.Undefined? ==> r == Ok("")
    ensures description.Str? ==> r == Ok(ToLower(description.s))
    ensures !(description.Undefined? || description.Str?) ==> r == Err(NotAString)
  {
    match description
    case Undefined => Ok("")
    case Str(s) => Ok(ToLower(s))
    case _ => Err(NotAString)
  }

  /** The keywords that raise a criterion to `high`. */
  function HighWords(c: Criterion): seq<string> {
    match c
    case FocusLevel => FOCUS_HIGH_WORDS
    case MentalLoad => MENTAL_HIGH_WORDS
    case Movement => MOVEMENT_HIGH_WORDS
    case Urgency => URGENCY_HIGH_WORDS
  }

  /** The keywords of the second tier, tried only when no `high` keyword occurs. */
  function SecondWords(c: Criterion): seq<string> {
    match c
    case FocusLevel => FOCUS_LOW_WORDS
    case MentalLoad => MENTAL_LOW_WORDS
    case Movement => MOVEMENT_MEDIUM_WORDS
    case Urgency => URGENCY_LOW_WORDS
  }

  /** The level the second tier sets: `medium` for movement, `low` otherwise. */
  function SecondTier(c: Criterion): Level {
    if c == Movement then Medium else Level.Low
  }

  /** The starting value of each criterion: `low` for movement, `medium` otherwise. */
  function DefaultLevel(c: Criterion): Level {
    if c == Movement then Level.Low else Medium
  }

  /** The level inferred for one criterion from lower-cased text. */
  function InferredLevel(c: Criterion, text: string): Level {
    if MatchesAny(text, HighWords(c)) then High
    else if MatchesAny(text, SecondWords(c)) then SecondTier(c)
    else DefaultLevel(c)
  }

  /** The inferred level of every criterion, as one record. */
  function InferredLevels(text: string): map<Criterion, Level> {
    map c: Criterion | c in CRITERIA :: InferredLevel(c, text)
  }

  /** The record of inferred levels, written out criterion by criterion. */
  lemma InferredLevelsByCriterion(text: string)
    ensures InferredLevels(text) == map[FocusLevel := InferredLevel(FocusLevel, text),
                                        MentalLoad := InferredLevel(MentalLoad, text),
                                        Movement := InferredLevel(Movement, text),
                                        Urgency := InferredLevel(Urgency, text)]
  {
  }

  /** Overwriting every field of a four-field record leaves only the new values. */
  lemma FullOverride(h: map<Criterion, Level>, f: Level, m: Level, v: Level, u: Level)
    requires h.Keys == {FocusLevel, MentalLoad, Movement, Urgency}
    ensures h[FocusLevel := f][MentalLoad := m][Movement := v][Urgency := u]
         == map[FocusLevel := f, MentalLoad := m, Movement := v, Urgency := u]
  {
  }

  /** The three outcomes of the tiers are distinct, so each inferred level tells
      which tier fired: `high` exactly when a high keyword occurs, the second-tier
      level exactly when only a second-tier keyword occurs, and the default exactly
      when neither does. */
  lemma InferredLevelTiers(c: Criterion, text: string)
    ensures InferredLevel(c, text) == High <==> MatchesAny(text, HighWords(c))
    ensures InferredLevel(c, text) == SecondTier(c)
        <==> !MatchesAny(text, HighWords(c)) && MatchesAny(text, SecondWords(c))
    ensures InferredLevel(c, text) == DefaultLevel(c)
        <==> !MatchesAny(text, HighWords(c)) && !MatchesAny(text, SecondWords(c))
  {
  }

  /** One criterion's if/else chain: a high keyword overwrites the field with
      `high`, otherwise a second-tier keyword overwrites it with the second-tier
      level, otherwise the field keeps its value. */
  method OverrideLevel(heuristics: map<Criterion, Level>, c: Criterion, text: string)
    returns (updated: map<Criterion, Level>)
    ensures c in heuristics && heuristics[c] == DefaultLevel(c) ==> updated == heuristics[c := InferredLevel(c, text)]
  {
    updated := heuristics;
    if MatchesAny(text, HighWords(c)) {
      updated := updated[c := High];
    } else if MatchesAny(text, SecondWords(c)) {
      updated := updated[c := SecondTier(c)];
    }
  }

  /** inferLevelsFromDescription: start from the defaults and let each criterion's
      if/else chain overwrite its own field. */
  method InferLevelsFromDescription(description: Json) returns (r: Result<map<Criterion, Level>, Failure>)
    ensures r.Err? <==> !(description.Undefined? || description.Str?)
    ensures r.Err? ==> r.error == NotAString
    ensures r.Ok? ==> r.value == InferredLevels(LoweredDescription(description).value)
  {
    var lowered := LoweredDescription(description);
    if lowered.Err? {
      return Err(lowered.error);
    }
    var text := lowered.value;
    var h0 := map[FocusLevel := Medium, MentalLoad := Medium, Movement := Level.Low, Urgency := Medium];
    var h1 := OverrideLevel(h0, FocusLevel, text);
    assert h1 == h0[FocusLevel := InferredLevel(FocusLevel, text)];
    var h2 := OverrideLevel(h1, MentalLoad, text);
    assert h2 == h1[MentalLoad := InferredLevel(MentalLoad, text)];
    var h3 := OverrideLevel(h2, Movement, text);
    assert h3 == h2[Movement := InferredLevel(Movement, text)];
    var heuristics := OverrideLevel(h3, Urgency, text);
    assert heuristics == h3[Urgency := InferredLevel(Urgency, text)];
    FullOverride(h0, InferredLevel(FocusLevel, text), InferredLevel(MentalLoad, text),
                 InferredLevel(Movement, text), InferredLevel(Urgency, text));
    InferredLevelsByCriterion(text);
    r := Ok(heuristics);
  }

  /** inferTagFromDescription: the groups are tried in the fixed priority order
      deep work, communicating, learning; `admin` is the answer when none matches
      (the admin group itself is tested last and gives the same answer). */
  function InferTag(description: Json): (r: Result<Tag, Failure>)
    ensures r.Err? <==> !(description.Undefined? || description.Str?)
    ensures r.Ok? ==>
      var text := LoweredDescription(description).value;
      && (r.value == DeepWork <==> MatchesAny(text, DEEP_WORK_WORDS))
      && (r.value == Communicating <==> !MatchesAny(text, DEEP_WORK_WORDS) && MatchesAny(text, COMMUNICATING_WORDS))
      && (r.value == Learning <==> !MatchesAny(text, DEEP_WORK_WORDS) && !MatchesAny(text, COMMUNICATING_WORDS)
                                    && MatchesAny(text, LEARNING_WORDS))
      && (r.value == Admin <==> !MatchesAny(text, DEEP_WORK_WORDS) && !MatchesAny(text, COMMUNICATING_WORDS)
                                 && !MatchesAny(text, LEARNING_WORDS))
  {
    match LoweredDescription(description)
    case Err(e) => Err(e)
    case Ok(text) =>
      if MatchesAny(text, DEEP_WORK_WORDS) then Ok(DeepWork)
      else if MatchesAny(text, COMMUNICATING_WORDS) then Ok(Communicating)
      else if MatchesAny(text, LEARNING_WORDS) then Ok(Learning)
      else if MatchesAny(text, ADMIN_WORDS) then Ok(Admin)
      else Ok(Admin)
  }
}
