/** The two loops of updateTask (controller/taskController.js) that fill the `updates`
    dictionary, each proved against the function of UpdateFields that specifies it, and
    the facts about a re-score's writes that the rest of the model relies on. */
module UpdateWrites {
  import opened Js
  import opened Outcomes
  import opened TaskDomain
  import opened Scoring
  import opened Provenance
  import opened UpdateFields

  /** The loop over the mutable fields. */
  method CopyMutableFields(body: map<Key, Json>, parsedDate: Option<int>)
    returns (updates: map<Key, FieldValue>)
    ensures updates == CopiedFields(body, parsedDate, MUTABLE_FIELDS)
  {
    updates := map[];
    for i := 0 to |MUTABLE_FIELDS|
      invariant updates == CopiedFields(body, parsedDate, MUTABLE_FIELDS[..i])
    {
      var field := MUTABLE_FIELDS[i];
      assert MUTABLE_FIELDS[..i + 1] == MUTABLE_FIELDS[..i] + [field];
      CopiedFieldsStep(body, parsedDate, MUTABLE_FIELDS[..i], field);
      if field in body {
        if field == DateField {
          updates := updates[field := Date(parsedDate)];
        } else {
          updates := updates[field := Raw(body[field])];
        }
      }
    }
    assert MUTABLE_FIELDS[..|MUTABLE_FIELDS|] == MUTABLE_FIELDS;
  }

  /** The three scores, the label and the auto-fill record land in their fields. */
  lemma StampWritten(updates: map<Key, FieldValue>, s: ScoreResult, userProvidedKeys: seq<Criterion>)
    requires forall c :: c in s.levels
    ensures var u := WithScores(updates, s, userProvidedKeys);
            && RawScore in u && u[RawScore] == Number(s.scores.rawScore)
            && ManaCost in u && u[ManaCost] == Number(s.scores.manaCost)
            && EnergyZoneField in u && u[EnergyZoneField] == ZoneOf(s.scores.energyZone)
            && ScoringSource in u && u[ScoringSource] == SourceOf(BuildScoringSource(s.aiUsed, userProvidedKeys))
            && ScoringDetails in u && u[ScoringDetails] == AutoFilled(s.autoFilled)
  {
    AllCriteriaListed();
    var stamp := ScoreStamp(s, userProvidedKeys);
    assert WithScores(updates, s, userProvidedKeys) == WriteLevels(updates, s.levels, CRITERIA_KEYS) + stamp;
  }

  /** Each criterion's level lands in its field. */
  lemma LevelWritten(updates: map<Key, FieldValue>, s: ScoreResult, userProvidedKeys: seq<Criterion>, c: Criterion)
    requires forall c :: c in s.levels
    ensures CriterionField(c) in WithScores(updates, s, userProvidedKeys)
    ensures WithScores(updates, s, userProvidedKeys)[CriterionField(c)] == LevelOf(s.levels[c])
  {
    AllCriteriaListed();
    assert CriterionField(c) !in ScoreStamp(s, userProvidedKeys);
  }

  /** A re-score records every part of its result. */
  lemma WithScoresRecords(updates: map<Key, FieldValue>, s: ScoreResult, userProvidedKeys: seq<Criterion>)
    requires forall c :: c in s.levels
    ensures RecordsScores(WithScores(updates, s, userProvidedKeys), s, userProvidedKeys)
  {
    StampWritten(updates, s, userProvidedKeys);
    forall c {
      LevelWritten(updates, s, userProvidedKeys, c);
    }
  }

  /** A re-score writes every score field. */
  lemma WithScoresWritesScoreFields(updates: map<Key, FieldValue>, s: ScoreResult, userProvidedKeys: seq<Criterion>, f: Key)
    requires forall c :: c in s.levels
    requires IsScoreField(f)
    ensures f in WithScores(updates, s, userProvidedKeys)
  {
    if f.CriterionField? {
      LevelWritten(updates, s, userProvidedKeys, f.criterion);
    } else {
      assert f in ScoreStamp(s, userProvidedKeys);
    }
  }

  /** A re-score leaves every other field as it was. */
  lemma WithScoresKeepsOtherFields(updates: map<Key, FieldValue>, s: ScoreResult, userProvidedKeys: seq<Criterion>, f: Key)
    requires forall c :: c in s.levels
    requires !IsScoreField(f)
    ensures var u := WithScores(updates, s, userProvidedKeys);
            (f in u <==> f in updates) && (f in updates ==> u[f] == updates[f])
  {
    AllCriteriaListed();
    assert f !in ScoreStamp(s, userProvidedKeys);
  }

  /** A re-score writes the score fields and leaves every other field as it was. */
  lemma WithScoresFrame(updates: map<Key, FieldValue>, s: ScoreResult, userProvidedKeys: seq<Criterion>)
    requires forall c :: c in s.levels
    ensures var u := WithScores(updates, s, userProvidedKeys);
            && (forall f :: IsScoreField(f) ==> f in u)
            && (forall f :: !IsScoreField(f) ==> (f in u <==> f in updates))
            && (forall f :: !IsScoreField(f) && f in updates ==> u[f] == updates[f])
  {
    forall f | IsScoreField(f) {
      WithScoresWritesScoreFields(updates, s, userProvidedKeys, f);
    }
    forall f | !IsScoreField(f) {
      WithScoresKeepsOtherFields(updates, s, userProvidedKeys, f);
    }
  }

  /** One more turn of the level loop writes one more level. */
  lemma WriteLevelsStep(updates: map<Key, FieldValue>, levels: map<Criterion, Level>, cs: seq<Criterion>, i: nat)
    requires i < |cs| && forall c :: c in cs ==> c in levels
    ensures forall c :: c in cs[..i] ==> c in levels
    ensures WriteLevels(updates, levels, cs[..i + 1])
            == WriteLevels(updates, levels, cs[..i])[CriterionField(cs[i]) := LevelOf(levels[cs[i]])]
  {
    assert cs[..i + 1][..i] == cs[..i];
  }

  /** The loops that write a scoring result into the updates. */
  method RecordScores(updates: map<Key, FieldValue>, result: ScoreResult, userProvidedKeys: seq<Criterion>)
    returns (updated: map<Key, FieldValue>)
    requires forall c :: c in result.levels
    ensures updated == WithScores(updates, result, userProvidedKeys)
  {
    AllCriteriaListed();
    updated := updates;
    for i := 0 to |CRITERIA_KEYS|
      invariant updated == WriteLevels(updates, result.levels, CRITERIA_KEYS[..i])
    {
      var c := CRITERIA_KEYS[i];
      WriteLevelsStep(updates, result.levels, CRITERIA_KEYS, i);
      updated := updated[CriterionField(c) := LevelOf(result.levels[c])];
    }
    assert CRITERIA_KEYS[..|CRITERIA_KEYS|] == CRITERIA_KEYS;
    updated := updated + ScoreStamp(result, userProvidedKeys);
  }
}
