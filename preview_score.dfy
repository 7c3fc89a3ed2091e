/** Scoring a draft task without storing it (controller/taskController.js,
    previewScore). A criterion counts as supplied whenever its field is present, even
    as null, so the answer can be labelled mixed. Any error is answered with 400. */
module ScorePreview {
  import opened Js
  import opened Outcomes
  import opened TaskDomain
  import opened Normalization
  import opened Scoring
  import opened Provenance
  import opened Requests

  /** The fields of the body that are not undefined, keyed by criterion. */
  function PresentLevels(body: map<string, Json>, cs: seq<Criterion>): map<Criterion, Json> {
    map c | c in cs && !LevelField(body, c).Undefined? :: LevelField(body, c)
  }

  /** One more criterion looked at. */
  lemma PresentLevelsStep(body: map<string, Json>, cs: seq<Criterion>, c: Criterion)
    ensures PresentLevels(body, cs + [c])
         == if LevelField(body, c).Undefined? then PresentLevels(body, cs)
            else PresentLevels(body, cs)[c := LevelField(body, c)]
  {
  }

  /** The 400 answer with the error raised, or the score, its label and the tag. */
  datatype PreviewResponse =
    | PreviewFailed(error: Failure)
    | Preview(result: ScoreResult, scoringSource: Source, tag: TagResult)

  /** `useAiScoring` with its default of true. */
  function ScoringFlag(body: map<string, Json>): Json {
    WithDefault(Get(body, "useAiScoring"), Bool(true))
  }

  /** `useAiTagging` with its default of true. */
  function TaggingFlag(body: map<string, Json>): Json {
    WithDefault(Get(body, "useAiTagging"), Bool(true))
  }

  /** The loop over CRITERIA_KEYS: copy each present field and record its key. */
  method CollectPresentLevels(body: map<string, Json>)
    returns (provided: map<Criterion, Json>, userProvidedKeys: seq<Criterion>)
    ensures provided == PresentLevels(body, CRITERIA_KEYS)
    ensures forall c :: c in userProvidedKeys <==> !LevelField(body, c).Undefined?
  {
    provided := map[];
    userProvidedKeys := [];
    for i := 0 to |CRITERIA_KEYS|
      invariant provided == PresentLevels(body, CRITERIA_KEYS[..i])
      invariant forall c :: c in userProvidedKeys <==> c in CRITERIA_KEYS[..i] && !LevelField(body, c).Undefined?
    {
      var c := CRITERIA_KEYS[i];
      assert CRITERIA_KEYS[..i + 1] == CRITERIA_KEYS[..i] + [c];
      PresentLevelsStep(body, CRITERIA_KEYS[..i], c);
      var value := LevelField(body, c);
      if !value.Undefined? {
        provided := provided[c := value];
        userProvidedKeys := userProvidedKeys + [c];
      }
    }
    assert CRITERIA_KEYS[..|CRITERIA_KEYS|] == CRITERIA_KEYS;
    forall c ensures c in CRITERIA_KEYS {
      CriteriaComplete(c);
    }
  }

  /** Every criterion reads the same through the collected map as through the body. */
  lemma PresentLevelsProvided(body: map<string, Json>, c: Criterion)
    ensures Get(PresentLevels(body, CRITERIA_KEYS), c) == LevelField(body, c)
  {
    CriteriaComplete(c);
  }

  /** previewScore: score first, then classify the tag; the first error is answered. */
  method PreviewScore(body: map<string, Json>) returns (r: PreviewResponse)
    ensures var scored := ScoreTaskSpec(Get(body, "description"), PresentLevels(body, CRITERIA_KEYS), ScoringFlag(body));
            var tagged := ClassifyTaskTag(Get(body, "description"), Get(body, "tag"), TaggingFlag(body));
            && (r.PreviewFailed? <==> scored.Err? || tagged.Err?)
            && (r.PreviewFailed? ==> r.error == if scored.Err? then scored.error else tagged.error)
            && (r.Preview? ==> r.result == scored.value && r.tag == tagged.value)
    ensures r.Preview? ==> (r.scoringSource == Manual <==> forall c :: !Nullish(LevelField(body, c)))
    ensures r.Preview? ==> (r.scoringSource == Ai <==> forall c :: LevelField(body, c).Undefined?)
    ensures r.Preview? ==> (r.scoringSource == Mixed <==>
              (exists c :: LevelField(body, c).Null?) || ((exists c :: LevelField(body, c).Undefined?)
                                                          && exists c :: !LevelField(body, c).Undefined?))
  {
    var provided, userProvidedKeys := CollectPresentLevels(body);
    forall c ensures Get(provided, c) == LevelField(body, c) {
      PresentLevelsProvided(body, c);
    }
    var scored := ScoreTask(Get(body, "description"), provided, ScoringFlag(body));
    if scored.Err? {
      return PreviewFailed(scored.error);
    }
    var tagged := ClassifyTaskTag(Get(body, "description"), Get(body, "tag"), TaggingFlag(body));
    if tagged.Err? {
      return PreviewFailed(tagged.error);
    }
    var source := BuildScoringSource(scored.value.aiUsed, userProvidedKeys);
    assert userProvidedKeys == [] <==> forall c :: LevelField(body, c).Undefined? by {
      if userProvidedKeys != [] {
        assert userProvidedKeys[0] in userProvidedKeys;
      }
    }
    r := Preview(scored.value, source, tagged.value);
  }
}
