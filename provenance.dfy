/** How the task controller labels where a task's levels came from
    (controller/taskController.js, buildScoringSource). */
module Provenance {
  import opened Js
  import opened Outcomes
  import opened TaskDomain
  import opened Scoring

  /** buildScoringSource: manual when the heuristics filled in nothing; otherwise
      mixed when the caller supplied some criteria and ai when the caller supplied none. */
  function BuildScoringSource(aiUsed: bool, userProvidedKeys: seq<Criterion>): (s: Source)
    ensures s == Manual <==> !aiUsed
    ensures s == Mixed <==> aiUsed && |userProvidedKeys| > 0
    ensures s == Ai <==> aiUsed && userProvidedKeys == []
  {
    if !aiUsed then Manual
    else if |userProvidedKeys| > 0 then Mixed
    else Ai
  }

  /** Labelling a scoring result: manual exactly when every criterion was supplied
      with a non-null value, so that nothing was inferred. */
  lemma ScoringSourceOfResult(description: Json, provided: map<Criterion, Json>, allowAi: Json,
                              userProvidedKeys: seq<Criterion>)
    requires ScoreTaskSpec(description, provided, allowAi).Ok?
    ensures var source := BuildScoringSource(ScoreTaskSpec(description, provided, allowAi).value.aiUsed,
                                             userProvidedKeys);
            && (source == Manual <==> forall c :: !Nullish(Get(provided, c)))
            && (source == Ai <==> (exists c :: Nullish(Get(provided, c))) && userProvidedKeys == [])
  {
  }
}
