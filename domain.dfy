/** The vocabulary of the scoring engine: the three-point level scale, the four
    weighted criteria, energy zones, work tags, provenance labels, and the reasons
    for which scoring or tagging gives up. */
module TaskDomain {
  import Outcomes

  /** The three-point scale every qualitative input is normalised to. */
  datatype Level = Low | Medium | High

  /** The canonical name a level is stored and reported under. */
  function LevelName(l: Level): string {
    match l
    case Low => "low"
    case Medium => "medium"
    case High => "high"
  }

  /** The inverse of LevelName: the level a canonical name denotes. */
  function ParseLevelName(s: string): (r: Outcomes.Option<Level>)
    ensures r.Some? ==> LevelName(r.value) == s
    ensures r.None? ==> forall l: Level :: LevelName(l) != s
  {
    if s == "low" then Outcomes.Some(Level.Low)
    else if s == "medium" then Outcomes.Some(Medium)
    else if s == "high" then Outcomes.Some(High)
    else Outcomes.None
  }

  /** The point value of a level (the table of level points). */
  function Points(l: Level): (p: int)
    ensures 1 <= p <= 3
  {
    match l
    case Low => 1
    case Medium => 2
    case High => 3
  }

  /** The four effort criteria. */
  datatype Criterion = FocusLevel | MentalLoad | Urgency | Movement

  /** The field name a criterion is read from and written to. */
  function CriterionKey(c: Criterion): string {
    match c
    case FocusLevel => "focusLevel"
    case MentalLoad => "mentalLoad"
    case Urgency => "urgency"
    case Movement => "movement"
  }

  /** The fixed weight of each criterion in the raw score. */
  function Weight(c: Criterion): (w: nat)
    ensures 1 <= w <= 3
  {
    match c
    case FocusLevel => 3
    case MentalLoad => 3
    case Urgency => 2
    case Movement => 1
  }

  /** The criteria in the order the scoring service visits them. */
  const CRITERIA: seq<Criterion> := [FocusLevel, MentalLoad, Urgency, Movement]

  /** The criteria in the order the task controller visits them. */
  const CRITERIA_KEYS: seq<Criterion> := [FocusLevel, MentalLoad, Movement, Urgency]

  /** Both visiting orders list every criterion exactly once. */
  lemma CriteriaComplete(c: Criterion)
    ensures c in CRITERIA && c in CRITERIA_KEYS
    ensures multiset(CRITERIA)[c] == 1 && multiset(CRITERIA_KEYS)[c] == 1
  {
  }

  /** Workload buckets; the names are those the task schema admits. */
  datatype Zone = Peak | Balance | Low

  function ZoneName(z: Zone): string {
    match z
    case Peak => "Peak"
    case Balance => "Balance"
    case Low => "Low"
  }

  /** Content tags. */
  datatype Tag = DeepWork | Admin | Communicating | Learning

  function TagName(t: Tag): string {
    match t
    case DeepWork => "deep_work"
    case Admin => "admin"
    case Communicating => "communicating"
    case Learning => "learning"
  }

  /** The inverse of TagName. */
  function ParseTagName(s: string): (r: Outcomes.Option<Tag>)
    ensures r.Some? ==> TagName(r.value) == s
    ensures r.None? ==> forall t: Tag :: TagName(t) != s
  {
    if s == "deep_work" then Outcomes.Some(DeepWork)
    else if s == "admin" then Outcomes.Some(Admin)
    else if s == "communicating" then Outcomes.Some(Communicating)
    else if s == "learning" then Outcomes.Some(Learning)
    else Outcomes.None
  }

  /** Where a value came from: the caller, the keyword heuristics, or both. */
  datatype Source = Ai | Manual | Mixed

  /** Why the scoring service, the tagger or a built-in operation gave up. */
  datatype Failure =
    | MissingDescription            // scoring without a (truthy) description
    | InvalidNumericLevel(n: int)   // a number other than 1, 2, 3
    | InvalidLevel(raw: string)     // a string that is not low/medium/high
    | UnsupportedLevelType          // a boolean, array or object as a level
    | InvalidTag(raw: string)       // a tag outside the four known tags
    | TagRequired                   // no tag and AI tagging disabled
    | MissingCriterion(c: Criterion) // a criterion missing and AI scoring disabled
    | NotAString                    // a string method called on a non-string (TypeError)
}
