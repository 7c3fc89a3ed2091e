/** The `updates` dictionary that updateTask (controller/taskController.js) builds:
    the request properties it reads, the values it writes, and the two loops that
    fill it (copying the mutable fields, recording a re-score). */
module UpdateFields {
  import opened Js
  import opened Outcomes
  import opened TaskDomain
  import opened Calculator
  import opened Scoring
  import opened Provenance
  import opened Subtasks

  /** A value placed in `updates`. */
  datatype FieldValue =
    | Raw(value: Json)                        // copied from the body as it is
    | Date(date: Option<int>)                 // the parsed `date`, if it parses
    | Checklist(items: seq<Subtask>)
    | LevelOf(level: Level)
    | Number(n: int)
    | ZoneOf(zone: Zone)
    | SourceOf(source: Source)
    | AutoFilled(flags: map<Criterion, bool>)
    | TagOf(tag: Tag)

  /** The properties updateTask reads from the request body and writes into `updates`,
      named as in the request and the stored document (`description`, `aiSchedule`,
      `date`, …, `focusLevel`, `mentalLoad`, `movement`, `urgency`, `rawScore`, …).
      Properties the handler never reads play no part and are not represented. */
  datatype Key =
    | Description | AiSchedule | DateField | StartTime | EndTime | TagField | Repeat | Note
    | Status | Locked | EnableEnergyRating | SubtasksField | CriterionField(criterion: Criterion)
    | RawScore | ManaCost | EnergyZoneField | ScoringSource | ScoringDetails | TagSource
    | UseAiScoring | UseAiTagging | ForceRecalculate

  /** The fields a request may set directly, in the order they are copied. */
  const MUTABLE_FIELDS: seq<Key> :=
    [Description, AiSchedule, DateField, StartTime, EndTime, TagField, Repeat, Note,
     Status, Locked, EnableEnergyRating]

  /** The value copied for a field the body names: the parsed date for `date`, the
      body's value for the others. */
  function CopiedValue(body: map<Key, Json>, parsedDate: Option<int>, f: Key): FieldValue
    requires f in body
  {
    if f == DateField then Date(parsedDate) else Raw(body[f])
  }

  /** The updates after the copying loop has visited `fields`: exactly the visited
      fields the body names, each with its copied value. */
  function CopiedFields(body: map<Key, Json>, parsedDate: Option<int>, fields: seq<Key>)
    : (updates: map<Key, FieldValue>)
    ensures forall f :: f in updates <==> f in fields && f in body
    ensures forall f :: f in updates ==> updates[f] == CopiedValue(body, parsedDate, f)
  {
    if fields == [] then map[]
    else
      var f := fields[|fields| - 1];
      var updates := CopiedFields(body, parsedDate, fields[..|fields| - 1]);
      assert forall g :: g in fields <==> g in fields[..|fields| - 1] || g == f;
      if f in body then updates[f := CopiedValue(body, parsedDate, f)] else updates
  }

  /** The copying loop visits one more field. */
  lemma CopiedFieldsStep(body: map<Key, Json>, parsedDate: Option<int>, fields: seq<Key>, f: Key)
    ensures CopiedFields(body, parsedDate, fields + [f])
         == if f in body then CopiedFields(body, parsedDate, fields)[f := CopiedValue(body, parsedDate, f)]
            else CopiedFields(body, parsedDate, fields)
  {
    assert (fields + [f])[..|fields|] == fields;
  }

  /** `CRITERIA_KEYS.filter(key => key in req.body)` */
  function KeysInBody(body: map<Key, Json>, cs: seq<Criterion>): (keys: seq<Criterion>)
    ensures forall c :: c in keys <==> c in cs && CriterionField(c) in body
    ensures |keys| <= |cs|
  {
    if cs == [] then []
    else
      var rest := KeysInBody(body, cs[..|cs| - 1]);
      assert forall c :: c in cs <==> c in cs[..|cs| - 1] || c == cs[|cs| - 1];
      if CriterionField(cs[|cs| - 1]) in body then rest + [cs[|cs| - 1]] else rest
  }

  /** The fields copied from the request: the mutable fields the body names, and the
      sanitised checklist when the body carries one. */
  function RequestFields(body: map<Key, Json>, parsedDate: Option<int>): (u: map<Key, FieldValue>)
    ensures forall f :: f in MUTABLE_FIELDS ==> (f in u <==> f in body)
    ensures forall f :: f in MUTABLE_FIELDS && f in body ==> u[f] == CopiedValue(body, parsedDate, f)
    ensures SubtasksField in u <==> SubtasksField in body
    ensures SubtasksField in body ==> u[SubtasksField] == Checklist(SanitizeSubtasks(body[SubtasksField]))
    ensures forall f :: f in u ==> f in MUTABLE_FIELDS || f == SubtasksField
  {
    var copied := CopiedFields(body, parsedDate, MUTABLE_FIELDS);
    assert SubtasksField !in MUTABLE_FIELDS;
    if SubtasksField in body then copied[SubtasksField := Checklist(SanitizeSubtasks(body[SubtasksField]))]
    else copied
  }

  /** The field names a re-score writes. */
  predicate IsScoreField(f: Key) {
    f.CriterionField? || f.RawScore? || f.ManaCost? || f.EnergyZoneField? || f.ScoringSource? || f.ScoringDetails?
  }

  /** `updates` holds what a re-score writes: the four levels, the three scores, the
      label and the auto-fill record of `s`. */
  predicate RecordsScores(updates: map<Key, FieldValue>, s: ScoreResult, userProvidedKeys: seq<Criterion>) {
    && (forall c :: c in s.levels ==> CriterionField(c) in updates && updates[CriterionField(c)] == LevelOf(s.levels[c]))
    && RawScore in updates && updates[RawScore] == Number(s.scores.rawScore)
    && ManaCost in updates && updates[ManaCost] == Number(s.scores.manaCost)
    && EnergyZoneField in updates && updates[EnergyZoneField] == ZoneOf(s.scores.energyZone)
    && ScoringSource in updates && updates[ScoringSource] == SourceOf(BuildScoringSource(s.aiUsed, userProvidedKeys))
    && ScoringDetails in updates && updates[ScoringDetails] == AutoFilled(s.autoFilled)
  }

  /** Every criterion is one of CRITERIA_KEYS. */
  lemma AllCriteriaListed()
    ensures forall c :: c in CRITERIA_KEYS
  {
    forall c ensures c in CRITERIA_KEYS {
      CriteriaComplete(c);
    }
  }

  /** The three scores, the label and the auto-fill record of a re-score. */
  function ScoreStamp(s: ScoreResult, userProvidedKeys: seq<Criterion>): map<Key, FieldValue> {
    map[RawScore := Number(s.scores.rawScore),
        ManaCost := Number(s.scores.manaCost),
        EnergyZoneField := ZoneOf(s.scores.energyZone),
        ScoringSource := SourceOf(BuildScoringSource(s.aiUsed, userProvidedKeys)),
        ScoringDetails := AutoFilled(s.autoFilled)]
  }

  /** `updates` after the level-writing loop has visited the criteria `cs`. */
  function WriteLevels(updates: map<Key, FieldValue>, levels: map<Criterion, Level>, cs: seq<Criterion>)
    : (u: map<Key, FieldValue>)
    requires forall c :: c in cs ==> c in levels
    ensures forall c :: c in cs ==> CriterionField(c) in u && u[CriterionField(c)] == LevelOf(levels[c])
    ensures forall f: Key :: !(f.CriterionField? && f.criterion in cs) ==> (f in u <==> f in updates)
    ensures forall f: Key :: !(f.CriterionField? && f.criterion in cs) && f in updates ==> u[f] == updates[f]
  {
    if cs == [] then updates
    else
      var c := cs[|cs| - 1];
      assert forall d :: d in cs <==> d in cs[..|cs| - 1] || d == c;
      WriteLevels(updates, levels, cs[..|cs| - 1])[CriterionField(c) := LevelOf(levels[c])]
  }

  /** What a re-score writes into `updates`: the four levels, the three scores, the
      label and the auto-fill record over whatever was there. */
  function WithScores(updates: map<Key, FieldValue>, s: ScoreResult, userProvidedKeys: seq<Criterion>)
    : map<Key, FieldValue>
    requires forall c :: c in s.levels
  {
    AllCriteriaListed();
    WriteLevels(updates, s.levels, CRITERIA_KEYS) + ScoreStamp(s, userProvidedKeys)
  }
}
