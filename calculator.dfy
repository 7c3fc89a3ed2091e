/** The weighted calculator: raw score, mana cost and energy zone
    (services/taskScoringService.js, calculateScores and the constants it reads). */
module Calculator {
  import opened Outcomes
  import opened TaskDomain

  /** The points a criterion contributes per unit of weight; a level that is missing
      from the record counts as `medium` (`LEVEL_POINTS[level] || LEVEL_POINTS.medium`). */
  function PointsOrMedium(levels: map<Criterion, Level>, c: Criterion): (p: int)
    ensures 1 <= p <= 3
    ensures c in levels ==> p == Points(levels[c])
    ensures c !in levels ==> p == Points(Medium)
  {
    if c in levels then Points(levels[c]) else Points(Medium)
  }

  /** The sum of the weights of `cs`. */
  function TotalWeight(cs: seq<Criterion>): nat {
    if cs == [] then 0 else TotalWeight(cs[..|cs| - 1]) + Weight(cs[|cs| - 1])
  }

  /** The left fold `cs.reduce((acc, c) => acc + points(c) * c.weight, 0)`. Every
      criterion contributes between one and three times its weight. */
  function WeightedSum(levels: map<Criterion, Level>, cs: seq<Criterion>): (sum: int)
    ensures TotalWeight(cs) <= sum <= 3 * TotalWeight(cs)
  {
    if cs == [] then 0
    else
      var c := cs[|cs| - 1];
      WeightedSum(levels, cs[..|cs| - 1]) + PointsOrMedium(levels, c) * Weight(c)
  }

  /** MAX_RAW_SCORE: the fold of `LEVEL_POINTS.high * weight` over the criteria. */
  function MaxRawScoreOf(cs: seq<Criterion>): (m: int)
    ensures m == 3 * TotalWeight(cs)
  {
    if cs == [] then 0 else MaxRawScoreOf(cs[..|cs| - 1]) + Points(High) * Weight(cs[|cs| - 1])
  }

  const MAX_RAW_SCORE: int := MaxRawScoreOf(CRITERIA)

  /** With weights 3/3/2/1 the largest raw score is 27. */
  lemma MaxRawScoreValue()
    ensures TotalWeight(CRITERIA) == 9
    ensures MAX_RAW_SCORE == 27
  {
    assert CRITERIA[..3] == [FocusLevel, MentalLoad, Urgency];
    assert CRITERIA[..2] == [FocusLevel, MentalLoad];
    assert CRITERIA[..1] == [FocusLevel];
    assert [FocusLevel][..0] == [];
    assert TotalWeight([FocusLevel]) == 3;
    assert TotalWeight([FocusLevel, MentalLoad]) == 6;
    assert TotalWeight([FocusLevel, MentalLoad, Urgency]) == 8;
  }

  /** The raw score of a record of levels. */
  function RawScore(levels: map<Criterion, Level>): int {
    WeightedSum(levels, CRITERIA)
  }

  /** The raw score written out: 3·focus + 3·mental + 2·urgency + 1·movement, a
      missing level counting as medium; hence it lies between 9 and 27. */
  lemma RawScoreFormula(levels: map<Criterion, Level>)
    ensures RawScore(levels) == 3 * PointsOrMedium(levels, FocusLevel) + 3 * PointsOrMedium(levels, MentalLoad)
                                + 2 * PointsOrMedium(levels, Urgency) + PointsOrMedium(levels, Movement)
    ensures 9 <= RawScore(levels) <= 27
  {
    MaxRawScoreValue();
    var p := c => PointsOrMedium(levels, c);
    assert CRITERIA[..3] == [FocusLevel, MentalLoad, Urgency];
    assert CRITERIA[..2] == [FocusLevel, MentalLoad];
    assert CRITERIA[..1] == [FocusLevel];
    assert [FocusLevel][..0] == [];
    assert [FocusLevel, MentalLoad][..1] == [FocusLevel];
    assert [FocusLevel, MentalLoad, Urgency][..2] == [FocusLevel, MentalLoad];
    assert WeightedSum(levels, [FocusLevel]) == 3 * p(FocusLevel);
    assert WeightedSum(levels, [FocusLevel, MentalLoad]) == 3 * p(FocusLevel) + 3 * p(MentalLoad);
    assert WeightedSum(levels, [FocusLevel, MentalLoad, Urgency])
        == 3 * p(FocusLevel) + 3 * p(MentalLoad) + 2 * p(Urgency);
  }

  /** Raising one criterion's level raises the raw score by exactly its weight times
      the gain in points; it never lowers it. */
  lemma RawScoreMonotone(levels: map<Criterion, Level>, c: Criterion, l: Level)
    requires Points(l) >= PointsOrMedium(levels, c)
    ensures RawScore(levels[c := l]) - RawScore(levels) == Weight(c) * (Points(l) - PointsOrMedium(levels, c))
  {
    var raised := levels[c := l];
    RawScoreFormula(levels);
    RawScoreFormula(raised);
    PointsOrMediumUpdate(levels, c, l, FocusLevel);
    PointsOrMediumUpdate(levels, c, l, MentalLoad);
    PointsOrMediumUpdate(levels, c, l, Urgency);
    PointsOrMediumUpdate(levels, c, l, Movement);
    match c
    case FocusLevel => assert Weight(c) == 3;
    case MentalLoad => assert Weight(c) == 3;
    case Urgency => assert Weight(c) == 2;
    case Movement => assert Weight(c) == 1;
  }

  /** Setting one criterion's level changes the points of that criterion only. */
  lemma PointsOrMediumUpdate(levels: map<Criterion, Level>, c: Criterion, l: Level, d: Criterion)
    ensures PointsOrMedium(levels[c := l], d) == if d == c then Points(l) else PointsOrMedium(levels, d)
  {
  }

  /** `Math.round(raw / MAX_RAW_SCORE * 100)`, computed exactly: the nearest integer to
      100·raw/MAX_RAW_SCORE, halves rounding up. */
  function ManaCost(raw: int): (m: int)
    ensures 2 * MAX_RAW_SCORE * m - MAX_RAW_SCORE <= 200 * raw < 2 * MAX_RAW_SCORE * m + MAX_RAW_SCORE
  {
    MaxRawScoreValue();
    (200 * raw + MAX_RAW_SCORE) / (2 * MAX_RAW_SCORE)
  }

  /** For every reachable raw score the mana cost lies in [33, 100]; the maximum raw
      score gives exactly 100 and the minimum gives 33. */
  lemma ManaCostRange(raw: int)
    requires 9 <= raw <= 27
    ensures 33 <= ManaCost(raw) <= 100
    ensures raw == 27 ==> ManaCost(raw) == 100
    ensures raw == 9 ==> ManaCost(raw) == 33
  {
    MaxRawScoreValue();
  }

  /** The mana cost never decreases as the raw score grows. */
  lemma ManaCostMonotone(r1: int, r2: int)
    requires r1 <= r2
    ensures ManaCost(r1) <= ManaCost(r2)
  {
    MaxRawScoreValue();
  }

  /** One row of ENERGY_ZONES: the zone and the least mana cost it admits. */
  datatype ZoneBand = ZoneBand(zone: Zone, min: int)

  /** ENERGY_ZONES, highest threshold first. */
  const ENERGY_ZONES: seq<ZoneBand> := [ZoneBand(Peak, 70), ZoneBand(Balance, 40), ZoneBand(Zone.Low, 0)]

  /** `bands.find(zone => mana >= zone.min)?.name`: the first band whose threshold
      the mana cost reaches. */
  function FindBand(bands: seq<ZoneBand>, mana: int): (r: Option<Zone>)
    ensures r.Some? <==> exists i :: 0 <= i < |bands| && mana >= bands[i].min
    ensures r.Some? ==> exists i :: 0 <= i < |bands| && mana >= bands[i].min && bands[i].zone == r.value
                                    && forall j :: 0 <= j < i ==> mana < bands[j].min
  {
    if bands == [] then None
    else if mana >= bands[0].min then Some(bands[0].zone)
    else
      var rest := FindBand(bands[1..], mana);
      if rest.Some? then
        var i :| 0 <= i < |bands[1..]| && mana >= bands[1..][i].min && bands[1..][i].zone == rest.value
                 && forall j :: 0 <= j < i ==> mana < bands[1..][j].min;
        assert mana >= bands[i + 1].min && bands[i + 1].zone == rest.value
               && forall j :: 0 <= j < i + 1 ==> mana < bands[j].min;
        rest
      else rest
  }

  /** The energy zone of a mana cost, `'Low'` when no band matches. */
  function EnergyZone(mana: int): (z: Zone)
    ensures z == Peak <==> mana >= 70
    ensures z == Balance <==> 40 <= mana < 70
    ensures z == Zone.Low <==> mana < 40
  {
    var lowBands := [ZoneBand(Zone.Low, 0)];
    var balanceBands := [ZoneBand(Balance, 40)] + lowBands;
    assert ENERGY_ZONES == [ZoneBand(Peak, 70)] + balanceBands;
    assert lowBands[1..] == [];
    assert FindBand(lowBands, mana) == if mana >= 0 then Some(Zone.Low) else None;
    assert FindBand(balanceBands, mana) == if mana >= 40 then Some(Balance) else FindBand(lowBands, mana);
    FindBand(ENERGY_ZONES, mana).GetOr(Zone.Low)
  }

  /** The rank of a zone, Peak highest. */
  function ZoneRank(z: Zone): nat {
    match z
    case Peak => 2
    case Balance => 1
    case Low => 0
  }

  /** A higher mana cost never lands in a lower zone. */
  lemma EnergyZoneMonotone(m1: int, m2: int)
    requires m1 <= m2
    ensures ZoneRank(EnergyZone(m1)) <= ZoneRank(EnergyZone(m2))
  {
  }

  /** What calculateScores returns. */
  datatype Scores = Scores(rawScore: int, manaCost: int, energyZone: Zone)

  /** calculateScores: the raw score, its mana cost and the zone of that cost. */
  function CalculateScores(levels: map<Criterion, Level>): (s: Scores)
    ensures s.rawScore == RawScore(levels)
    ensures s.manaCost == ManaCost(s.rawScore)
    ensures s.energyZone == EnergyZone(s.manaCost)
  {
    var raw := RawScore(levels);
    var mana := ManaCost(raw);
    Scores(raw, mana, EnergyZone(mana))
  }

  /** What calculateScores computes: the weighted sum of the criteria's points (a
      missing level counting as medium) between 9 and 27, the nearest integer to
      100·raw/27 (halves rounding up) between 33 and 100, and the zone whose threshold
      that cost reaches. */
  lemma CalculateScoresMeaning(levels: map<Criterion, Level>)
    ensures var s := CalculateScores(levels);
      && s.rawScore == 3 * PointsOrMedium(levels, FocusLevel) + 3 * PointsOrMedium(levels, MentalLoad)
                       + 2 * PointsOrMedium(levels, Urgency) + PointsOrMedium(levels, Movement)
      && 9 <= s.rawScore <= MAX_RAW_SCORE
      && 2 * MAX_RAW_SCORE * s.manaCost - MAX_RAW_SCORE <= 200 * s.rawScore
      && 200 * s.rawScore < 2 * MAX_RAW_SCORE * s.manaCost + MAX_RAW_SCORE
      && 33 <= s.manaCost <= 100
      && (s.energyZone == Peak <==> s.manaCost >= 70)
      && (s.energyZone == Balance <==> 40 <= s.manaCost < 70)
      && (s.energyZone == Zone.Low <==> s.manaCost < 40)
  {
    RawScoreFormula(levels);
    MaxRawScoreValue();
    ManaCostRange(RawScore(levels));
  }

  /** All four at `high` is the heaviest task: raw score 27, mana 100, zone Peak; all
      four at `low` is the lightest: raw 9, mana 33, zone Low. */
  lemma CalculateScoresExtremes()
    ensures CalculateScores(map[FocusLevel := High, MentalLoad := High, Urgency := High, Movement := High])
            == Scores(27, 100, Peak)
    ensures CalculateScores(map[FocusLevel := Level.Low, MentalLoad := Level.Low, Urgency := Level.Low,
                                Movement := Level.Low])
            == Scores(9, 33, Zone.Low)
  {
    MaxRawScoreValue();
    RawScoreFormula(map[FocusLevel := High, MentalLoad := High, Urgency := High, Movement := High]);
    RawScoreFormula(map[FocusLevel := Level.Low, MentalLoad := Level.Low, Urgency := Level.Low,
                        Movement := Level.Low]);
  }
}
