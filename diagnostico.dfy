/**
 * The student diagnostic: scoring rules of the cognitive tests (memory,
 * flexibility, speed, continuous performance, logic), the adaptive reading and
 * maths probes, the socio-emotional and metacognition scores, the norm
 * classification and the gate that decides whether a diagnosis is produced.
 * Timers, `Math.random` and `performance.now` become parameters.
 */
module Diagnostico {
  import opened Wrappers
  import opened Js
  import opened DiagnosticoData
  import opened DiagnosticoUi

  // ===== Memory =====

  /** The contribution of one number to the memory key: itself when even, else nothing. */
  function EvenPart(x: int): int
  {
    if x % 2 == 0 then x else 0
  }

  /** Sum of the even numbers among the first `n` of `s`. */
  function SumEvensTo(s: seq<int>, n: nat): int
    requires n <= |s|
  {
    if n == 0 then 0 else SumEvensTo(s, n - 1) + EvenPart(s[n - 1])
  }

  /** Sum of the even numbers of a sequence (`filter(n % 2 === 0)` then `reduce(+)`). */
  function SumEvens(s: seq<int>): int
  {
    SumEvensTo(s, |s|)
  }

  /** The memory key of a preset: the sum of the even numbers of its sequence. */
  function MemCorrectSum(id: PresetId): int
  {
    SumEvens(MemSeq(id))
  }

  /** A prefix sum only looks at the prefix. */
  lemma {:induction false} SumEvensToPrefix(a: seq<int>, b: seq<int>, n: nat)
    requires n <= |a|
    ensures SumEvensTo(a + b, n) == SumEvensTo(a, n)
  {
    if n > 0 {
      SumEvensToPrefix(a, b, n - 1);
      assert (a + b)[n - 1] == a[n - 1];
    }
  }

  lemma {:induction false} SumEvensToShift(a: seq<int>, b: seq<int>, k: nat)
    requires k <= |b|
    ensures SumEvensTo(a + b, |a| + k) == SumEvens(a) + SumEvensTo(b, k)
  {
    if k == 0 {
      SumEvensToPrefix(a, b, |a|);
    } else {
      SumEvensToShift(a, b, k - 1);
      assert (a + b)[|a| + k - 1] == b[k - 1];
    }
  }

  /** Summing the even numbers distributes over concatenation. */
  lemma {:induction false} SumEvensAppend(a: seq<int>, b: seq<int>)
    ensures SumEvens(a + b) == SumEvens(a) + SumEvens(b)
  {
    SumEvensToShift(a, b, |b|);
  }

  /** The keys of the shipped presets. */
  lemma {:induction false} MemoryKeys(id: PresetId)
    ensures MemCorrectSum(id) == match id case Efi => 8 case Efii => 8 case Em => 20 case Grad => 40
  {
    match id
    case Efi => assert SumEvensTo([3, 6, 2, 1], 4) == 8;
    case Efii => assert SumEvensTo([7, 3, 9, 1, 5, 8], 6) == 8;
    case Em => assert SumEvensTo([9, 4, 7, 2, 6, 3, 8], 7) == 20;
    case Grad => assert SumEvensTo([12, 7, 9, 4, 6, 10, 3, 8], 8) == 40;
  }

  /** The confidence a slider contributes: `clamp(parseInt(v) || 0, 0, 100)`. */
  function Confidence(input: Option<int>): (c: int)
    ensures 0 <= c <= 100
    ensures input.Some? && 0 <= input.value <= 100 ==> c == input.value
    ensures input.None? ==> c == 0
  {
    Clamp(input.GetOr(0), 0, 100)
  }

  // ===== Speed =====

  /** Speed score: 10 under the good band, 8 under the ok band, else 5. */
  function SpeedScore(reaction: int, good: int, ok: int): (r: int)
    ensures r == 10 <==> reaction < good
    ensures r == 8 <==> good <= reaction < ok
    ensures r == 5 <==> good <= reaction && ok <= reaction
  {
    if reaction < good then 10 else if reaction < ok then 8 else 5
  }

  /** A slower reaction never earns a higher speed score. */
  lemma SpeedScoreMonotone(r1: int, r2: int, good: int, ok: int)
    requires r1 <= r2
    ensures SpeedScore(r2, good, ok) <= SpeedScore(r1, good, ok)
  {
  }

  // ===== Continuous performance test =====

  function CountChar(s: seq<char>, c: char): (n: nat)
    ensures n <= |s|
  {
    if s == [] then 0 else (if s[0] == c then 1 else 0) + CountChar(s[1..], c)
  }

  function SumReal(s: seq<real>): real
  {
    if s == [] then 0.0 else s[0] + SumReal(s[1..])
  }

  /** Mean reaction time rounded to whole milliseconds, 0 without any hit. */
  function RtMean(rts: seq<real>): int
  {
    if |rts| == 0 then 0 else Round(SumReal(rts) / |rts| as real)
  }

  /**
   * `finishCPT`'s score: accuracy over the target count (floored at 1, so
   * never a division by zero), minus a quarter point per false alarm and the
   * mean reaction time over 900 ms, rounded and kept within [3, 10].
   */
  function CptScore(hits: nat, falseAlarms: nat, targets: nat, rtMean: int): (r: int)
    ensures 3 <= r <= 10
  {
    var total := if targets == 0 then 1 else targets;
    var acc := hits as real / total as real * 100.0;
    Max(3, Min(10, Round(acc / 10.0 - falseAlarms as real * 0.25 - rtMean as real / 900.0)))
  }

  /** More hits never lower the CPT score, more false alarms never raise it. */
  lemma {:induction false} CptScoreMonotone(h1: nat, h2: nat, f1: nat, f2: nat, targets: nat, rtMean: int)
    requires h1 <= h2 && f2 <= f1
    ensures CptScore(h1, f1, targets, rtMean) <= CptScore(h2, f2, targets, rtMean)
  {
    var total := if targets == 0 then 1 else targets;
    var x1 := h1 as real / total as real * 100.0 / 10.0 - f1 as real * 0.25 - rtMean as real / 900.0;
    var x2 := h2 as real / total as real * 100.0 / 10.0 - f2 as real * 0.25 - rtMean as real / 900.0;
    assert h1 as real / total as real <= h2 as real / total as real;
    RoundMonotone(x1, x2);
  }

  // ===== Reading and maths probes =====

  datatype Level = A | B | C

  function Rank(l: Level): nat
  {
    match l
    case A => 0
    case B => 1
    case C => 2
  }

  /** A correct answer moves A to B and B to C; C stays C. */
  function NextLevel(l: Level): (r: Level)
    ensures Rank(r) == Min(Rank(l) + 1, 2)
  {
    match l
    case A => B
    case B => C
    case C => C
  }

  function LevelBank(bank: Bank, l: Level): seq<Item>
  {
    match l
    case A => bank.a
    case B => bank.b
    case C => bank.c
  }

  const FallbackItem: Item := Item("—", ["A", "B", "C", "D"], 0)

  /**
   * `pickItem`: the fallback item when the level's bank is empty, otherwise a
   * bank item; `r` stands for the random draw.
   */
  function PickItem(bank: Bank, l: Level, r: nat): (it: Item)
    ensures LevelBank(bank, l) == [] ==> it == FallbackItem
    ensures LevelBank(bank, l) != [] ==> it in LevelBank(bank, l)
  {
    var items := LevelBank(bank, l);
    if |items| == 0 then FallbackItem else items[r % |items|]
  }

  /** For the shipped presets every draw is a real bank item with a valid answer key. */
  lemma {:induction false} ShippedPicksAreValid(id: PresetId, reading: bool, l: Level, r: nat)
    ensures var bank := if reading then Presets(id).lit else Presets(id).mat;
      PickItem(bank, l, r) in LevelBank(bank, l) && ValidItem(PickItem(bank, l, r))
  {
    PresetsWellFormed(id);
    var bank := if reading then Presets(id).lit else Presets(id).mat;
    var items := LevelBank(bank, l);
    assert items != [];
    assert PickItem(bank, l, r) == items[r % |items|];
  }

  function CountTrue(s: seq<bool>): nat
  {
    if s == [] then 0 else (if s[0] then 1 else 0) + CountTrue(s[1..])
  }

  /** The level reached after answering a series of items, correct or not. */
  function LevelAfter(start: Level, outcomes: seq<bool>): Level
    decreases |outcomes|
  {
    if outcomes == [] then start
    else LevelAfter(if outcomes[0] then NextLevel(start) else start, outcomes[1..])
  }

  /**
   * The level only moves up, one step per correct answer, and never past C:
   * its rank is the start rank plus the correct answers, capped at 2.
   */
  lemma {:induction false} LevelAfterRank(start: Level, outcomes: seq<bool>)
    ensures Rank(LevelAfter(start, outcomes)) == Min(Rank(start) + CountTrue(outcomes), 2)
    ensures Rank(start) <= Rank(LevelAfter(start, outcomes))
    decreases |outcomes|
  {
    if outcomes != [] {
      LevelAfterRank(if outcomes[0] then NextLevel(start) else start, outcomes[1..]);
    }
  }

  /** One adaptive probe (reading or maths): current level, items done, score and the answered flag. */
  datatype Probe = Probe(level: Level, index: nat, score: nat, answered: bool)

  /** The probe state set by `applyPreset`: level A, item 0, score 0, not answered. */
  const FreshProbe := Probe(A, 0, 0, false)

  /** The level climbs once per correct answer up to C, and the probe is answered after three items. */
  predicate ProbeValid(p: Probe)
  {
    Rank(p.level) == Min(p.score, 2) && p.score <= p.index <= 3 && p.answered == (p.index == 3)
  }

  /**
   * The "next" button of a probe: without a chosen option nothing changes;
   * otherwise a correct answer adds a point and moves the level up, the item
   * counter advances, and after the third item the probe is answered (and
   * the button is disabled, hence the precondition).
   */
  function ProbeNext(p: Probe, chosen: Option<int>, item: Item): (q: Probe)
    requires ProbeValid(p) && !p.answered
    ensures ProbeValid(q)
    ensures chosen.None? ==> q == p
    ensures chosen.Some? ==>
      var correct := chosen.value == item.ans;
      q.index == p.index + 1 &&
      q.score == p.score + (if correct then 1 else 0) &&
      Rank(q.level) == Min(Rank(p.level) + (if correct then 1 else 0), 2)
  {
    if chosen.None? then p
    else
      var correct := chosen.value == item.ans;
      var index := p.index + 1;
      Probe(if correct then NextLevel(p.level) else p.level, index,
        p.score + (if correct then 1 else 0), index >= 3)
  }

  /** The outcomes of a run of answered items, fed to the probe in order. */
  function ProbeRun(p: Probe, answers: seq<(int, Item)>): (q: Probe)
    requires ProbeValid(p) && p.index + |answers| <= 3
    ensures ProbeValid(q)
    decreases |answers|
  {
    if answers == [] then p
    else ProbeRun(ProbeNext(p, Some(answers[0].0), answers[0].1), answers[1..])
  }

  function Outcomes(answers: seq<(int, Item)>): (r: seq<bool>)
    ensures |r| == |answers|
  {
    if answers == [] then [] else [answers[0].0 == answers[0].1.ans] + Outcomes(answers[1..])
  }

  /**
   * A probe that starts fresh ends, after its answers, at the level `LevelAfter`
   * gives for their outcomes, with one point per correct answer.
   */
  lemma {:induction false} ProbeRunMatchesLevelAfter(p: Probe, answers: seq<(int, Item)>)
    requires ProbeValid(p) && p.index + |answers| <= 3
    ensures ProbeRun(p, answers).level == LevelAfter(p.level, Outcomes(answers))
    ensures ProbeRun(p, answers).score == p.score + CountTrue(Outcomes(answers))
    ensures ProbeRun(p, answers).index == p.index + |answers|
    decreases |answers|
  {
    if answers != [] {
      var q := ProbeNext(p, Some(answers[0].0), answers[0].1);
      ProbeRunMatchesLevelAfter(q, answers[1..]);
      assert q.level == if answers[0].0 == answers[0].1.ans then NextLevel(p.level) else p.level;
    }
  }

  // ===== Socio-emotional and metacognition =====

  /** The checked value of each socio-emotional radio group (`None` when none is checked). */
  datatype SocioForm = SocioForm(
    motivation: Option<string>, mindset: Option<string>, anxiety: Option<string>,
    efficacy: Option<string>, persistence: Option<string>)

  function SocioScore(f: SocioForm): (r: int)
    ensures 3 <= r <= 12
    ensures r == 12 <==> f.efficacy == Some("high") && f.persistence == Some("retry") && f.anxiety == Some("low")
  {
    (if f.efficacy == Some("high") then 4 else 1) +
    (if f.persistence == Some("retry") then 4 else 1) +
    (if f.anxiety == Some("low") then 4 else if f.anxiety == Some("medium") then 2 else 1)
  }

  /** The four confidence sliders. */
  datatype Confidences = Confidences(mem: int, flex: int, speed: int, logic: int)

  function CognitivePoints(card: ScoreCard): seq<int>
  {
    [card.memScore, card.flexScore, card.speedScore, card.logicScore, card.cptScore]
  }

  /** The confidences on the 0..10 scale; the fifth is their mean, or 50 when that is 0. */
  function ConfidencePoints(c: Confidences): (r: seq<real>)
    ensures |r| == 5
  {
    var mean := (c.mem + c.flex + c.speed + c.logic) as real / 4.0;
    [c.mem as real / 10.0, c.flex as real / 10.0, c.speed as real / 10.0, c.logic as real / 10.0,
     (if mean == 0.0 then 50.0 else mean) / 10.0]
  }

  function AbsReal(x: real): real { if x < 0.0 then -x else x }

  /** Sum of |point - confidence| over the first k positions whose point is positive. */
  function Deviation(pts: seq<int>, conf: seq<real>, k: nat): real
    requires k <= |pts| && k <= |conf|
  {
    if k == 0 then 0.0
    else
      Deviation(pts, conf, k - 1) +
      (if pts[k - 1] > 0 then AbsReal(pts[k - 1] as real - conf[k - 1]) else 0.0)
  }

  /** The number of positive points among the first k. */
  function Positives(pts: seq<int>, k: nat): nat
    requires k <= |pts|
  {
    if k == 0 then 0 else Positives(pts, k - 1) + (if pts[k - 1] > 0 then 1 else 0)
  }

  /**
   * `metacogCalibration` as a value: 100 minus ten times the mean deviation
   * between score and confidence over the positive scores, floored at 0 and
   * rounded; with no positive score the division is by zero and the result is 0.
   */
  function Calibration(card: ScoreCard, c: Confidences): (r: int)
    ensures 0 <= r <= 100
    ensures Positives(CognitivePoints(card), 5) == 0 ==> r == 0
  {
    var pts := CognitivePoints(card);
    var n := Positives(pts, 5);
    if n == 0 then 0
    else
      var calib := 100.0 - Deviation(pts, ConfidencePoints(c), 5) * 10.0 / n as real;
      var clipped := if calib < 0.0 then 0.0 else calib;
      DeviationNonNegative(pts, ConfidencePoints(c), 5);
      RoundMonotone(clipped, 100.0);
      RoundMonotone(0.0, clipped);
      Min(100, Round(clipped))
  }

  lemma {:induction false} DeviationNonNegative(pts: seq<int>, conf: seq<real>, k: nat)
    requires k <= |pts| && k <= |conf|
    ensures Deviation(pts, conf, k) >= 0.0
  {
    if k > 0 {
      DeviationNonNegative(pts, conf, k - 1);
    }
  }

  /**
   * `metacogCalibration`: the loop accumulates the deviation and the count of
   * positive scores, then the calibration is computed from them.
   */
  method MetacogCalibration(card: ScoreCard, c: Confidences) returns (r: int)
    ensures r == Calibration(card, c)
  {
    var pts := CognitivePoints(card);
    var conf := ConfidencePoints(c);
    var dif := 0.0;
    var n := 0;
    var i := 0;
    while i < |pts|
      invariant 0 <= i <= |pts|
      invariant dif == Deviation(pts, conf, i)
      invariant n == Positives(pts, i)
    {
      if pts[i] > 0 {
        dif := dif + AbsReal(pts[i] as real - conf[i]);
        n := n + 1;
      }
      i := i + 1;
    }
    if n == 0 {
      return 0;
    }
    var calib := 100.0 - dif * 10.0 / n as real;
    if calib < 0.0 {
      calib := 0.0;
    }
    r := Min(100, Round(calib));
  }

  /** Zero deviation when every positive score equals its confidence point. */
  lemma {:induction false} DeviationZero(pts: seq<int>, conf: seq<real>, k: nat)
    requires k <= |pts| && k <= |conf|
    requires forall i :: 0 <= i < k && pts[i] > 0 ==> pts[i] as real == conf[i]
    ensures Deviation(pts, conf, k) == 0.0
  {
    if k > 0 {
      DeviationZero(pts, conf, k - 1);
    }
  }

  /** A student whose confidence matches every positive score exactly is calibrated at 100. */
  lemma {:induction false} PerfectCalibration(card: ScoreCard, c: Confidences)
    requires Positives(CognitivePoints(card), 5) > 0
    requires forall i :: 0 <= i < 5 && CognitivePoints(card)[i] > 0 ==>
      CognitivePoints(card)[i] as real == ConfidencePoints(c)[i]
    ensures Calibration(card, c) == 100
  {
    DeviationZero(CognitivePoints(card), ConfidencePoints(c), 5);
  }

  // ===== Norms =====

  datatype Classification = Classification(level: string, badgeClass: string, percentile: int)

  /** The percentile range of each band. */
  function BandLow(score: int, n: Norm): int
  {
    if score <= n.c1 then 5 else if score <= n.c2 then 26 else 76
  }

  function BandHigh(score: int, n: Norm): int
  {
    if score <= n.c1 then 25 else if score <= n.c2 then 75 else 97
  }

  /**
   * `classify`: the band by the two cuts, and a percentile interpolated
   * linearly inside the band's percentile range, clamped to [1, 99].
   */
  function Classify(score: int, n: Norm): (r: Classification)
    ensures r.level == "Atenção" <==> score <= n.c1
    ensures r.level == "Adequado" <==> n.c1 < score <= n.c2
    ensures r.level == "Avançado" <==> n.c1 < score && n.c2 < score
    ensures r.badgeClass == (if score <= n.c1 then "badge-atencao"
                             else if score <= n.c2 then "badge-adequado" else "badge-avancado")
    ensures 1 <= r.percentile <= 99
  {
    var pmin := BandLow(score, n);
    var pmax := BandHigh(score, n);
    var baseMin := if score <= n.c1 then 0 else if score <= n.c2 then n.c1 + 1 else n.c2 + 1;
    var baseMax := if score <= n.c1 then n.c1 else if score <= n.c2 then n.c2 else n.max;
    var pct :=
      if baseMax > baseMin then
        Round(pmin as real + (score - baseMin) as real / (baseMax - baseMin) as real * (pmax - pmin) as real)
      else pmin;
    var level := if score <= n.c1 then "Atenção" else if score <= n.c2 then "Adequado" else "Avançado";
    var badge := if score <= n.c1 then "badge-atencao" else if score <= n.c2 then "badge-adequado" else "badge-avancado";
    Classification(level, badge, Clamp(pct, 1, 99))
  }

  lemma {:induction false} InterpolationInRange(lo: int, hi: int, pmin: int, pmax: int, score: int)
    requires lo < hi && lo <= score <= hi && pmin <= pmax
    ensures var t := (score - lo) as real / (hi - lo) as real;
      pmin <= Round(pmin as real + t * (pmax - pmin) as real) <= pmax
  {
    var t := (score - lo) as real / (hi - lo) as real;
    assert 0.0 <= t <= 1.0;
    var x := pmin as real + t * (pmax - pmin) as real;
    assert t * (pmax - pmin) as real <= (pmax - pmin) as real;
    RoundMonotone(pmin as real, x);
    RoundMonotone(x, pmax as real);
  }

  /**
   * For a score inside the scale (0 ≤ score ≤ max) of a well-formed norm, the
   * percentile falls inside its band's range: 5–25, 26–75 or 76–97.
   */
  lemma {:induction false} ClassifyPercentileInBand(score: int, n: Norm)
    requires WellFormedNorm(n) && 0 <= score <= n.max
    ensures BandLow(score, n) <= Classify(score, n).percentile <= BandHigh(score, n)
  {
    var pmin := BandLow(score, n);
    var pmax := BandHigh(score, n);
    var baseMin := if score <= n.c1 then 0 else if score <= n.c2 then n.c1 + 1 else n.c2 + 1;
    var baseMax := if score <= n.c1 then n.c1 else if score <= n.c2 then n.c2 else n.max;
    if baseMax > baseMin {
      InterpolationInRange(baseMin, baseMax, pmin, pmax, score);
    }
  }

  datatype QualityLabel = QualityLabel(text: string, badgeClass: string)

  /** `metaQualityLabel`: 75 and above reads as under-confident, 45–65 as calibrated, anything else as over-confident. */
  function MetaQualityLabel(p: int): (r: QualityLabel)
    ensures r.text == "Subconfiante?" <==> p >= 75
    ensures r.text == "Bem calibrado" <==> 45 <= p <= 65
    ensures r.text == "Superconfiante?" <==> (p < 45 || 65 < p < 75)
  {
    if p >= 75 then QualityLabel("Subconfiante?", "badge-adequado")
    else if p >= 45 && p <= 65 then QualityLabel("Bem calibrado", "badge-avancado")
    else QualityLabel("Superconfiante?", "badge-atencao")
  }

  // ===== Diagnosis =====

  datatype Recommendation = Recommendation(title: string, strategy: string)

  datatype Diagnosis = Diagnosis(
    preset: PresetId, card: ScoreCard, cogTotal: int, socio: int, meta: int, metaQuality: QualityLabel,
    cog: Classification, lit: Classification, mat: Classification, recs: seq<Recommendation>)

  /** All five socio groups answered, all five cognitive scores non-zero and both probes answered. */
  predicate Complete(f: SocioForm, card: ScoreCard)
  {
    f.motivation.Some? && f.mindset.Some? && f.anxiety.Some? && f.efficacy.Some? && f.persistence.Some? &&
    card.memScore != 0 && card.flexScore != 0 && card.speedScore != 0 &&
    card.logicScore != 0 && card.cptScore != 0 && card.litAnswered && card.matAnswered
  }

  /** The seven possible recommendations, in the order the report lists them. */
  function RecommendationTable(): seq<Recommendation>
  {
    [
    Recommendation("🧠 Memória", "Chunking e exemplos concretos"),
    Recommendation("🔄 Flexibilidade", "Resolver por duas rotas diferentes"),
    Recommendation("⚡ Velocidade", "Sprints cronometrados de 2-3 min"),
    Recommendation("🎯 Atenção", "Pomodoro e reduzir distrações"),
    Recommendation("🧩 Lógica", "Treinar padrões e progressões"),
    Recommendation("📖 Leitura", "Fluência + vocabulário básico"),
    Recommendation("🔢 Matemática", "Fatos básicos com representação visual")]
  }

  /** Whether row `k` of the table applies: a cognitive score under 7, or a probe score of at most 1. */
  predicate NeedsHelp(card: ScoreCard, k: nat)
  {
    match k
    case 0 => card.memScore < 7
    case 1 => card.flexScore < 7
    case 2 => card.speedScore < 7
    case 3 => card.cptScore < 7
    case 4 => card.logicScore < 7
    case 5 => card.litScore <= 1
    case 6 => card.matScore <= 1
    case _ => false
  }

  /** The numbers of the rows from `k` on that apply, ascending. */
  function WeakRows(card: ScoreCard, k: nat): (ix: seq<nat>)
    requires k <= 7
    decreases 7 - k
    ensures forall i :: 0 <= i < |ix| ==> k <= ix[i] < 7 && NeedsHelp(card, ix[i])
    ensures forall i, j :: 0 <= i < j < |ix| ==> ix[i] < ix[j]
    ensures forall j :: k <= j < 7 && NeedsHelp(card, j) ==> j in ix
  {
    if k == 7 then []
    else
      var rest := WeakRows(card, k + 1);
      if NeedsHelp(card, k) then [k] + rest else rest
  }

  /** The rows of the seven-row table `t` from `k` on that apply, in table order. */
  function RecommendationsFrom(t: seq<Recommendation>, card: ScoreCard, k: nat): (r: seq<Recommendation>)
    requires |t| == 7 && k <= 7
    decreases 7 - k
    ensures |r| <= 7 - k
    ensures forall x :: x in r <==> exists j :: k <= j < 7 && NeedsHelp(card, j) && x == t[j]
    ensures |r| == |WeakRows(card, k)| && forall i :: 0 <= i < |r| ==> r[i] == t[WeakRows(card, k)[i]]
  {
    if k == 7 then []
    else
      var rest := RecommendationsFrom(t, card, k + 1);
      var r := if NeedsHelp(card, k) then [t[k]] + rest else rest;
      MembersStep(t, card, k, rest, r);
      OrderStep(t, card, k, rest, r);
      r
  }

  lemma MembersStep(t: seq<Recommendation>, card: ScoreCard, k: nat, rest: seq<Recommendation>, r: seq<Recommendation>)
    requires |t| == 7 && k < 7
    requires forall x :: x in rest <==> exists j :: k + 1 <= j < 7 && NeedsHelp(card, j) && x == t[j]
    requires r == if NeedsHelp(card, k) then [t[k]] + rest else rest
    ensures forall x :: x in r <==> exists j :: k <= j < 7 && NeedsHelp(card, j) && x == t[j]
  {
    forall x | exists j :: k <= j < 7 && NeedsHelp(card, j) && x == t[j]
      ensures x in r
    {
      var j :| k <= j < 7 && NeedsHelp(card, j) && x == t[j];
      if j > k {
        assert x in rest;
      }
    }
  }

  lemma OrderStep(t: seq<Recommendation>, card: ScoreCard, k: nat, rest: seq<Recommendation>, r: seq<Recommendation>)
    requires |t| == 7 && k < 7
    requires |rest| == |WeakRows(card, k + 1)| && forall i :: 0 <= i < |rest| ==> rest[i] == t[WeakRows(card, k + 1)[i]]
    requires r == if NeedsHelp(card, k) then [t[k]] + rest else rest
    ensures |r| == |WeakRows(card, k)| && forall i :: 0 <= i < |r| ==> r[i] == t[WeakRows(card, k)[i]]
  {
    var w := WeakRows(card, k + 1);
    var w0 := WeakRows(card, k);
    if NeedsHelp(card, k) {
      assert w0 == [k] + w;
      ConsIndexed(t, k, rest, w);
    } else {
      assert w0 == w;
    }
  }

  /** Putting row `k` in front of rows picked by `w` picks the rows of `[k] + w`. */
  lemma ConsIndexed(t: seq<Recommendation>, k: nat, rest: seq<Recommendation>, w: seq<nat>)
    requires k < |t| && |rest| == |w|
    requires forall i :: 0 <= i < |w| ==> w[i] < |t| && rest[i] == t[w[i]]
    ensures forall i :: 0 <= i < |rest| + 1 ==> ([t[k]] + rest)[i] == t[([k] + w)[i]]
  {
    forall i | 0 <= i < |rest| + 1 ensures ([t[k]] + rest)[i] == t[([k] + w)[i]] {
      if i > 0 {
        assert ([t[k]] + rest)[i] == rest[i - 1] && ([k] + w)[i] == w[i - 1];
      }
    }
  }

  /** The recommendation list of the report. */
  function Recommendations(card: ScoreCard): (r: seq<Recommendation>)
    ensures |r| <= 7
    ensures forall x :: x in r <==>
      exists j :: 0 <= j < 7 && NeedsHelp(card, j) && x == RecommendationTable()[j]
    ensures |r| == |WeakRows(card, 0)| &&
      forall i :: 0 <= i < |r| ==> r[i] == RecommendationTable()[WeakRows(card, 0)[i]]
  {
    RecommendationsFrom(RecommendationTable(), card, 0)
  }

  /** No recommendation is made exactly when every score is out of the weak range. */
  lemma {:induction false} NoRecommendationsIffAllStrong(card: ScoreCard)
    ensures Recommendations(card) == [] <==> forall j :: 0 <= j < 7 ==> !NeedsHelp(card, j)
  {
    var r := Recommendations(card);
    if r != [] {
      assert r[0] in r;
    }
  }

  /**
   * `generateDiagnosis`: nothing unless the form and tests are complete;
   * otherwise the cognitive total is the sum of the five scores and every part
   * is classified against the preset's norms.
   */
  function Diagnose(id: PresetId, f: SocioForm, card: ScoreCard, c: Confidences): (r: Option<Diagnosis>)
    ensures r.Some? <==> Complete(f, card)
    ensures r.Some? ==>
      r.value.cogTotal == card.memScore + card.flexScore + card.speedScore + card.logicScore + card.cptScore &&
      r.value.card == card && 3 <= r.value.socio <= 12 && 0 <= r.value.meta <= 100
  {
    if !Complete(f, card) then None
    else
      var total := card.memScore + card.flexScore + card.speedScore + card.logicScore + card.cptScore;
      var meta := Calibration(card, c);
      var norms := NormsOf(id);
      Some(Diagnosis(id, card, total, SocioScore(f), meta, MetaQualityLabel(meta),
        Classify(total, norms.cognitive), Classify(card.litScore, norms.reading),
        Classify(card.matScore, norms.math), Recommendations(card)))
  }

  /** A right/wrong test score: 0 before the test, then 4 or 10. */
  predicate BinaryScore(x: int) { x == 0 || x == 4 || x == 10 }

  predicate SpeedValue(x: int) { x == 0 || x == 5 || x == 8 || x == 10 }

  /** The score values the handlers can produce (0 = not taken yet). */
  predicate ScoresInRange(card: ScoreCard)
  {
    BinaryScore(card.memScore) && BinaryScore(card.flexScore) && SpeedValue(card.speedScore) &&
    BinaryScore(card.logicScore) && (card.cptScore == 0 || 3 <= card.cptScore <= 10) &&
    0 <= card.litScore <= 3 && 0 <= card.matScore <= 3
  }

  /**
   * A complete diagnosis from reachable scores has a cognitive total in 19..50,
   * inside every preset's cognitive scale, so its percentile lies in its band.
   */
  lemma {:induction false} CompleteDiagnosisInScale(id: PresetId, f: SocioForm, card: ScoreCard, c: Confidences)
    requires ScoresInRange(card) && Complete(f, card)
    ensures Diagnose(id, f, card, c).Some?
    ensures var d := Diagnose(id, f, card, c).value;
      19 <= d.cogTotal <= NormsOf(id).cognitive.max &&
      BandLow(d.cogTotal, NormsOf(id).cognitive) <= d.cog.percentile <= BandHigh(d.cogTotal, NormsOf(id).cognitive) &&
      BandLow(card.litScore, NormsOf(id).reading) <= d.lit.percentile <= BandHigh(card.litScore, NormsOf(id).reading)
  {
    DiagnoseClassifies(id, f, card, c);
    TotalInScale(id, card);
    ScoresInBands(id, card);
  }

  /** The total and the reading score each get a percentile inside their band. */
  lemma ScoresInBands(id: PresetId, card: ScoreCard)
    requires ScoresInRange(card) && card.memScore != 0 && card.flexScore != 0 && card.speedScore != 0
    requires card.logicScore != 0 && card.cptScore != 0
    ensures var total := card.memScore + card.flexScore + card.speedScore + card.logicScore + card.cptScore;
      BandLow(total, NormsOf(id).cognitive) <= Classify(total, NormsOf(id).cognitive).percentile <= BandHigh(total, NormsOf(id).cognitive)
    ensures BandLow(card.litScore, NormsOf(id).reading) <= Classify(card.litScore, NormsOf(id).reading).percentile <= BandHigh(card.litScore, NormsOf(id).reading)
  {
    var total := card.memScore + card.flexScore + card.speedScore + card.logicScore + card.cptScore;
    NormsWellFormed(id);
    TotalInScale(id, card);
    ClassifyPercentileInBand(total, NormsOf(id).cognitive);
    ClassifyPercentileInBand(card.litScore, NormsOf(id).reading);
  }


  /** The five task scores of a complete card add up to at least 19 and at most the cognitive scale's top. */
  lemma TotalInScale(id: PresetId, card: ScoreCard)
    requires ScoresInRange(card) && card.memScore != 0 && card.flexScore != 0 && card.speedScore != 0
    requires card.logicScore != 0 && card.cptScore != 0
    ensures 19 <= card.memScore + card.flexScore + card.speedScore + card.logicScore + card.cptScore <= NormsOf(id).cognitive.max
  {
  }

  /** The cognitive and reading results are the classifications of the total and of the reading score. */
  lemma DiagnoseClassifies(id: PresetId, f: SocioForm, card: ScoreCard, c: Confidences)
    requires Complete(f, card)
    ensures Diagnose(id, f, card, c).Some?
    ensures Diagnose(id, f, card, c).value.cog ==
      Classify(card.memScore + card.flexScore + card.speedScore + card.logicScore + card.cptScore, NormsOf(id).cognitive)
    ensures Diagnose(id, f, card, c).value.lit == Classify(card.litScore, NormsOf(id).reading)
  {
  }


  // ===== The diagnostic page state =====

  /** The flexibility test's variables: started, colour changes done and due, and the go/no-go signal. */
  datatype FlexState = FlexState(started: bool, changesDone: nat, changesTodo: nat,
    goNoGoRequired: bool, goNoGoOk: bool)

  /** The speed test's variables: when the box turned green (0 = not armed) and the recorded reaction. */
  datatype SpeedTrial = SpeedTrial(start: real, reaction: int)

  /** The CPT's variables. */
  datatype CptState = CptState(running: bool, stimIdx: nat, hits: nat, falseAlarms: nat,
    rt: seq<real>, stimuli: seq<char>, target: char, pressArmed: bool, onset: real)

  /** Counters that never run ahead of the stimuli shown, and one reaction time per hit. */
  predicate CptCounts(c: CptState)
  {
    c.stimIdx <= |c.stimuli| && |c.rt| == c.hits && c.hits + c.falseAlarms <= c.stimIdx
  }

  /** ... and while a stimulus is armed, it has not been answered yet. */
  predicate CptValid(c: CptState)
  {
    CptCounts(c) && (c.running && c.pressArmed ==> c.hits + c.falseAlarms < c.stimIdx)
  }

  predicate ConfsInRange(c: Confidences)
  {
    0 <= c.mem <= 100 && 0 <= c.flex <= 100 && 0 <= c.speed <= 100 && 0 <= c.logic <= 100
  }

  /**
   * The state of the diagnostic page: the preset, the `scores` object, the
   * confidences, the two probes' level and item counter, and the variables of
   * the flexibility, speed and CPT tests.
   */
  class Diagnostic {
    var preset: PresetId
    var scores: ScoreCard
    var confs: Confidences
    var litLevel: Level
    var litIndex: nat
    var matLevel: Level
    var matIndex: nat
    var flex: FlexState
    var speed: SpeedTrial
    var cpt: CptState

    /** The reading probe as a value. */
    function LitProbe(): Probe
      reads this
    {
      Probe(litLevel, litIndex, if scores.litScore < 0 then 0 else scores.litScore, scores.litAnswered)
    }

    /** The maths probe as a value. */
    function MatProbe(): Probe
      reads this
    {
      Probe(matLevel, matIndex, if scores.matScore < 0 then 0 else scores.matScore, scores.matAnswered)
    }

    /** Everything but the CPT's armed-stimulus clause. */
    ghost predicate Steady()
      reads this
    {
      0 <= scores.litScore && 0 <= scores.matScore &&
      ProbeValid(LitProbe()) && ProbeValid(MatProbe()) &&
      BinaryScore(scores.memScore) && BinaryScore(scores.flexScore) && SpeedValue(scores.speedScore) &&
      BinaryScore(scores.logicScore) && (scores.cptScore == 0 || 3 <= scores.cptScore <= 10) &&
      ConfsInRange(confs)
    }

    /**
     * Scores only take the values the handlers assign, the probes keep their
     * level in step with their score, confidences are within 0..100, and at
     * most one CPT response is counted per shown stimulus.
     */
    ghost predicate Valid()
      reads this
    {
      Steady() && CptValid(cpt)
    }

    /** The module's initial state, followed by `applyPreset`. */
    constructor (id: PresetId)
      ensures Valid() && preset == id
      ensures scores == ScoreCard(0, 0, 0, 0, 0, 0, 0, false, false)
      ensures LitProbe() == FreshProbe && MatProbe() == FreshProbe
      ensures confs == Confidences(0, 0, 0, 0)
      ensures flex == FlexState(false, 0, FlexChanges(id), false, false)
      ensures CptOf(id).targets != [] && cpt.target == CptOf(id).targets[0] && !cpt.running
    {
      CptTargetsNonEmpty(id);
      preset := id;
      scores := ScoreCard(0, 0, 0, 0, 0, 0, 0, false, false);
      confs := Confidences(0, 0, 0, 0);
      litLevel, litIndex, matLevel, matIndex := A, 0, A, 0;
      flex := FlexState(false, 0, FlexChanges(id), false, false);
      speed := SpeedTrial(0.0, 0);
      cpt := CptState(false, 0, 0, 0, [], [], CptOf(id).targets[0], false, 0.0);
    }

    /**
     * `applyPreset`: resets memory, speed and logic scores and both probes,
     * loads the preset's flexibility count and CPT target, and re-schedules the
     * speed box. The flexibility and CPT scores and the confidences are left
     * as they were.
     */
    method ApplyPreset(id: PresetId)
      requires Valid()
      modifies this
      ensures Valid() && preset == id
      ensures scores == old(scores).(memScore := 0, speedScore := 0, logicScore := 0,
        litScore := 0, matScore := 0, litAnswered := false, matAnswered := false)
      ensures LitProbe() == FreshProbe && MatProbe() == FreshProbe
      ensures confs == old(confs)
      ensures flex == old(flex).(started := false, changesDone := 0, changesTodo := FlexChanges(id),
        goNoGoRequired := false)
      ensures speed == SpeedTrial(0.0, 0)
      ensures CptOf(id).targets != [] && cpt == old(cpt).(target := CptOf(id).targets[0])
    {
      CptTargetsNonEmpty(id);
      preset := id;
      cpt := cpt.(target := CptOf(id).targets[0]);
      scores := scores.(memScore := 0);
      flex := flex.(changesTodo := FlexChanges(id), changesDone := 0, started := false, goNoGoRequired := false);
      ScheduleSpeedBox();
      scores := scores.(speedScore := 0, logicScore := 0);
      litLevel, litIndex, matLevel, matIndex := A, 0, A, 0;
      scores := scores.(litScore := 0, litAnswered := false, matScore := 0, matAnswered := false);
    }

    /** `handleMemoryCheck`: 10 for the preset's key, 4 for anything else (including an unparsable answer). */
    method HandleMemoryCheck(answer: Option<int>, conf: Option<int>)
      requires Valid()
      modifies this
      ensures Valid()
      ensures scores == old(scores).(memScore := if answer == Some(MemCorrectSum(preset)) then 10 else 4)
      ensures confs == old(confs).(mem := Confidence(conf))
      ensures preset == old(preset) && LitProbe() == old(LitProbe()) && MatProbe() == old(MatProbe())
      ensures flex == old(flex) && speed == old(speed) && cpt == old(cpt)
    {
      confs := confs.(mem := Confidence(conf));
      if answer == Some(MemCorrectSum(preset)) {
        scores := scores.(memScore := 10);
      } else {
        scores := scores.(memScore := 4);
      }
    }

    /**
     * `handleFlexClick`: the first click starts the changing rule; later clicks
     * score 4 while the red go/no-go signal is up (inhibition failed), else 10.
     */
    method HandleFlexClick(conf: Option<int>)
      requires Valid()
      modifies this
      ensures Valid()
      ensures !old(flex.started) ==>
        flex == old(flex).(started := true) && scores == old(scores) && confs == old(confs)
      ensures old(flex.started) ==>
        confs == old(confs).(flex := Confidence(conf)) &&
        scores == old(scores).(flexScore := if old(flex.goNoGoRequired) then 4 else 10) &&
        flex == (if old(flex.goNoGoRequired) then old(flex).(goNoGoOk := false) else old(flex))
      ensures preset == old(preset) && LitProbe() == old(LitProbe()) && MatProbe() == old(MatProbe())
      ensures speed == old(speed) && cpt == old(cpt)
    {
      if !flex.started {
        flex := flex.(started := true);
        return;
      }
      confs := confs.(flex := Confidence(conf));
      if flex.goNoGoRequired {
        flex := flex.(goNoGoOk := false);
        scores := scores.(flexScore := 4);
      } else {
        scores := scores.(flexScore := 10);
      }
    }

    /** `advanceFlexRule`: after the preset's number of changes the red go/no-go signal is raised. */
    method AdvanceFlexRule()
      requires Valid()
      modifies this
      ensures Valid()
      ensures flex.changesDone == old(flex.changesDone) + 1 && flex.changesTodo == old(flex.changesTodo)
      ensures flex.started == old(flex.started)
      ensures flex.changesDone < flex.changesTodo ==>
        flex.goNoGoRequired == old(flex.goNoGoRequired) && flex.goNoGoOk == old(flex.goNoGoOk)
      ensures flex.changesDone >= flex.changesTodo ==> flex.goNoGoRequired && flex.goNoGoOk
      ensures scores == old(scores) && confs == old(confs) && speed == old(speed) && cpt == old(cpt)
      ensures LitProbe() == old(LitProbe()) && MatProbe() == old(MatProbe())
    {
      flex := flex.(changesDone := flex.changesDone + 1);
      if flex.changesDone >= flex.changesTodo {
        flex := flex.(goNoGoRequired := true, goNoGoOk := true);
      }
    }

    /** The go/no-go timeout: not clicking on red scores 10; the signal is lowered either way. */
    method GoNoGoTimeout()
      requires Valid()
      modifies this
      ensures Valid()
      ensures scores == old(scores).(flexScore :=
        if old(flex.goNoGoRequired) && old(flex.goNoGoOk) then 10 else old(scores.flexScore))
      ensures flex == old(flex).(goNoGoRequired := false)
      ensures confs == old(confs) && speed == old(speed) && cpt == old(cpt)
      ensures LitProbe() == old(LitProbe()) && MatProbe() == old(MatProbe())
    {
      if flex.goNoGoRequired && flex.goNoGoOk {
        scores := scores.(flexScore := 10);
      }
      flex := flex.(goNoGoRequired := false);
    }

    /** `scheduleSpeedBox`: the trial is disarmed until the box turns green. */
    method ScheduleSpeedBox()
      modifies this
      ensures speed == SpeedTrial(0.0, 0)
      ensures preset == old(preset) && scores == old(scores) && confs == old(confs)
      ensures litLevel == old(litLevel) && litIndex == old(litIndex)
      ensures matLevel == old(matLevel) && matIndex == old(matIndex)
      ensures flex == old(flex) && cpt == old(cpt)
    {
      speed := SpeedTrial(0.0, 0);
    }

    /** The box turns green: the trial is armed with the current time. */
    method SpeedBoxShown(now: real)
      requires Valid()
      modifies this
      ensures Valid() && speed == old(speed).(start := now)
      ensures scores == old(scores) && confs == old(confs) && flex == old(flex) && cpt == old(cpt)
      ensures LitProbe() == old(LitProbe()) && MatProbe() == old(MatProbe())
    {
      speed := speed.(start := now);
    }

    /**
     * `handleSpeedClick`: only an armed trial without a recorded reaction
     * counts; the reaction is the floored elapsed time, scored against the
     * preset's bands, and the next trial is scheduled.
     */
    method HandleSpeedClick(now: real, conf: Option<int>)
      requires Valid()
      modifies this
      ensures Valid()
      ensures !(old(speed.start) > 0.0 && old(speed.reaction) == 0) ==>
        scores == old(scores) && confs == old(confs) && speed == old(speed)
      ensures old(speed.start) > 0.0 && old(speed.reaction) == 0 ==>
        scores == old(scores).(speedScore :=
          SpeedScore((now - old(speed.start)).Floor, SpeedGood(preset), SpeedOk(preset))) &&
        confs == old(confs).(speed := Confidence(conf)) && speed == SpeedTrial(0.0, 0)
      ensures flex == old(flex) && cpt == old(cpt)
      ensures LitProbe() == old(LitProbe()) && MatProbe() == old(MatProbe())
    {
      if speed.start > 0.0 && speed.reaction == 0 {
        var reaction := (now - speed.start).Floor;
        speed := speed.(reaction := reaction);
        confs := confs.(speed := Confidence(conf));
        scores := scores.(speedScore := SpeedScore(reaction, SpeedGood(preset), SpeedOk(preset)));
        ScheduleSpeedBox();
      }
    }

    /**
     * `startCPT`: ignored while running; otherwise loads the stimuli, zeroes
     * the counters and steps to the first stimulus.
     */
    method StartCpt(stimuli: seq<char>, now: real)
      requires Valid()
      modifies this
      ensures Valid()
      ensures old(cpt.running) ==> cpt == old(cpt) && scores == old(scores)
      ensures !old(cpt.running) ==>
        cpt.stimuli == stimuli && cpt.hits == 0 && cpt.falseAlarms == 0 && cpt.rt == [] &&
        cpt.target == old(cpt.target) &&
        (stimuli != [] ==> cpt.running && cpt.pressArmed && cpt.stimIdx == 1 && cpt.onset == now) &&
        (stimuli == [] ==> !cpt.running && scores.cptScore == CptScore(0, 0, 0, 0))
      ensures !old(cpt.running) && stimuli != [] ==> scores == old(scores)
      ensures !old(cpt.running) && stimuli == [] ==> scores == old(scores).(cptScore := CptScore(0, 0, 0, 0))
      ensures confs == old(confs) && flex == old(flex) && speed == old(speed)
      ensures LitProbe() == old(LitProbe()) && MatProbe() == old(MatProbe())
    {
      if cpt.running {
        return;
      }
      cpt := cpt.(stimuli := stimuli, running := true, stimIdx := 0, hits := 0, falseAlarms := 0, rt := []);
      StepCpt(now);
    }

    /** `stepCPT`: finishes when stopped or out of stimuli, else shows the next one and arms a response. */
    method StepCpt(now: real)
      requires Steady() && CptCounts(cpt)
      modifies this
      ensures Valid()
      ensures cpt.hits == old(cpt.hits) && cpt.falseAlarms == old(cpt.falseAlarms)
      ensures cpt.stimuli == old(cpt.stimuli) && cpt.rt == old(cpt.rt) && cpt.target == old(cpt.target)
      ensures !old(cpt.running) || old(cpt.stimIdx) >= |old(cpt.stimuli)| ==>
        !cpt.running && cpt.stimIdx == old(cpt.stimIdx) &&
        scores == old(scores).(cptScore := CptScore(cpt.hits, cpt.falseAlarms,
          CountChar(cpt.stimuli, cpt.target), RtMean(cpt.rt)))
      ensures old(cpt.running) && old(cpt.stimIdx) < |old(cpt.stimuli)| ==>
        cpt == old(cpt).(pressArmed := true, onset := now, stimIdx := old(cpt.stimIdx) + 1) &&
        scores == old(scores)
      ensures confs == old(confs) && flex == old(flex) && speed == old(speed)
      ensures LitProbe() == old(LitProbe()) && MatProbe() == old(MatProbe())
    {
      if !cpt.running || cpt.stimIdx >= |cpt.stimuli| {
        FinishCpt();
        return;
      }
      cpt := cpt.(pressArmed := true, onset := now, stimIdx := cpt.stimIdx + 1);
    }

    /** The response window closes: a late press no longer counts. */
    method CloseResponseWindow()
      requires Valid()
      modifies this
      ensures Valid() && cpt == old(cpt).(pressArmed := false)
      ensures scores == old(scores) && confs == old(confs) && flex == old(flex) && speed == old(speed)
      ensures LitProbe() == old(LitProbe()) && MatProbe() == old(MatProbe())
    {
      cpt := cpt.(pressArmed := false);
    }

    /**
     * `registerCPTResponse`: only while running and armed; a press on the
     * target is a hit (with its reaction time), on anything else a false alarm,
     * and either way the stimulus is disarmed.
     */
    method RegisterCptResponse(now: real)
      requires Valid()
      modifies this
      ensures Valid()
      ensures !(old(cpt.running) && old(cpt.pressArmed)) ==> cpt == old(cpt)
      ensures old(cpt.running) && old(cpt.pressArmed) ==>
        var shown := old(cpt.stimuli)[old(cpt.stimIdx) - 1];
        var c := old(cpt).(pressArmed := false);
        cpt == (if shown == c.target then c.(hits := c.hits + 1, rt := c.rt + [now - c.onset])
                else c.(falseAlarms := c.falseAlarms + 1))
      ensures scores == old(scores) && confs == old(confs) && flex == old(flex) && speed == old(speed)
      ensures LitProbe() == old(LitProbe()) && MatProbe() == old(MatProbe())
    {
      if !cpt.running || !cpt.pressArmed {
        return;
      }
      var rt := now - cpt.onset;
      var cur := cpt.stimuli[cpt.stimIdx - 1];
      if cur == cpt.target {
        cpt := cpt.(hits := cpt.hits + 1, rt := cpt.rt + [rt]);
      } else {
        cpt := cpt.(falseAlarms := cpt.falseAlarms + 1);
      }
      cpt := cpt.(pressArmed := false);
    }

    /** `finishCPT`: stops the test and stores its score. */
    method FinishCpt()
      requires Steady() && CptCounts(cpt)
      modifies this
      ensures Valid() && cpt == old(cpt).(running := false)
      ensures scores == old(scores).(cptScore := CptScore(cpt.hits, cpt.falseAlarms,
        CountChar(cpt.stimuli, cpt.target), RtMean(cpt.rt)))
      ensures confs == old(confs) && flex == old(flex) && speed == old(speed)
      ensures LitProbe() == old(LitProbe()) && MatProbe() == old(MatProbe())
    {
      cpt := cpt.(running := false);
      scores := scores.(cptScore := CptScore(cpt.hits, cpt.falseAlarms, CountChar(cpt.stimuli, cpt.target), RtMean(cpt.rt)));
    }

    /** `handleLogicChange`: 10 for the preset's answer, 4 otherwise. */
    method HandleLogicChange(v: Option<int>, conf: Option<int>)
      requires Valid()
      modifies this
      ensures Valid()
      ensures scores == old(scores).(logicScore := if v == Some(LogicOf(preset).correct) then 10 else 4)
      ensures confs == old(confs).(logic := Confidence(conf))
      ensures preset == old(preset) && flex == old(flex) && speed == old(speed) && cpt == old(cpt)
      ensures LitProbe() == old(LitProbe()) && MatProbe() == old(MatProbe())
    {
      confs := confs.(logic := Confidence(conf));
      if v == Some(LogicOf(preset).correct) {
        scores := scores.(logicScore := 10);
      } else {
        scores := scores.(logicScore := 4);
      }
    }

    /** The reading probe's next button; `accepted` is false when no option was checked. */
    method LitNext(chosen: Option<int>, item: Item) returns (accepted: bool)
      requires Valid() && !scores.litAnswered
      modifies this
      ensures Valid() && accepted == chosen.Some?
      ensures LitProbe() == ProbeNext(old(LitProbe()), chosen, item)
      ensures scores == old(scores).(litScore := LitProbe().score, litAnswered := LitProbe().answered)
      ensures MatProbe() == old(MatProbe()) && confs == old(confs)
      ensures flex == old(flex) && speed == old(speed) && cpt == old(cpt)
    {
      if chosen.None? {
        return false;
      }
      var p := ProbeNext(LitProbe(), chosen, item);
      litLevel, litIndex := p.level, p.index;
      scores := scores.(litScore := p.score, litAnswered := p.answered);
      return true;
    }

    /** The maths probe's next button; `accepted` is false when no option was checked. */
    method MatNext(chosen: Option<int>, item: Item) returns (accepted: bool)
      requires Valid() && !scores.matAnswered
      modifies this
      ensures Valid() && accepted == chosen.Some?
      ensures MatProbe() == ProbeNext(old(MatProbe()), chosen, item)
      ensures scores == old(scores).(matScore := MatProbe().score, matAnswered := MatProbe().answered)
      ensures LitProbe() == old(LitProbe()) && confs == old(confs)
      ensures flex == old(flex) && speed == old(speed) && cpt == old(cpt)
    {
      if chosen.None? {
        return false;
      }
      var p := ProbeNext(MatProbe(), chosen, item);
      matLevel, matIndex := p.level, p.index;
      scores := scores.(matScore := p.score, matAnswered := p.answered);
      return true;
    }

    /** `generateDiagnosis`: the diagnosis of the current state, or nothing when incomplete. */
    method GenerateDiagnosis(f: SocioForm) returns (d: Option<Diagnosis>)
      requires Valid()
      ensures d == Diagnose(preset, f, scores, confs)
      ensures d.Some? <==> Complete(f, scores)
    {
      d := Diagnose(preset, f, scores, confs);
    }
  }
}
