/**
 * The constant tables of the student diagnostic: one preset per school stage
 * (memory sequence, flexibility changes, speed bands, logic item, CPT settings
 * and the reading/maths item banks) and the norm cut tables used to classify
 * scores.
 */
module DiagnosticoData {

  datatype PresetId = Efi | Efii | Em | Grad

  /** A multiple-choice probe item: `ans` is the index of the right option. */
  datatype Item = Item(stem: string, opts: seq<string>, ans: int)

  datatype Bank = Bank(a: seq<Item>, b: seq<Item>, c: seq<Item>)

  datatype Logic = Logic(sequence: string, options: seq<int>, correct: int)

  datatype Cpt = Cpt(targets: seq<char>, n: nat, isiLow: int, isiHigh: int)

  datatype Preset = Preset(
    title: string,
    memSeq: seq<int>,
    flexChanges: nat,
    speedGood: int,
    speedOk: int,
    logic: Logic,
    cpt: Cpt,
    lit: Bank,
    mat: Bank)

  /** A norm: the two cut points of a scale and its maximum. */
  datatype Norm = Norm(c1: int, c2: int, max: int)

  datatype Norms = Norms(cognitive: Norm, reading: Norm, math: Norm)

  function Presets(id: PresetId): Preset
  {
    Preset(Title(id), MemSeq(id), FlexChanges(id), SpeedGood(id), SpeedOk(id),
      LogicOf(id), CptOf(id), LitBank(id), MatBank(id))
  }

  function Title(id: PresetId): string
  {
    match id
    case Efi => "EF I (1ª—4ª)"
    case Efii => "EF II (5ª—8ª)"
    case Em => "EM (1º—3º)"
    case Grad => "Graduação"
  }

  function MemSeq(id: PresetId): seq<int>
  {
    match id
    case Efi => [3, 6, 2, 1]
    case Efii => [7, 3, 9, 1, 5, 8]
    case Em => [9, 4, 7, 2, 6, 3, 8]
    case Grad => [12, 7, 9, 4, 6, 10, 3, 8]
  }

  function FlexChanges(id: PresetId): nat
  {
    match id
    case Efi => 1
    case Efii => 2
    case Em => 2
    case Grad => 3
  }

  /** `speedBands[0]`: below it a reaction scores 10. */
  function SpeedGood(id: PresetId): int
  {
    match id
    case Efi => 700
    case Efii => 500
    case Em => 400
    case Grad => 350
  }

  /** `speedBands[1]`: below it (and not below the first band) a reaction scores 8. */
  function SpeedOk(id: PresetId): int
  {
    match id
    case Efi => 1200
    case Efii => 900
    case Em => 800
    case Grad => 700
  }

  function LogicOf(id: PresetId): Logic
  {
    match id
    case Efi => Logic("1 — 2 — 4 — 8 — ?", [12, 10, 16, 6], 16)
    case Efii => Logic("2 — 5 — 11 — 23 — ?", [35, 47, 29, 31], 47)
    case Em => Logic("3 — 9 — 27 — ? — 243", [54, 72, 81, 108], 81)
    case Grad => Logic("4 — 7 — 13 — 25 — ?", [43, 49, 37, 53], 49)
  }

  function CptOf(id: PresetId): Cpt
  {
    match id
    case Efi => Cpt(['X'], 40, 600, 900)
    case Efii => Cpt(['X'], 50, 500, 800)
    case Em => Cpt(['X'], 60, 450, 700)
    case Grad => Cpt(['X'], 70, 400, 650)
  }

  function LitBank(id: PresetId): Bank
  {
    match id
    case Efi => LitEfi()
    case Efii => LitEfii()
    case Em => LitEm()
    case Grad => LitGrad()
  }

  function LitEfi(): Bank
  {
    Bank([LitEfiA1, LitEfiA2], [LitEfiB1, LitEfiB2], [LitEfiC1, LitEfiC2])
  }

  function LitEfii(): Bank
  {
    Bank([LitEfiiA1], [LitEfiiB1], [LitEfiiC1])
  }

  function LitEm(): Bank
  {
    Bank([LitEmA1], [LitEmB1], [LitEmC1])
  }

  function LitGrad(): Bank
  {
    Bank([LitGradA1], [LitGradB1], [LitGradC1])
  }

  function MatBank(id: PresetId): Bank
  {
    match id
    case Efi => MatEfi()
    case Efii => MatEfii()
    case Em => MatEm()
    case Grad => MatGrad()
  }

  function MatEfi(): Bank
  {
    Bank([MatEfiA1, MatEfiA2], [MatEfiB1, MatEfiB2], [MatEfiC1, MatEfiC2])
  }

  function MatEfii(): Bank
  {
    Bank([MatEfiiA1], [MatEfiiB1], [MatEfiiC1])
  }

  function MatEm(): Bank
  {
    Bank([MatEmA1], [MatEmB1], [MatEmC1])
  }

  function MatGrad(): Bank
  {
    Bank([MatGradA1], [MatGradB1], [MatGradC1])
  }

  // The items of the reading (Lit) and maths (Mat) banks, by preset, level (A, B, C) and position.
  const LitEfiA1: Item := Item("O gato subiu no telhado. Título mais apropriado:", ["Animais em perigo", "O gato curioso", "Tempestade", "Cachorro perdido"], 1)
  const LitEfiA2: Item := Item("Pedro viu arco-íris após chuva. O que inferir?", ["Era noite", "Parou de chover", "Fez frio", "Era inverno"], 1)
  const LitEfiB1: Item := Item("\"Ana abriu livro e sorriu\". O que explica?", ["Ficou triste", "Gostou do que leu", "Estava cansada", "Perdeu livro"], 1)
  const LitEfiB2: Item := Item("\"Rio serpenteia\". Serpenteia significa:", ["Corre em curvas", "Corre reto", "Para de correr", "Sobe montanha"], 0)
  const LitEfiC1: Item := Item("Objetivo de legenda:", ["Narrar", "Explicar brevemente", "Convencer", "Contar piada"], 1)
  const LitEfiC2: Item := Item("Ideia principal de parágrafo:", ["Sempre 1ª linha", "Pode estar em qualquer parte", "Sempre última", "Só no título"], 1)
  const LitEfiiA1: Item := Item("\"Clima ameno\" significa:", ["Chuvoso", "Agradável", "Frio", "Tempestuoso"], 1)
  const LitEfiiB1: Item := Item("Reportagem foca:", ["Opinião", "Relatar fatos", "Ficção", "Poesia"], 1)
  const LitEfiiC1: Item := Item("Ideia principal parágrafo:", ["Sempre 1ª", "Qualquer parte", "Sempre última", "Só título"], 1)
  const LitEmA1: Item := Item("Em texto científico, \"hipótese\":", ["Opinião", "Suposição testável", "Conclusão", "Resumo"], 1)
  const LitEmB1: Item := Item("Editorial busca:", ["Entreter", "Instruir", "Opinar/influenciar", "Relatar neutro"], 2)
  const LitEmC1: Item := Item("Falácia é:", ["Argumento válido", "Erro raciocínio", "Resumo", "Hipótese"], 1)
  const LitGradA1: Item := Item("Revisão, \"lacuna\":", ["Resumo", "Falta estudos", "Erro método", "Conclusão fraca"], 1)
  const LitGradB1: Item := Item("Argumento dedutivo validade:", ["Verdade premissas", "Forma lógica", "Amostra", "Autoridade"], 1)
  const LitGradC1: Item := Item("Viés confirmação:", ["Buscar contrários", "Buscar que confirmam", "Erro aleatório", "Falha medição"], 1)
  const MatEfiA1: Item := Item("7 + 5 =", ["11", "12", "13", "14"], 1)
  const MatEfiA2: Item := Item("9 − 4 =", ["3", "4", "5", "6"], 2)
  const MatEfiB1: Item := Item("Metade de 18 =", ["9", "8", "6", "12"], 0)
  const MatEfiB2: Item := Item("2 × 7 =", ["12", "13", "14", "15"], 2)
  const MatEfiC1: Item := Item("Perímetro retângulo 3×5:", ["8", "15", "16", "10"], 2)
  const MatEfiC2: Item := Item("12 balas para 3 crianças, cada um recebe:", ["3", "4", "6", "12"], 1)
  const MatEfiiA1: Item := Item("3/4 de 20 =", ["5", "10", "15", "12"], 2)
  const MatEfiiB1: Item := Item("2x+6=18, x=", ["3", "6", "9", "12"], 1)
  const MatEfiiC1: Item := Item("y=2x+1, x=3, y=", ["5", "6", "7", "8"], 2)
  const MatEmA1: Item := Item("f(x)=2x+1 é:", ["Quadrática", "Linear", "Exponencial", "Constante"], 1)
  const MatEmB1: Item := Item("Derivada x²=", ["2x", "x", "x³", "2"], 0)
  const MatEmC1: Item := Item("Exponencial cresce quando a>", ["0", "1", "-1", "-2"], 1)
  const MatGradA1: Item := Item("P(A)=0,3 P(B)=0,5 indep → P(A∩B)=", ["0,15", "0,2", "0,8", "0,3"], 0)
  const MatGradB1: Item := Item("∫2x dx=", ["x²+C", "2x²+C", "x+C", "x²/2+C"], 0)
  const MatGradC1: Item := Item("Teste t compara", ["Médias", "Variâncias", "Medianas", "Proporções"], 0)

  function NormsOf(id: PresetId): Norms
  {
    var probe := Norm(1, 2, 3);
    match id
    case Efi => Norms(Norm(20, 36, 50), probe, probe)
    case Efii => Norms(Norm(22, 37, 50), probe, probe)
    case Em => Norms(Norm(24, 38, 50), probe, probe)
    case Grad => Norms(Norm(26, 40, 50), probe, probe)
  }

  /** Cut points that split 0..max into three non-empty bands. */
  predicate WellFormedNorm(n: Norm)
  {
    0 <= n.c1 < n.c2 < n.max
  }

  predicate ValidItem(it: Item)
  {
    0 <= it.ans < |it.opts|
  }

  predicate ValidBank(b: Bank)
  {
    b.a != [] && b.b != [] && b.c != [] &&
    (forall i :: 0 <= i < |b.a| ==> ValidItem(b.a[i])) &&
    (forall i :: 0 <= i < |b.b| ==> ValidItem(b.b[i])) &&
    (forall i :: 0 <= i < |b.c| ==> ValidItem(b.c[i]))
  }

  predicate WellFormedPreset(p: Preset)
  {
    p.speedGood < p.speedOk &&
    p.logic.correct in p.logic.options &&
    p.cpt.targets != [] && p.cpt.isiLow < p.cpt.isiHigh &&
    ValidBank(p.lit) && ValidBank(p.mat)
  }

  /** Every shipped norm table has c1 < c2 < max, so classification's three bands are non-empty. */
  lemma NormsWellFormed(id: PresetId)
    ensures WellFormedNorm(NormsOf(id).cognitive)
    ensures WellFormedNorm(NormsOf(id).reading)
    ensures WellFormedNorm(NormsOf(id).math)
  {
  }

  /**
   * Every shipped preset is well formed: increasing speed bands, the logic answer
   * among its options, a CPT target and an ordered ISI range, and non-empty item
   * banks at every level whose answer keys index into their options.
   */
  lemma {:induction false} PresetsWellFormed(id: PresetId)
    ensures WellFormedPreset(Presets(id))
  {
    CptTargetsNonEmpty(id);
    BanksValid(id);
  }

  lemma CptTargetsNonEmpty(id: PresetId)
    ensures CptOf(id).targets != [] && CptOf(id).isiLow < CptOf(id).isiHigh
  {
  }

  lemma {:induction false} BanksValid(id: PresetId)
    ensures ValidBank(LitBank(id)) && ValidBank(MatBank(id))
  {
    LitBankValid(id);
    MatBankValid(id);
  }

  lemma {:induction false} LitBankValid(id: PresetId)
    ensures ValidBank(LitBank(id))
  {
    BankChecked(LitBank(id));
  }

  lemma {:induction false} MatBankValid(id: PresetId)
    ensures ValidBank(MatBank(id))
  {
    BankChecked(MatBank(id));
  }

  /** A bank whose levels pass the item-by-item check is valid. */
  lemma {:induction false} BankChecked(b: Bank)
    requires b.a != [] && b.b != [] && b.c != []
    requires AllValidTo(b.a, |b.a|) && AllValidTo(b.b, |b.b|) && AllValidTo(b.c, |b.c|)
    ensures ValidBank(b)
  {
    AllValidMeansValid(b.a, |b.a|);
    AllValidMeansValid(b.b, |b.b|);
    AllValidMeansValid(b.c, |b.c|);
  }

  /** Every one of the first `n` items is valid (checked item by item). */
  predicate AllValidTo(items: seq<Item>, n: nat)
    requires n <= |items|
  {
    n == 0 || (ValidItem(items[n - 1]) && AllValidTo(items, n - 1))
  }

  lemma {:induction false} AllValidMeansValid(items: seq<Item>, n: nat)
    requires n <= |items| && AllValidTo(items, n)
    ensures forall i :: 0 <= i < n ==> ValidItem(items[i])
  {
    if n > 0 {
      AllValidMeansValid(items, n - 1);
    }
  }
}
