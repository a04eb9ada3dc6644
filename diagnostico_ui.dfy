/**
 * UI helpers of the student diagnostic: clamping, the progress bar count, the
 * feedback box and the radio-option selection behaviour.
 */
module DiagnosticoUi {
  import opened Wrappers
  import opened Js

  /** `clamp(n, min, max) = Math.max(min, Math.min(max, n))`. */
  function Clamp(n: int, lo: int, hi: int): (r: int)
    ensures lo <= hi ==> lo <= r <= hi
    ensures lo <= n <= hi ==> r == n
    ensures n < lo ==> r == lo
    ensures lo <= hi && hi < n ==> r == hi
  {
    Max(lo, Min(hi, n))
  }

  /** The `scores` object of the diagnostic, as `updateProgress` reads it. */
  datatype ScoreCard = ScoreCard(
    memScore: int, flexScore: int, speedScore: int, logicScore: int, cptScore: int,
    litScore: int, matScore: int, litAnswered: bool, matAnswered: bool)

  const ProgressTotal: nat := 15

  /** The five socio-emotional radio groups, in the order the progress count visits them. */
  const SocioGroups: seq<string> := ["motivation", "mindset", "anxiety", "efficacy", "persistence"]

  function Flag(b: bool): nat { if b then 1 else 0 }

  /** The checked radios of the socio-emotional form, one count per group of `SocioGroups`. */
  function SocioCount(checkedPerGroup: seq<nat>): nat
    requires |checkedPerGroup| == |SocioGroups|
  {
    checkedPerGroup[0] + checkedPerGroup[1] + checkedPerGroup[2] + checkedPerGroup[3] + checkedPerGroup[4]
  }

  /** One step per cognitive test with a positive score. */
  function CognitiveSteps(card: ScoreCard): nat
  {
    Flag(card.memScore > 0) + Flag(card.flexScore > 0) + Flag(card.speedScore > 0) +
    Flag(card.logicScore > 0) + Flag(card.cptScore > 0)
  }

  /**
   * The answered count `updateProgress` computes: one per positive cognitive
   * score, one per answered probe and the number of checked radios per group.
   */
  function AnsweredSteps(card: ScoreCard, checkedPerGroup: seq<nat>): nat
    requires |checkedPerGroup| == |SocioGroups|
  {
    CognitiveSteps(card) + Flag(card.litAnswered) + Flag(card.matAnswered) + SocioCount(checkedPerGroup)
  }

  /**
   * `Math.min(100, Math.round(answered / 15 * 100))`. The quotient is a whole
   * number of thirds, never a half, so rounding it is exact and the integer
   * form below is that value.
   */
  function ProgressPercent(answered: nat): (pct: int)
    ensures 0 <= pct <= 100
    ensures pct == Min(100, Round(answered as real / ProgressTotal as real * 100.0))
  {
    var q := (40 * answered + 3) / 6;
    RoundUnique(answered as real / ProgressTotal as real * 100.0, q);
    Min(100, q)
  }

  /**
   * `updateProgress`: counts the answered steps one by one and returns the
   * width of the progress bar in percent. `checkedPerGroup[g]` is how many
   * radios of socio group `g` are checked.
   */
  method UpdateProgress(card: ScoreCard, checkedPerGroup: seq<nat>) returns (pct: int)
    requires |checkedPerGroup| == |SocioGroups|
    ensures pct == ProgressPercent(AnsweredSteps(card, checkedPerGroup))
  {
    var answered := 0;
    if card.memScore > 0 { answered := answered + 1; }
    if card.flexScore > 0 { answered := answered + 1; }
    if card.speedScore > 0 { answered := answered + 1; }
    if card.logicScore > 0 { answered := answered + 1; }
    if card.cptScore > 0 { answered := answered + 1; }
    assert answered == CognitiveSteps(card);
    if card.litAnswered { answered := answered + 1; }
    if card.matAnswered { answered := answered + 1; }
    answered := answered + checkedPerGroup[0];
    answered := answered + checkedPerGroup[1];
    answered := answered + checkedPerGroup[2];
    answered := answered + checkedPerGroup[3];
    answered := answered + checkedPerGroup[4];
    assert answered == AnsweredSteps(card, checkedPerGroup);
    pct := ProgressPercent(answered);
  }

  /**
   * The bar never passes 100%, and since a radio group has at most one checked
   * radio the count stops at 12 of the nominal 15: the bar tops out at 80%.
   */
  lemma {:induction false} ProgressTopsOutAt80(card: ScoreCard, checkedPerGroup: seq<nat>)
    requires |checkedPerGroup| == |SocioGroups|
    requires forall i :: 0 <= i < |checkedPerGroup| ==> checkedPerGroup[i] <= 1
    ensures AnsweredSteps(card, checkedPerGroup) <= 12
    ensures ProgressPercent(AnsweredSteps(card, checkedPerGroup)) <= 80
  {
    var a := AnsweredSteps(card, checkedPerGroup);
    assert a as real / 15.0 * 100.0 <= 80.0;
    RoundMonotone(a as real / 15.0 * 100.0, 80.0);
  }

  /** A cognitive score counts towards progress only when positive, a probe only when answered. */
  lemma ProgressCountsOnlyAnswered(card: ScoreCard, checkedPerGroup: seq<nat>)
    requires |checkedPerGroup| == |SocioGroups|
    requires card.memScore <= 0 && card.flexScore <= 0 && card.speedScore <= 0
    requires card.logicScore <= 0 && card.cptScore <= 0
    requires !card.litAnswered && !card.matAnswered
    ensures AnsweredSteps(card, checkedPerGroup) == SocioCount(checkedPerGroup)
  {
  }

  /** A `label.option`: the name of the radio input inside it (if any), its class and the radio state. */
  datatype OptionLabel = OptionLabel(radioName: Option<string>, selected: bool, checked: bool)

  /** A feedback element: its text and its class list. */
  datatype Feedback = Feedback(text: string, classes: set<string>)

  /** The parts of the page these helpers touch. */
  class Page {
    var labels: seq<OptionLabel>
    var feedbacks: map<string, Feedback>

    constructor (labels0: seq<OptionLabel>, feedbacks0: map<string, Feedback>)
      ensures labels == labels0 && feedbacks == feedbacks0
    {
      labels := labels0;
      feedbacks := feedbacks0;
    }

    /**
     * `showFeedback(id, message, type)`: a missing element is left alone;
     * otherwise its text is the message, its class is `feedback <type>` and it
     * is not hidden.
     */
    method ShowFeedback(id: string, message: string, kind: string)
      modifies this
      ensures labels == old(labels)
      ensures id !in old(feedbacks) ==> feedbacks == old(feedbacks)
      ensures id in old(feedbacks) ==>
        feedbacks == old(feedbacks)[id := Feedback(message, ({"feedback", kind} - {""}) - {"hidden"})]
      ensures id in feedbacks ==> "hidden" !in feedbacks[id].classes
    {
      if id !in feedbacks {
        return;
      }
      feedbacks := feedbacks[id := Feedback(message, ({"feedback", kind} - {""}) - {"hidden"})];
    }

    /**
     * The click handler `attachOptionUX` installs on label `i`: without a radio
     * nothing happens; otherwise every label whose radio shares the name loses
     * "selected", this label gains it, and its radio becomes the checked one of
     * the group (the browser unchecks the others).
     */
    method ClickOption(i: nat)
      requires i < |labels|
      modifies this
      ensures feedbacks == old(feedbacks)
      ensures |labels| == |old(labels)|
      ensures old(labels[i].radioName).None? ==> labels == old(labels)
      ensures old(labels[i].radioName).Some? ==>
        forall j :: 0 <= j < |labels| ==>
          labels[j].radioName == old(labels[j].radioName) &&
          if labels[j].radioName == old(labels[i].radioName) then
            labels[j].selected == (j == i) && labels[j].checked == (j == i)
          else
            labels[j] == old(labels[j])
    {
      var name := labels[i].radioName;
      if name.None? {
        return;
      }
      var k := 0;
      while k < |labels|
        invariant 0 <= k <= |labels| && |labels| == |old(labels)|
        invariant feedbacks == old(feedbacks)
        invariant forall j :: 0 <= j < k ==>
          labels[j] == if old(labels[j].radioName) == name
                       then OptionLabel(name, false, false) else old(labels[j])
        invariant forall j :: k <= j < |labels| ==> labels[j] == old(labels[j])
      {
        if labels[k].radioName == name {
          labels := labels[k := OptionLabel(name, false, false)];
        }
        k := k + 1;
      }
      labels := labels[i := OptionLabel(name, true, true)];
    }
  }
}
