/** The pipeline configuration view (src/components/PipelineControl.tsx): four
    fixed analysis steps, a selection map over them that starts all-enabled,
    the number of enabled steps, their total estimated time and the minutes
    shown, and the rule that disables the Start button. */
module PipelineControl {
  import opened Types
  import Strings

  datatype StepId = Embeddings | Clustering | Classification | Regression

  /** A step card: its id, its title and its estimated time as displayed. */
  datatype StepInfo = StepInfo(id: StepId, title: string, estimatedTime: string)

  const EmbeddingsStep := StepInfo(Embeddings, "Generate Ecological Embeddings", "45s")
  const ClusteringStep := StepInfo(Clustering, "Ecological Clustering", "30s")
  const ClassificationStep := StepInfo(Classification, "Status Classification", "60s")
  const RegressionStep := StepInfo(Regression, "Biodiversity Regression", "50s")

  const Steps: seq<StepInfo> := [EmbeddingsStep, ClusteringStep, ClassificationStep, RegressionStep]

  /** The seconds each step is estimated to take. */
  function Seconds(id: StepId): nat {
    match id
    case Embeddings => 45
    case Clustering => 30
    case Classification => 60
    case Regression => 50
  }

  /** The keys of the selection object, in the order `Object.values` visits them. */
  const StepIds: seq<StepId> := [Embeddings, Clustering, Classification, Regression]

  // ---------------------------------------------------------------- parseInt

  predicate IsDigit(c: char) { '0' <= c <= '9' }

  function DigitValue(c: char): (d: nat)
    requires IsDigit(c)
    ensures d < 10
  {
    (c as int - '0' as int)
  }

  /** The longest prefix of `s` made of decimal digits. */
  function LeadingDigits(s: string): (ds: string)
    ensures |ds| <= |s| && ds == s[..|ds|]
    ensures forall i :: 0 <= i < |ds| ==> IsDigit(ds[i])
    ensures |ds| == |s| || !IsDigit(s[|ds|])
  {
    if s != [] && IsDigit(s[0]) then [s[0]] + LeadingDigits(s[1..]) else []
  }

  /** The number a string of decimal digits denotes. */
  function DecimalValue(ds: string): nat
    requires forall i :: 0 <= i < |ds| ==> IsDigit(ds[i])
  {
    if ds == [] then 0 else 10 * DecimalValue(ds[..|ds| - 1]) + DigitValue(ds[|ds| - 1])
  }

  /** The length of the whitespace run that starts `s`. */
  function SpaceLength(s: string): (k: nat)
    ensures k <= |s| && Strings.AllWhitespace(s[..k])
    ensures k == |s| || !Strings.IsWhitespace(s[k])
  {
    if s != [] && Strings.IsWhitespace(s[0]) then
      var k := 1 + SpaceLength(s[1..]);
      assert s[..k] == [s[0]] + s[1..][..k - 1];
      k
    else 0
  }

  /** `parseInt(s)` for unsigned decimal text: leading whitespace is skipped,
      then the digits up to the first non-digit are read; no digit at all is
      NaN, written `None`. */
  function ParseInt(s: string): Option<nat> {
    if s != [] && Strings.IsWhitespace(s[0]) then ParseInt(s[1..])
    else
      var ds := LeadingDigits(s);
      if ds == [] then None else Some(DecimalValue(ds))
  }

  /** `parseInt` gives a number exactly when a digit follows the leading
      whitespace, and the number is the value of the digits found there. */
  lemma {:induction false} ParseIntReads(s: string)
    ensures var k := SpaceLength(s); ParseInt(s).Some? <==> k < |s| && IsDigit(s[k])
    ensures ParseInt(s).Some? ==> ParseInt(s).value == DecimalValue(LeadingDigits(s[SpaceLength(s)..]))
  {
    if s != [] && Strings.IsWhitespace(s[0]) {
      ParseIntReads(s[1..]);
      assert s[SpaceLength(s)..] == s[1..][SpaceLength(s[1..])..];
    }
  }

  /** The decimal representation of `n`, without leading zeros. */
  function Decimal(n: nat): (s: string)
    ensures |s| >= 1 && forall i :: 0 <= i < |s| ==> IsDigit(s[i])
  {
    var last := ['0' + (n % 10) as char];
    if n < 10 then last else Decimal(n / 10) + last
  }

  lemma {:induction false} DecimalValueOfDecimal(n: nat)
    ensures DecimalValue(Decimal(n)) == n
  {
    if n >= 10 {
      DecimalValueOfDecimal(n / 10);
      var s := Decimal(n);
      assert s[..|s| - 1] == Decimal(n / 10);
    }
  }

  lemma {:induction false} LeadingDigitsPrefix(ds: string, suffix: string)
    requires forall i :: 0 <= i < |ds| ==> IsDigit(ds[i])
    requires suffix == [] || !IsDigit(suffix[0])
    ensures LeadingDigits(ds + suffix) == ds
  {
    if ds != [] {
      LeadingDigitsPrefix(ds[1..], suffix);
      assert (ds + suffix)[1..] == ds[1..] + suffix;
      assert [ds[0]] + ds[1..] == ds;
    } else {
      assert ds + suffix == suffix;
    }
  }

  /** `parseInt` reads back a number written in decimal followed by any text
      that does not start with a digit, such as the unit of "45s". */
  lemma ParseIntDecimal(n: nat, suffix: string)
    requires suffix == [] || !IsDigit(suffix[0])
    ensures ParseInt(Decimal(n) + suffix) == Some(n)
  {
    var s := Decimal(n) + suffix;
    assert !Strings.IsWhitespace(s[0]);
    LeadingDigitsPrefix(Decimal(n), suffix);
    DecimalValueOfDecimal(n);
  }

  /** The estimated time of each step reads as its number of seconds. */
  lemma StepSeconds(step: StepInfo)
    requires step in Steps
    ensures ParseInt(step.estimatedTime) == Some(Seconds(step.id))
  {
    var n := Seconds(step.id);
    if step == EmbeddingsStep {
      TwoDigitDecimal(45);
    } else if step == ClusteringStep {
      TwoDigitDecimal(30);
    } else if step == ClassificationStep {
      TwoDigitDecimal(60);
    } else {
      TwoDigitDecimal(50);
    }
    EstimateSeconds(step.estimatedTime, n);
  }

  lemma TwoDigitDecimal(n: nat)
    requires 10 <= n < 100
    ensures Decimal(n) == ['0' + (n / 10) as char, '0' + (n % 10) as char]
  {
  }

  lemma EstimateSeconds(estimate: string, seconds: nat)
    requires 10 <= seconds < 100 && estimate == Decimal(seconds) + "s"
    ensures ParseInt(estimate) == Some(seconds)
  {
    ParseIntDecimal(seconds, "s");
  }

  /** Every step id is one of the four keys. */
  lemma StepIdCases(id: StepId)
    ensures id == StepIds[0] || id == StepIds[1] || id == StepIds[2] || id == StepIds[3]
  {
    match id
    case Embeddings =>
    case Clustering =>
    case Classification =>
    case Regression =>
  }

  // ---------------------------------------------------------------- selection

  /** A selection has an entry for every step. */
  predicate Complete(selected: map<StepId, bool>) {
    forall id: StepId :: id in selected
  }

  /** Whether the step is enabled; a missing entry reads as `undefined`, falsy. */
  predicate IsOn(selected: map<StepId, bool>, id: StepId) {
    id in selected && selected[id]
  }

  /** The initial selection: every step enabled. */
  const AllSelected: map<StepId, bool> :=
    map[Embeddings := true, Clustering := true, Classification := true, Regression := true]

  lemma AllSelectedOn()
    ensures Complete(AllSelected)
    ensures forall id :: IsOn(AllSelected, id)
  {
    forall id: StepId ensures id in AllSelected && AllSelected[id] {
      StepIdCases(id);
    }
  }

  /** `{...prev, [stepId]: !prev[stepId]}`: flips exactly the named step and
      keeps every other entry as it was. */
  function Toggled(selected: map<StepId, bool>, id: StepId): (toggled: map<StepId, bool>)
    ensures IsOn(toggled, id) == !IsOn(selected, id)
    ensures forall other :: other != id ==> IsOn(toggled, other) == IsOn(selected, other)
    ensures Complete(selected) ==> Complete(toggled)
  {
    selected[id := !IsOn(selected, id)]
  }

  /** Toggling the same step twice restores a complete selection. */
  lemma ToggledTwice(selected: map<StepId, bool>, id: StepId)
    requires Complete(selected)
    ensures Toggled(Toggled(selected, id), id) == selected
  {
  }

  /** `Object.values(selectedSteps).filter(Boolean).length`, over the given keys. */
  function CountOn(ids: seq<StepId>, selected: map<StepId, bool>): (n: nat)
    ensures n <= |ids|
  {
    if ids == [] then 0 else (if IsOn(selected, ids[0]) then 1 else 0) + CountOn(ids[1..], selected)
  }

  function SelectedCount(selected: map<StepId, bool>): (n: nat)
    ensures 0 <= n <= 4
  {
    CountOn(StepIds, selected)
  }

  /** Toggling a step that occurs once among the keys changes the count by one:
      down if it was on, up if it was off. */
  lemma {:induction false} CountOnToggled(ids: seq<StepId>, selected: map<StepId, bool>, id: StepId)
    requires forall i, j :: 0 <= i < j < |ids| ==> ids[i] != ids[j]
    ensures id in ids && IsOn(selected, id) ==> CountOn(ids, Toggled(selected, id)) == CountOn(ids, selected) - 1
    ensures id in ids && !IsOn(selected, id) ==> CountOn(ids, Toggled(selected, id)) == CountOn(ids, selected) + 1
    ensures id !in ids ==> CountOn(ids, Toggled(selected, id)) == CountOn(ids, selected)
  {
    if ids != [] {
      CountOnToggled(ids[1..], selected, id);
      assert ids[0] == id ==> id !in ids[1..];
      assert ids[0] != id ==> (id in ids <==> id in ids[1..]);
    }
  }

  lemma SelectedCountToggled(selected: map<StepId, bool>, id: StepId)
    ensures IsOn(selected, id) ==> SelectedCount(Toggled(selected, id)) == SelectedCount(selected) - 1
    ensures !IsOn(selected, id) ==> SelectedCount(Toggled(selected, id)) == SelectedCount(selected) + 1
  {
    StepIdCases(id);
    CountOnToggled(StepIds, selected, id);
  }

  // ---------------------------------------------------------------- time

  /** `steps.filter(step => selectedSteps[step.id])`. */
  function EnabledSteps(steps: seq<StepInfo>, selected: map<StepId, bool>): (r: seq<StepInfo>)
    ensures |r| <= |steps|
  {
    if steps == [] then []
    else (if IsOn(selected, steps[0].id) then [steps[0]] else []) + EnabledSteps(steps[1..], selected)
  }

  /** `reduce((acc, step) => acc + parseInt(step.estimatedTime), 0)`: NaN, written
      `None`, as soon as one estimate does not parse. */
  function SumSeconds(steps: seq<StepInfo>): Option<nat> {
    if steps == [] then Some(0)
    else
      var rest := SumSeconds(steps[1..]);
      var here := ParseInt(steps[0].estimatedTime);
      if here.None? || rest.None? then None else Some(here.value + rest.value)
  }

  /** The total estimated time of the enabled steps. */
  function TotalTime(selected: map<StepId, bool>): (total: Option<nat>)
    ensures total == Some(WeightedSeconds(Steps, selected))
  {
    StepsEstimatesRead();
    TotalOfEnabled(Steps, selected);
    SumSeconds(EnabledSteps(Steps, selected))
  }

  function Weight(on: bool, amount: nat): nat { if on then amount else 0 }

  /** Every estimate among `steps` reads as the seconds of its step. */
  predicate EstimatesRead(steps: seq<StepInfo>) {
    forall i :: 0 <= i < |steps| ==> ParseInt(steps[i].estimatedTime) == Some(Seconds(steps[i].id))
  }

  /** The seconds of the enabled steps among `steps`, added step by step. */
  function WeightedSeconds(steps: seq<StepInfo>, selected: map<StepId, bool>): nat {
    if steps == [] then 0
    else Weight(IsOn(selected, steps[0].id), Seconds(steps[0].id)) + WeightedSeconds(steps[1..], selected)
  }

  lemma EstimatesReadTail(steps: seq<StepInfo>)
    requires steps != [] && EstimatesRead(steps)
    ensures EstimatesRead(steps[1..])
  {
    forall i | 0 <= i < |steps| - 1
      ensures ParseInt(steps[1..][i].estimatedTime) == Some(Seconds(steps[1..][i].id))
    {
      assert steps[1..][i] == steps[i + 1];
    }
  }

  /** When every estimate reads as its seconds, filtering then summing is the
      weighted sum: each enabled step contributes its seconds, each disabled
      step nothing. */
  lemma {:induction false} TotalOfEnabled(steps: seq<StepInfo>, selected: map<StepId, bool>)
    requires EstimatesRead(steps)
    ensures SumSeconds(EnabledSteps(steps, selected)) == Some(WeightedSeconds(steps, selected))
  {
    if steps != [] {
      EstimatesReadTail(steps);
      TotalOfEnabled(steps[1..], selected);
      var rest := EnabledSteps(steps[1..], selected);
      if IsOn(selected, steps[0].id) {
        assert EnabledSteps(steps, selected) == [steps[0]] + rest;
        SumSecondsCons(steps[0], rest, Seconds(steps[0].id), WeightedSeconds(steps[1..], selected));
      } else {
        assert EnabledSteps(steps, selected) == rest;
      }
    }
  }

  /** Adding a step whose estimate reads adds its seconds to a sum that is a number. */
  lemma SumSecondsCons(step: StepInfo, rest: seq<StepInfo>, here: nat, total: nat)
    requires ParseInt(step.estimatedTime) == Some(here) && SumSeconds(rest) == Some(total)
    ensures SumSeconds([step] + rest) == Some(here + total)
  {
    var steps := [step] + rest;
    assert steps[0] == step && steps[1..] == rest;
    assert ParseInt(steps[0].estimatedTime) == Some(here);
    assert SumSeconds(steps[1..]) == Some(total);
  }

  lemma StepsEstimatesRead()
    ensures EstimatesRead(Steps)
  {
    forall i | 0 <= i < |Steps| ensures ParseInt(Steps[i].estimatedTime) == Some(Seconds(Steps[i].id)) {
      StepSeconds(Steps[i]);
    }
  }

  lemma WeightedSecondsOfSteps(selected: map<StepId, bool>)
    ensures WeightedSeconds(Steps, selected) == Weight(IsOn(selected, Embeddings), 45)
                                                + Weight(IsOn(selected, Clustering), 30)
                                                + Weight(IsOn(selected, Classification), 60)
                                                + Weight(IsOn(selected, Regression), 50)
  {
    assert Steps[3..][1..] == [];
    assert WeightedSeconds(Steps[3..], selected) == Weight(IsOn(selected, Regression), 50);
    assert Steps[2..][1..] == Steps[3..];
    assert WeightedSeconds(Steps[2..], selected)
        == Weight(IsOn(selected, Classification), 60) + WeightedSeconds(Steps[3..], selected);
    assert Steps[1..][1..] == Steps[2..];
    assert WeightedSeconds(Steps[1..], selected)
        == Weight(IsOn(selected, Clustering), 30) + WeightedSeconds(Steps[2..], selected);
  }

  /** The total is never NaN: 45, 30, 60 and 50 seconds for the enabled steps. */
  lemma TotalTimeFormula(selected: map<StepId, bool>)
    ensures TotalTime(selected) == Some(Weight(IsOn(selected, Embeddings), 45)
                                        + Weight(IsOn(selected, Clustering), 30)
                                        + Weight(IsOn(selected, Classification), 60)
                                        + Weight(IsOn(selected, Regression), 50))
  {
    WeightedSecondsOfSteps(selected);
  }

  lemma TotalTimeExtremes()
    ensures TotalTime(AllSelected) == Some(185)
    ensures TotalTime(map[]) == Some(0)
  {
    TotalTimeFormula(AllSelected);
    AllSelectedOn();
    TotalTimeFormula(map[]);
  }

  /** The count is one for each enabled step. */
  lemma SelectedCountFormula(selected: map<StepId, bool>)
    ensures SelectedCount(selected) == Weight(IsOn(selected, Embeddings), 1)
                                       + Weight(IsOn(selected, Clustering), 1)
                                       + Weight(IsOn(selected, Classification), 1)
                                       + Weight(IsOn(selected, Regression), 1)
  {
    assert StepIds[3..][1..] == [];
    assert CountOn(StepIds[3..], selected) == Weight(IsOn(selected, Regression), 1);
    assert StepIds[2..][1..] == StepIds[3..];
    assert CountOn(StepIds[2..], selected)
        == Weight(IsOn(selected, Classification), 1) + CountOn(StepIds[3..], selected);
    assert StepIds[1..][1..] == StepIds[2..];
    assert CountOn(StepIds[1..], selected)
        == Weight(IsOn(selected, Clustering), 1) + CountOn(StepIds[2..], selected);
  }

  /** No step is enabled exactly when none of the four keys is. */
  lemma NoneOn(selected: map<StepId, bool>)
    ensures (forall id :: !IsOn(selected, id)) <==>
            !IsOn(selected, Embeddings) && !IsOn(selected, Clustering)
            && !IsOn(selected, Classification) && !IsOn(selected, Regression)
  {
    if !IsOn(selected, Embeddings) && !IsOn(selected, Clustering)
       && !IsOn(selected, Classification) && !IsOn(selected, Regression)
    {
      forall id ensures !IsOn(selected, id) {
        StepIdCases(id);
      }
    }
  }

  /** `selectedCount === 0`: the Start button is disabled exactly when no step
      is enabled, which is exactly when the estimated time is zero. */
  function StartDisabled(selected: map<StepId, bool>): (disabled: bool)
    ensures disabled <==> forall id :: !IsOn(selected, id)
    ensures disabled <==> TotalTime(selected) == Some(0)
  {
    TotalTimeFormula(selected);
    SelectedCountFormula(selected);
    NoneOn(selected);
    SelectedCount(selected) == 0
  }

  /** `Math.ceil(totalTime / 60)`: the least whole number of minutes that
      covers the total. */
  function Minutes(totalSeconds: nat): (m: nat)
    ensures 60 * m >= totalSeconds
    ensures m > 0 ==> 60 * (m - 1) < totalSeconds
  {
    (totalSeconds + 59) / 60
  }

  lemma MinutesOfAll()
    ensures Minutes(185) == 4 && Minutes(0) == 0
  {
  }

  // ---------------------------------------------------------------- the component state

  class PipelinePanel {
    var selectedSteps: map<StepId, bool>

    ghost predicate Valid()
      reads this
    {
      Complete(selectedSteps)
    }

    constructor ()
      ensures Valid()
      ensures selectedSteps == AllSelected
    {
      selectedSteps := AllSelected;
      AllSelectedOn();
    }

    /** `toggleStep`. */
    method ToggleStep(id: StepId)
      requires Valid()
      modifies this
      ensures Valid()
      ensures selectedSteps == Toggled(old(selectedSteps), id)
    {
      selectedSteps := Toggled(selectedSteps, id);
    }
  }
}
