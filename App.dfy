/** The application shell (src/App.tsx): the phase state machine
    upload -> pipeline -> analysis -> results, the mock analytics generators
    that produce the results, and the step indicator. `Math.random()` is a
    sequence of draws in [0, 1) supplied by the caller, consumed in the order
    the source calls it; the 3-second timer is the explicit `CompleteAnalysis`. */
module App {
  import opened Types
  import opened Sequences
  import DataUpload
  import ModelManagement
  import ClusterTable
  import PerformanceMetricsView
  import FeatureImportanceChart

  predicate IsDraw(r: real) { 0.0 <= r < 1.0 }

  predicate AllDraws(draws: seq<real>) {
    forall i :: 0 <= i < |draws| ==> IsDraw(draws[i])
  }

  // ---------------------------------------------------------------- projection

  const PointCount := 150
  /** Each point calls `Math.random()` four times: status, x, y, cluster. */
  const DrawsPerPoint := 4

  const Statuses: seq<string> := ["Poor", "Fair", "Good"]
  const StatusColors: seq<string> := ["#EF4444", "#F59E0B", "#10B981"]

  /** `Math.floor(r * n)` for a draw `r` lies in 0..n-1. */
  function Pick(r: real, n: nat): (k: int)
    requires IsDraw(r) && n > 0
    ensures 0 <= k < n
  {
    var k := (r * n as real).Floor;
    assert 0.0 <= r * n as real < n as real;
    k
  }

  /** The i-th projection point as the draws determine it: status index k,
      colour k, x offset 3k, y offset 2k, cluster 1..5. */
  /** What every generated point satisfies: a known status, the colour of that
      status, a cluster in 1..5, and coordinates in the band of its status. */
  predicate WellPlaced(p: UmapPoint) {
    exists k :: 0 <= k < |Statuses| && p.status == Statuses[k] && p.color == StatusColors[k]
      && -5.0 + 3.0 * k as real <= p.x < 5.0 + 3.0 * k as real
      && -5.0 + 2.0 * k as real <= p.y < 5.0 + 2.0 * k as real
      && 1 <= p.cluster <= 5
  }

  function PointAt(draws: seq<real>, i: int): (p: UmapPoint)
    requires 0 <= i < PointCount && |draws| == DrawsPerPoint * PointCount && AllDraws(draws)
    ensures WellPlaced(p)
  {
    var k := Pick(draws[DrawsPerPoint * i], |Statuses|);
    assert IsDraw(draws[DrawsPerPoint * i + 1]) && IsDraw(draws[DrawsPerPoint * i + 2]);
    var p := UmapPoint(draws[DrawsPerPoint * i + 1] * 10.0 - 5.0 + k as real * 3.0,
                       draws[DrawsPerPoint * i + 2] * 10.0 - 5.0 + k as real * 2.0,
                       Statuses[k], StatusColors[k],
                       Pick(draws[DrawsPerPoint * i + 3], 5) + 1);
    assert p.status == Statuses[k];
    p
  }

  function MockUmapData(draws: seq<real>): (data: seq<UmapPoint>)
    requires |draws| == DrawsPerPoint * PointCount && AllDraws(draws)
    ensures |data| == PointCount && forall i :: 0 <= i < |data| ==> WellPlaced(data[i])
  {
    seq(PointCount, i requires 0 <= i < PointCount => PointAt(draws, i))
  }

  /** `generateMockUmapData`: 150 points pushed one by one. */
  method GenerateMockUmapData(draws: seq<real>) returns (data: seq<UmapPoint>)
    requires |draws| == DrawsPerPoint * PointCount && AllDraws(draws)
    ensures |data| == PointCount
    ensures forall i :: 0 <= i < PointCount ==> data[i] == PointAt(draws, i)
    ensures forall i :: 0 <= i < |data| ==> WellPlaced(data[i])
  {
    data := [];
    var next := 0;
    for i := 0 to PointCount
      invariant next == DrawsPerPoint * i
      invariant |data| == i
      invariant forall j :: 0 <= j < i ==> data[j] == PointAt(draws, j) && WellPlaced(data[j])
    {
      var status := Statuses[Pick(draws[next], |Statuses|)];
      var statusIndex := IndexOf(Statuses, status);
      IndexOfDistinct(Statuses, Pick(draws[next], |Statuses|));
      var x := draws[next + 1] * 10.0 - 5.0 + statusIndex as real * 3.0;
      var y := draws[next + 2] * 10.0 - 5.0 + statusIndex as real * 2.0;
      var cluster := Pick(draws[next + 3], 5) + 1;
      next := next + DrawsPerPoint;
      data := data + [UmapPoint(x, y, status, StatusColors[statusIndex], cluster)];
    }
  }

  // ---------------------------------------------------------------- clusters

  /** `generateMockClusterData`: a fixed table, not derived from the points. */
  function MockClusterData(): (clusters: seq<ClusterData>)
    ensures |clusters| == 5
    ensures forall i :: 0 <= i < 5 ==> clusters[i].cluster == i + 1
  {
    [ClusterData(1, 45, "Bacillus sp.", 3.2),
     ClusterData(2, 38, "Pseudomonas sp.", 2.8),
     ClusterData(3, 29, "Streptomyces sp.", 4.1),
     ClusterData(4, 22, "Rhizobium sp.", 2.5),
     ClusterData(5, 16, "Azotobacter sp.", 3.7)]
  }

  /** The sizes are 45, 38, 29, 22, 16: they account for all 150 points, so
      the table's shares add up to 100%, and they are already largest first,
      so the table shows the rows in generated order. */
  lemma MockClusterSizes()
    ensures var c := MockClusterData();
            c[0].size == 45 && c[1].size == 38 && c[2].size == 29 && c[3].size == 22 && c[4].size == 16
    ensures ClusterTable.SizeSum(MockClusterData()) == PointCount
    ensures ClusterTable.ShareSum(MockClusterData()) == 100.0
    ensures ClusterTable.SortedClusters(MockClusterData()) == MockClusterData()
  {
    var c := MockClusterData();
    assert c[4..][1..] == [];
    assert ClusterTable.SizeSum(c[4..]) == 16;
    assert c[3..][1..] == c[4..];
    assert c[2..][1..] == c[3..];
    assert c[1..][1..] == c[2..];
    ClusterTable.ShareSumScales(c);
    ClusterTable.SortedClustersStable(c);
  }

  /** The metrics of every run: constants, not computed from anything. */
  const MockMetrics := PerformanceMetrics(0.847, 0.123, 0.756)

  /** With the constant metrics the cards read Excellent, Good and Excellent:
      accuracy 0.847, R² 0.756, and 1 - 0.123 = 0.877 for the MSE card. */
  lemma MockMetricBands()
    ensures var cards := PerformanceMetricsView.MetricCards(MockMetrics);
            PerformanceMetricsView.ScoreLabel(cards[0].score) == "Excellent"
            && PerformanceMetricsView.ScoreLabel(cards[1].score) == "Good"
            && PerformanceMetricsView.ScoreLabel(cards[2].score) == "Excellent"
  {
  }

  // ---------------------------------------------------------------- features

  const FeatureNames: seq<string> :=
    ["pH_level", "dissolved_oxygen", "temperature", "turbidity", "nitrate_concentration",
     "phosphate_level", "bacterial_diversity", "fungal_abundance", "total_carbon"]

  /** `feature.includes('_') ? 'Environmental' : 'Biological'`. */
  function Category(feature: string): (c: string)
    ensures c == "Environmental" <==> '_' in feature
    ensures c == "Environmental" || c == "Biological"
  {
    if '_' in feature then "Environmental" else "Biological"
  }

  /** "temperature" and "turbidity" have no underscore and come out Biological;
      the other seven are Environmental. */
  lemma FeatureCategories()
    ensures Category(FeatureNames[2]) == "Biological" && Category(FeatureNames[3]) == "Biological"
    ensures forall i :: 0 <= i < |FeatureNames| && i != 2 && i != 3 ==> Category(FeatureNames[i]) == "Environmental"
  {
    assert FeatureNames[2][4] == 'e';
    assert '_' !in FeatureNames[2] && '_' !in FeatureNames[3];
    assert forall i :: 0 <= i < |FeatureNames| && i != 2 && i != 3 ==> '_' in FeatureNames[i] by {
      assert FeatureNames[0][2] == '_' && FeatureNames[1][9] == '_' && FeatureNames[4][7] == '_';
      assert FeatureNames[5][9] == '_' && FeatureNames[6][9] == '_' && FeatureNames[7][6] == '_';
      assert FeatureNames[8][5] == '_';
    }
  }

  function Importance(f: FeatureImportance): real { f.importance }

  /** The features in list order, each with its draw scaled to [0.2, 1.0). */
  function RankedFeatures(draws: seq<real>): (fs: seq<FeatureImportance>)
    requires |draws| == |FeatureNames| && AllDraws(draws)
    ensures |fs| == |FeatureNames|
    ensures forall i :: 0 <= i < |fs| ==> fs[i].feature == FeatureNames[i]
  {
    seq(|FeatureNames|, i requires 0 <= i < |FeatureNames| =>
      FeatureImportance(FeatureNames[i], draws[i] * 0.8 + 0.2, Category(FeatureNames[i])))
  }

  /** `generateMockFeatureImportance`: the nine features sorted by importance,
      highest first; each keeps its own importance and category. */
  function MockFeatureImportance(draws: seq<real>): (fs: seq<FeatureImportance>)
    requires |draws| == |FeatureNames| && AllDraws(draws)
    ensures SortedDesc(fs, Importance)
    ensures multiset(fs) == multiset(RankedFeatures(draws))
  {
    SortDesc(RankedFeatures(draws), Importance)
  }

  /** Every ranking entry is one of the nine features, every feature appears,
      importances lie in [0.2, 1.0) and the category follows the name. */
  lemma MockFeatureImportanceShape(draws: seq<real>)
    requires |draws| == |FeatureNames| && AllDraws(draws)
    ensures |MockFeatureImportance(draws)| == |FeatureNames|
    ensures var fs := MockFeatureImportance(draws);
            (forall i :: 0 <= i < |fs| ==>
               fs[i].feature in FeatureNames && 0.2 <= fs[i].importance < 1.0
               && fs[i].category == Category(fs[i].feature))
            && (forall name :: name in FeatureNames ==> exists i :: 0 <= i < |fs| && fs[i].feature == name)
  {
    var fs := MockFeatureImportance(draws);
    assert |fs| == |multiset(fs)| == |multiset(RankedFeatures(draws))|;
    MockFeatureEntries(draws);
    MockFeatureCoverage(draws);
  }

  lemma MockFeatureEntries(draws: seq<real>)
    requires |draws| == |FeatureNames| && AllDraws(draws)
    ensures var fs := MockFeatureImportance(draws);
            forall i :: 0 <= i < |fs| ==>
              fs[i].feature in FeatureNames && 0.2 <= fs[i].importance < 1.0
              && fs[i].category == Category(fs[i].feature)
  {
    var fs := MockFeatureImportance(draws);
    var unsorted := RankedFeatures(draws);
    forall i | 0 <= i < |fs|
      ensures fs[i].feature in FeatureNames && 0.2 <= fs[i].importance < 1.0
              && fs[i].category == Category(fs[i].feature)
    {
      assert fs[i] in multiset(unsorted);
      var j :| 0 <= j < |unsorted| && unsorted[j] == fs[i];
      assert IsDraw(draws[j]);
    }
  }

  lemma MockFeatureCoverage(draws: seq<real>)
    requires |draws| == |FeatureNames| && AllDraws(draws)
    ensures var fs := MockFeatureImportance(draws);
            forall name :: name in FeatureNames ==> exists i :: 0 <= i < |fs| && fs[i].feature == name
  {
    var fs := MockFeatureImportance(draws);
    var unsorted := RankedFeatures(draws);
    forall name | name in FeatureNames
      ensures exists i :: 0 <= i < |fs| && fs[i].feature == name
    {
      var j :| 0 <= j < |FeatureNames| && FeatureNames[j] == name;
      assert unsorted[j] in multiset(fs);
      var i :| 0 <= i < |fs| && fs[i] == unsorted[j];
    }
  }

  /** In the chart, a generated feature's bar is blue exactly when its name
      contains an underscore, and every bar of a generated ranking is a number
      in (0, 100]. */
  lemma MockFeatureChart(draws: seq<real>)
    requires |draws| == |FeatureNames| && AllDraws(draws)
    ensures var fs := MockFeatureImportance(draws);
            (forall i :: 0 <= i < |fs| ==>
               (FeatureImportanceChart.CategoryColor(fs[i].category) == "#3B82F6" <==> '_' in fs[i].feature))
            && (forall i :: 0 <= i < |fs| ==>
               FeatureImportanceChart.BarWidths(fs)[i].Some?
               && 0.0 < FeatureImportanceChart.BarWidths(fs)[i].value <= 100.0)
  {
    var fs := MockFeatureImportance(draws);
    MockFeatureImportanceShape(draws);
    FeatureImportanceChart.BarWidthBounds(fs);
  }

  /** The results of one analysis run: 150 well-placed points, the five fixed
      clusters, the constant metrics and the nine features ranked highest first. */
  function MockResults(pointDraws: seq<real>, featureDraws: seq<real>): (r: ModelResults)
    requires |pointDraws| == DrawsPerPoint * PointCount && AllDraws(pointDraws)
    requires |featureDraws| == |FeatureNames| && AllDraws(featureDraws)
    ensures |r.umapData| == PointCount && forall i :: 0 <= i < |r.umapData| ==> WellPlaced(r.umapData[i])
    ensures |r.clusterData| == 5 && r.performanceMetrics == PerformanceMetrics(0.847, 0.123, 0.756)
    ensures SortedDesc(r.featureImportance, Importance)
    ensures multiset(r.featureImportance) == multiset(RankedFeatures(featureDraws))
  {
    ModelResults(MockUmapData(pointDraws), MockClusterData(), MockMetrics, MockFeatureImportance(featureDraws))
  }

  // ---------------------------------------------------------------- step indicator

  const StepOrder: seq<PipelineStep> := [Upload, Pipeline, Analysis, Results]

  /** `['upload', 'pipeline', 'analysis', 'results'].indexOf(currentStep)`. */
  function StepIndex(step: PipelineStep): (i: int)
    ensures 0 <= i < |StepOrder| && StepOrder[i] == step
  {
    assert step == StepOrder[0] || step == StepOrder[1] || step == StepOrder[2] || step == StepOrder[3];
    IndexOf(StepOrder, step)
  }

  datatype StageLook = Current | Completed | Pending

  /** How the indicator draws stage `index` (blue, green or grey): the current
      stage is highlighted, earlier ones are completed. */
  function Stage(current: PipelineStep, index: int): (look: StageLook)
    requires 0 <= index < |StepOrder|
    ensures look == Current <==> StepIndex(current) == index
    ensures look == Completed <==> StepIndex(current) > index
  {
    if current == StepOrder[index] then Current
    else if IndexOf(StepOrder, current) > index then Completed
    else Pending
  }

  /** Whether the connector after stage `index` is drawn green: exactly when
      the current stage lies past it. */
  function ConnectorDone(current: PipelineStep, index: int): (done: bool)
    requires 0 <= index < |StepOrder| - 1
    ensures done <==> StepIndex(current) > index
  {
    IndexOf(StepOrder, current) > index
  }

  /** Stages before the current one are completed, the current one is
      highlighted, later ones are pending; a connector is green exactly when
      both of its ends are completed or current. */
  lemma StageOrder(current: PipelineStep, index: int)
    requires 0 <= index < |StepOrder|
    ensures Stage(current, index) == Completed <==> StepIndex(current) > index
    ensures Stage(current, index) == Current <==> StepIndex(current) == index
    ensures Stage(current, index) == Pending <==> StepIndex(current) < index
    ensures index < |StepOrder| - 1 ==>
              (ConnectorDone(current, index) <==> Stage(current, index + 1) != Pending)
  {
  }

  // ---------------------------------------------------------------- the application state

  class AppState {
    var analysisData: Option<AnalysisData>
    var currentStep: PipelineStep
    var isAnalyzing: bool
    var results: Option<ModelResults>
    /** The panel holding `savedModels`, which the application state owns. */
    const models: ModelManagement.ModelPanel

    /** What holds in every state the views can lead to: the analysing flag
        is on exactly in the analysis phase, a dataset is present from the
        pipeline phase on and results exactly in the results phase. */
    ghost predicate Valid()
      reads this
    {
      && (isAnalyzing <==> currentStep == Analysis)
      && (currentStep != Upload ==> analysisData.Some?)
      && (results.Some? <==> currentStep == Results)
    }

    /** Which view the main area renders. */
    predicate UploadShown() reads this { currentStep == Upload }
    predicate PipelineShown() reads this { currentStep == Pipeline && analysisData.Some? }
    predicate AnalysisShown() reads this { currentStep == Analysis }
    predicate ResultsShown() reads this { currentStep == Results && results.Some? }

    constructor ()
      ensures Valid()
      ensures currentStep == Upload && analysisData == None && results == None && !isAnalyzing
      ensures fresh(models) && models.savedModels == []
    {
      analysisData := None;
      currentStep := Upload;
      isAnalyzing := false;
      results := None;
      models := new ModelManagement.ModelPanel();
    }

    /** `handleDataUpload`: store the dataset, go to the pipeline phase. */
    method HandleDataUpload(data: AnalysisData)
      modifies this
      ensures analysisData == Some(data) && currentStep == Pipeline
      ensures isAnalyzing == old(isAnalyzing) && results == old(results)
      ensures old(UploadShown()) && old(Valid()) ==> Valid() && PipelineShown()
      ensures old(UploadShown()) ==> StepIndex(currentStep) == StepIndex(old(currentStep)) + 1
    {
      analysisData := Some(data);
      currentStep := Pipeline;
    }

    /** The upload view's "Proceed" button: `proceedWithData` hands the
        preview, if there is one, to `handleDataUpload`. */
    method ProceedFromUpload(upload: DataUpload.UploadState)
      requires upload.Valid()
      modifies this
      ensures old(upload.previewData).None? ==>
                analysisData == old(analysisData) && currentStep == old(currentStep)
      ensures old(upload.previewData).Some? ==>
                analysisData == old(upload.previewData) && currentStep == Pipeline
      ensures isAnalyzing == old(isAnalyzing) && results == old(results)
    {
      var submitted := upload.ProceedWithData();
      if submitted.Some? {
        HandleDataUpload(submitted.value);
      }
    }

    /** `handleAnalysisStart`, up to arming the timer. */
    method HandleAnalysisStart()
      modifies this
      ensures isAnalyzing && currentStep == Analysis
      ensures analysisData == old(analysisData) && results == old(results)
      ensures old(PipelineShown()) && old(Valid()) ==> Valid() && AnalysisShown()
      ensures old(PipelineShown()) ==> StepIndex(currentStep) == StepIndex(old(currentStep)) + 1
    {
      isAnalyzing := true;
      currentStep := Analysis;
    }

    /** The timer callback of `handleAnalysisStart`: store one complete set of
        results, clear the analysing flag and show the results. */
    method CompleteAnalysis(pointDraws: seq<real>, featureDraws: seq<real>)
      requires currentStep == Analysis
      requires |pointDraws| == DrawsPerPoint * PointCount && AllDraws(pointDraws)
      requires |featureDraws| == |FeatureNames| && AllDraws(featureDraws)
      modifies this
      ensures results == Some(MockResults(pointDraws, featureDraws))
      ensures !isAnalyzing && currentStep == Results && analysisData == old(analysisData)
      ensures old(Valid()) ==> Valid() && ResultsShown()
      ensures StepIndex(currentStep) == StepIndex(old(currentStep)) + 1
    {
      var umapData := GenerateMockUmapData(pointDraws);
      var clusterData := MockClusterData();
      var featureImportance := MockFeatureImportance(featureDraws);
      assert umapData == MockUmapData(pointDraws);
      assert StepOrder[2] == Analysis && StepOrder[3] == Results;
      results := Some(ModelResults(umapData, clusterData, MockMetrics, featureImportance));
      isAnalyzing := false;
      currentStep := Results;
    }
  }

  /** In every state the views lead to, the pipeline view is shown exactly in
      the pipeline phase and the results view exactly in the results phase:
      the presence checks at the call sites never hide a view. */
  lemma ViewsFollowPhase(app: AppState)
    requires app.Valid()
    ensures app.PipelineShown() <==> app.currentStep == Pipeline
    ensures app.ResultsShown() <==> app.currentStep == Results
  {
  }
}
