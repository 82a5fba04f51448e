/** The shared records of the application (src/types/index.ts).
    Numbers of the source are modelled as `real` (or `int` where the source only
    ever stores whole numbers); strings are `seq<char>`. */
module Types {

  datatype Option<T> = None | Some(value: T)

  /** A dataset as the upload screen hands it to the pipeline. The source's
      `data` array is always empty and is not modelled; the optional
      `isSimulated` flag is `false` where the source leaves it undefined. */
  datatype AnalysisData = AnalysisData(
    filename: string,
    samples: int,
    features: int,
    headers: seq<string>,
    rows: seq<seq<string>>,
    isSimulated: bool)

  /** The four phases of the application, in the order the step indicator shows them. */
  datatype PipelineStep = Upload | Pipeline | Analysis | Results

  datatype UmapPoint = UmapPoint(x: real, y: real, status: string, color: string, cluster: int)

  datatype ClusterData = ClusterData(cluster: int, size: int, dominantSpecies: string, diversity: real)

  datatype PerformanceMetrics = PerformanceMetrics(classificationAccuracy: real, regressionMSE: real, rSquared: real)

  datatype FeatureImportance = FeatureImportance(feature: string, importance: real, category: string)

  datatype ModelResults = ModelResults(
    umapData: seq<UmapPoint>,
    clusterData: seq<ClusterData>,
    performanceMetrics: PerformanceMetrics,
    featureImportance: seq<FeatureImportance>)
}
