/** The cluster table (src/components/visualizations/ClusterTable.tsx): the
    rows sorted by size on a copy, a colour per cluster id taken from a
    five-colour palette, a diversity band, the share of a fixed 150 samples
    and up to three badges per row. */
module ClusterTable {
  import opened Types
  import opened Sequences

  const Palette: seq<string> := ["#EF4444", "#F59E0B", "#10B981", "#3B82F6", "#8B5CF6"]

  /** JavaScript's `%` on integers: the remainder takes the sign of the
      dividend (Dafny's `%` never returns a negative value). */
  function JsRemainder(a: int, b: int): (r: int)
    requires b > 0
    ensures a >= 0 ==> 0 <= r < b
    ensures a < 0 ==> -b < r <= 0
    ensures a - r == b * (if a >= 0 then a / b else -((-a) / b))
  {
    if a >= 0 then a % b else -((-a) % b)
  }

  /** `colors[(cluster - 1) % colors.length]`: a negative index reads
      `undefined`, written `None`; a remainder of -0 reads the first colour. */
  function ClusterColor(cluster: int): (color: Option<string>)
    ensures cluster >= 1 ==> color == Some(Palette[(cluster - 1) % |Palette|])
    ensures color.Some? ==> color.value in Palette
  {
    var k := JsRemainder(cluster - 1, |Palette|);
    if k >= 0 then Some(Palette[k]) else None
  }

  /** Positive ids cycle through the palette: id k and id k + 5 share a colour,
      and ids 1 to 5 get the five colours in order. */
  lemma ClusterColorCycle(cluster: int)
    requires cluster >= 1
    ensures ClusterColor(cluster) == Some(Palette[(cluster - 1) % 5])
    ensures ClusterColor(cluster + 5) == ClusterColor(cluster)
  {
  }

  lemma ClusterColorsDistinct(a: int, b: int)
    requires 1 <= a <= 5 && 1 <= b <= 5 && a != b
    ensures ClusterColor(a).Some? && ClusterColor(b).Some?
    ensures ClusterColor(a) != ClusterColor(b)
  {
  }

  /** Id 0 and below get no colour unless `cluster - 1` is a multiple of 5,
      in which case the remainder is -0 and the first colour is used. */
  lemma ClusterColorNonPositive(cluster: int)
    requires cluster <= 0
    ensures ClusterColor(cluster).Some? <==> (cluster - 1) % 5 == 0
    ensures (cluster - 1) % 5 == 0 ==> ClusterColor(cluster) == Some(Palette[0])
  {
    var k := JsRemainder(cluster - 1, 5);
    if k == 0 {
      assert (cluster - 1) % 5 == 0;
    } else {
      assert (cluster - 1 - k) % 5 == 0;
      assert (cluster - 1) % 5 != 0 by {
        if (cluster - 1) % 5 == 0 {
          ModDifference(cluster - 1, k);
        }
      }
    }
  }

  lemma ModDifference(a: int, k: int)
    requires -5 < k < 0 && a % 5 == 0
    ensures (a - k) % 5 != 0
  {
    assert a == 5 * (a / 5);
    assert a - k == 5 * (a / 5) + (-k);
  }

  // ---------------------------------------------------------------- diversity

  datatype Level = High | Medium | Low

  /** The badge shown in the diversity column: a level and its colour classes. */
  datatype DiversityInfo = DiversityInfo(level: Level, color: string)

  /** `getDiversityLevel`. */
  function DiversityLevel(diversity: real): (info: DiversityInfo)
    ensures info.level == High <==> diversity >= 3.5
    ensures info.level == Medium <==> 2.5 <= diversity < 3.5
    ensures info.level == Low <==> diversity < 2.5
  {
    if diversity >= 3.5 then DiversityInfo(High, "text-green-600 bg-green-100")
    else if diversity >= 2.5 then DiversityInfo(Medium, "text-yellow-600 bg-yellow-100")
    else DiversityInfo(Low, "text-red-600 bg-red-100")
  }

  function LevelRank(level: Level): nat {
    match level
    case Low => 0
    case Medium => 1
    case High => 2
  }

  /** More diversity never gives a lower band, and each band has its own colours. */
  lemma DiversityMonotone(d1: real, d2: real)
    requires d1 <= d2
    ensures LevelRank(DiversityLevel(d1).level) <= LevelRank(DiversityLevel(d2).level)
    ensures DiversityLevel(d1).level == DiversityLevel(d2).level <==>
            DiversityLevel(d1).color == DiversityLevel(d2).color
  {
  }

  // ---------------------------------------------------------------- badges and share

  datatype Badge = Dominant | HighDiversity | Rare

  /** The badges of a row, in the order they are rendered. */
  function Badges(c: ClusterData): (badges: seq<Badge>)
    ensures Dominant in badges <==> c.size > 40
    ensures HighDiversity in badges <==> c.diversity > 3.5
    ensures Rare in badges <==> c.size < 25
    ensures forall i, j :: 0 <= i < j < |badges| ==> badges[i] != badges[j]
  {
    (if c.size > 40 then [Dominant] else [])
    + (if c.diversity > 3.5 then [HighDiversity] else [])
    + (if c.size < 25 then [Rare] else [])
  }

  /** Each badge appears exactly under its own threshold, a row is never both
      dominant and rare, and the high-diversity badge needs more than the
      High band's 3.5: a diversity of exactly 3.5 is High without the badge. */
  lemma BadgeRules(c: ClusterData)
    ensures Dominant in Badges(c) <==> c.size > 40
    ensures Rare in Badges(c) <==> c.size < 25
    ensures HighDiversity in Badges(c) <==> c.diversity > 3.5
    ensures !(Dominant in Badges(c) && Rare in Badges(c))
    ensures HighDiversity in Badges(c) ==> DiversityLevel(c.diversity).level == High
    ensures c.diversity == 3.5 ==> DiversityLevel(c.diversity).level == High && HighDiversity !in Badges(c)
    ensures |Badges(c)| <= 2
  {
  }

  const TableTotal := 150

  /** `(size / 150) * 100`: the share is taken of a fixed 150, not of the table's total. */
  function Share(size: int): (pct: real)
    ensures size == TableTotal ==> pct == 100.0
    ensures 0 <= size <= TableTotal ==> 0.0 <= pct <= 100.0
  {
    size as real / TableTotal as real * 100.0
  }

  function SizeSum(clusters: seq<ClusterData>): int {
    if clusters == [] then 0 else clusters[0].size + SizeSum(clusters[1..])
  }

  function ShareSum(clusters: seq<ClusterData>): real {
    if clusters == [] then 0.0 else Share(clusters[0].size) + ShareSum(clusters[1..])
  }

  /** The shares add up to 100 exactly when the sizes add up to 150. */
  lemma {:induction false} ShareSumScales(clusters: seq<ClusterData>)
    ensures ShareSum(clusters) == SizeSum(clusters) as real * 100.0 / TableTotal as real
    ensures ShareSum(clusters) == 100.0 <==> SizeSum(clusters) == TableTotal
  {
    if clusters != [] {
      ShareSumScales(clusters[1..]);
    }
  }

  // ---------------------------------------------------------------- sorting

  function SizeKey(c: ClusterData): real { c.size as real }

  /** `[...clusters].sort((a, b) => b.size - a.size)`: the rows by size, largest
      first, holding exactly the rows given. */
  function SortedClusters(clusters: seq<ClusterData>): (sorted: seq<ClusterData>)
    ensures |sorted| == |clusters|
    ensures forall i, j :: 0 <= i < j < |sorted| ==> sorted[i].size >= sorted[j].size
    ensures multiset(sorted) == multiset(clusters)
  {
    var r := SortDesc(clusters, SizeKey);
    assert |r| == |multiset(r)|;
    assert forall i, j :: 0 <= i < j < |r| ==> SizeKey(r[i]) >= SizeKey(r[j]);
    r
  }

  /** Rows that are already in order keep their order. */
  lemma SortedClustersStable(clusters: seq<ClusterData>)
    requires forall i, j :: 0 <= i < j < |clusters| ==> clusters[i].size >= clusters[j].size
    ensures SortedClusters(clusters) == clusters
  {
    assert SortedDesc(clusters, SizeKey);
    SortSorted(clusters, SizeKey);
  }

  /** What a table row shows beyond the raw fields. */
  datatype Row = Row(cluster: ClusterData, color: Option<string>, share: real, diversity: DiversityInfo, badges: seq<Badge>)

  /** The colour, share, diversity band and badges shown for one cluster. */
  function RowOf(c: ClusterData): Row {
    Row(c, ClusterColor(c.cluster), Share(c.size), DiversityLevel(c.diversity), Badges(c))
  }

  /** The table body: one row per cluster, in sorted order. */
  function TableRows(clusters: seq<ClusterData>): (rows: seq<Row>)
    ensures |rows| == |clusters|
    ensures forall i, j :: 0 <= i < j < |rows| ==> rows[i].cluster.size >= rows[j].cluster.size
    ensures multiset(seq(|rows|, i requires 0 <= i < |rows| => rows[i].cluster)) == multiset(clusters)
    ensures forall i :: 0 <= i < |rows| ==> rows[i] == RowOf(rows[i].cluster)
  {
    var sorted := SortedClusters(clusters);
    var rows := seq(|sorted|, i requires 0 <= i < |sorted| => RowOf(sorted[i]));
    assert seq(|rows|, i requires 0 <= i < |rows| => rows[i].cluster) == sorted;
    rows
  }
}
