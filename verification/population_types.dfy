/**
  The population composition payload returned per prefecture, and the four
  population categories a chart can show.
  Values are whole numbers here; the optional `rate` of a point is dropped.
 */
module PopulationTypes {

  /** The four categories, in the order the selector lists them. */
  datatype Category = Total | Young | WorkingAge | Elderly

  const Categories: seq<Category> := [Total, Young, WorkingAge, Elderly]

  /** The label under which the upstream payload files a category's series. */
  function Label(c: Category): string
  {
    match c
    case Total => "総人口"
    case Young => "年少人口"
    case WorkingAge => "生産年齢人口"
    case Elderly => "老年人口"
  }

  /** One yearly data point. */
  datatype Point = Point(year: int, value: int)

  /** A labelled series of points. `name` is the payload's `label` field
      (`label` is a Dafny keyword); it is free text, not a `Category`. */
  datatype Series = Series(name: string, points: seq<Point>)

  /** The payload for one prefecture: a boundary year and its series. */
  datatype Composition = Composition(boundaryYear: int, series: seq<Series>)

  /** The years of a series, in point order. */
  function Years(points: seq<Point>): (r: seq<int>)
    ensures |r| == |points|
    ensures forall i :: 0 <= i < |points| ==> r[i] == points[i].year
  {
    if |points| == 0 then [] else [points[0].year] + Years(points[1..])
  }

  /** The population values of a series, in point order. */
  function Values(points: seq<Point>): (r: seq<int>)
    ensures |r| == |points|
    ensures forall i :: 0 <= i < |points| ==> r[i] == points[i].value
  {
    if |points| == 0 then [] else [points[0].value] + Values(points[1..])
  }

  /** Distinct categories are filed under distinct labels, and the selector
      offers each category exactly once. */
  lemma {:induction false} LabelsDistinct(c: Category, d: Category)
    ensures Label(c) == Label(d) <==> c == d
    ensures c in Categories
    ensures |Categories| == 4
  {
  }
}
