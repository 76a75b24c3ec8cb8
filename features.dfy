/** The records the dashboard receives from the GeoJSON layer: features with a
    polygon geometry and an attribute table, and the error objects that the
    layer and the views reject their promises with. */
module Features {

  datatype Option<+T> = None | Some(value: T)

  /** An error object as a rejected promise carries it: its `name` and `message`. */
  datatype JsError = JsError(name: string, message: string)

  datatype Point = Point(x: real, y: real)

  /** A polygon. Its coordinates are never inspected by the dashboard: the
      spatial predicate belongs to the layer, so a geometry is an opaque handle
      that only carries the centroid a popup is anchored at. */
  datatype Geometry = Polygon(handle: nat, centroid: Point)

  /** An attribute value: population fields hold numbers, `地名` holds text. */
  datatype Value = Num(n: int) | Text(s: string)

  /** The simple-fill symbol a graphic is drawn with; colours are RGBA with the
      alpha in hundredths and widths in tenths of a point. */
  datatype Fill = Fill(r: int, g: int, b: int, alphaPercent: int, outline: string, outlineTenths: int)

  /** A graphic returned by a feature query. `symbol` is None until the
      highlight code gives it one. */
  datatype Feature = Feature(geometry: Geometry, attributes: map<string, Value>, symbol: Option<Fill>)

  // Attribute names of the dataset.
  const PlaceName: string := "地名"
  const Male: string := "男"
  const Female: string := "女"
  const Urban: string := "城镇人口"
  const Village: string := "乡村人口"
  const City: string := "城区人口"

  /** The attribute `field` is present and numeric. */
  predicate HasCount(f: Feature, field: string)
  {
    field in f.attributes && f.attributes[field].Num?
  }

  function Count(f: Feature, field: string): int
    requires HasCount(f, field)
  {
    f.attributes[field].n
  }

  /** The five fields summed for the chart are present and numeric. */
  predicate HasCounts(f: Feature)
  {
    HasCount(f, Male) && HasCount(f, Female) && HasCount(f, Urban)
    && HasCount(f, Village) && HasCount(f, City)
  }

  predicate AllCounted(fs: seq<Feature>)
  {
    forall i :: 0 <= i < |fs| ==> HasCounts(fs[i])
  }

  /** `attributes['地名']`: the value stored under the place name, or None
      (JavaScript's undefined) when the feature lacks it. */
  function NameOf(f: Feature): Option<Value>
  {
    if PlaceName in f.attributes then Some(f.attributes[PlaceName]) else None
  }
}
