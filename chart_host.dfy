/** The boundary between the annotation core and the host chart: the anchor
    and pointer value types, and the host's coordinate conversions, each of
    which may fail to resolve (returns null in the host, `None` here). */
module ChartHost {
  import opened Wrappers

  /** An anchor in chart-domain coordinates. Times are numeric timestamps. */
  datatype Point = Point(time: int, price: real)

  /** A pointer position in pane pixels, as the host delivers it. */
  datatype ScreenPoint = ScreenPoint(x: real, y: real)

  /** The host's time scale and series conversions, taken as given functions.
      One chart and one series serve every annotation. */
  datatype Host = Host(
    timeToCoordinate: int -> Option<real>,
    coordinateToTime: real -> Option<int>,
    priceToCoordinate: real -> Option<real>,
    coordinateToPrice: real -> Option<real>,
    coordinateToLogical: real -> Option<real>)

  /** JavaScript falsiness of a resolved time (`!time`): null, or the number 0. */
  predicate TimeMissing(t: Option<int>) { t.None? || t.value == 0 }

  /** JavaScript falsiness of a resolved price (`!price`): null, or the number 0. */
  predicate PriceMissing(p: Option<real>) { p.None? || p.value == 0.0 }
}
