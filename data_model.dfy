/** The value shared by the plotting helpers: one panel's data. */
module DataModel {

  /** Coordinates x, y (temperature, pressure) and the colour channel z; the
      source keeps the three arrays of a panel equally long, but does not check it. */
  datatype Series = Series(x: seq<real>, y: seq<real>, z: seq<real>)
}
