/** Plain values shared by the player's modules. */
module Values {

  /** A value that may be absent (`null` / `undefined` in the component). */
  datatype Option<+T> = None | Some(value: T)

  /** A JavaScript number as the media element reports it: the time fields
      may be NaN (no metadata yet) or infinite (a live stream). Only the
      distinction the code makes, finite or not, is ever inspected. */
  datatype Num = Finite(value: real) | NaN | Infinity(negative: bool)
  {
    /** `Number.isFinite` */
    predicate IsFinite() { Finite? }
  }
}
