/** Answer values as they travel between the respondent page and the backend: the JSON the
    page sends (`string | string[] | number | null`) and what PHP's `json_decode` makes of it. */
module Values {

  /** A JSON scalar. Booleans and non-integral numbers are not part of this model. */
  datatype Scalar = Null | Int(i: int) | Str(s: string)

  /** An answer value: a scalar, or a list of scalars (the options of a multiple-choice answer). */
  datatype Value = Atom(a: Scalar) | List(items: seq<Scalar>)

  /** The values both sides treat as "not answered": `null`, `''` and `[]`.
      A rating of 0 is an answer. */
  predicate IsEmptyAnswer(v: Value) {
    v == Atom(Null) || v == Atom(Str("")) || v == List([])
  }
}
