/** The two date normalisers of the editor: `parseDate`, applied to the
    loaded `updatedAt` and `slaExpireAt`, and `toIsoOrNull`, applied to them
    on save. */
module Dates {
  import opened Json

  /** What the JavaScript runtime provides: `new Date(v)` for a value that
      is not a Date (its time value, None when it is NaN), and
      `toISOString` for a valid time value. Both are implementation-defined
      and are taken as given. */
  datatype DateRuntime = DateRuntime(construct: Value -> Option<int>, iso: int -> string)

  /** `parseDate(value)`: null for a falsy value, a Date as it is (even an
      invalid one), otherwise the constructed Date, or null when it is
      invalid. */
  function ParseDate(rt: DateRuntime, v: Value): (r: Value)
    ensures r.Null? || r.Date?
  {
    if !Truthy(v) then Null
    else if v.Date? then v
    else
      match rt.construct(v)
      case None => Null
      case Some(t) => Date(Some(t))
  }

  /** `toIsoOrNull(value)`: null for a falsy value or an invalid date,
      otherwise the ISO text of its time value. */
  function ToIsoOrNull(rt: DateRuntime, v: Value): (r: Value)
    ensures r.Null? || r.Str?
  {
    if !Truthy(v) then Null
    else
      var time := if v.Date? then v.time else rt.construct(v);
      match time
      case None => Null
      case Some(t) => Str(rt.iso(t))
  }

  /** Parsing on load and formatting on save give the same text as
      formatting the loaded value directly: loading and saving a date the
      user did not touch keeps its ISO form. */
  lemma SaveAfterLoad(rt: DateRuntime, v: Value)
    ensures ToIsoOrNull(rt, ParseDate(rt, v)) == ToIsoOrNull(rt, v)
  {
  }

  /** Parsing an already parsed value changes nothing. */
  lemma ParseDateIdempotent(rt: DateRuntime, v: Value)
    ensures ParseDate(rt, ParseDate(rt, v)) == ParseDate(rt, v)
  {
  }

  /** The cases of `parseDate`: null for falsy input (0 and "" included, even
      though `new Date(0)` is a valid date), a Date unchanged, null for input
      the runtime cannot read, and otherwise a valid Date. */
  lemma ParseDateCases(rt: DateRuntime, v: Value)
    ensures !Truthy(v) ==> ParseDate(rt, v) == Null
    ensures v.Date? ==> ParseDate(rt, v) == v
    ensures !v.Date? && rt.construct(v).None? ==> ParseDate(rt, v) == Null
    ensures Truthy(v) && !v.Date? && rt.construct(v).Some? ==>
              ParseDate(rt, v) == Date(rt.construct(v)) && ParseDate(rt, v).time.Some?
  {
  }

  /** The cases of `toIsoOrNull`: null for falsy input and for an invalid
      Date, the ISO text of a valid Date's time value. */
  lemma ToIsoCases(rt: DateRuntime, v: Value)
    ensures !Truthy(v) ==> ToIsoOrNull(rt, v) == Null
    ensures v == Date(None) ==> ToIsoOrNull(rt, v) == Null
    ensures forall t :: v == Date(Some(t)) ==> ToIsoOrNull(rt, v) == Str(rt.iso(t))
  {
  }
}
