/**
 * The `createdAt` range filter of the admin dashboard, built from the
 * optional `from`/`to` query values. Dates are milliseconds since the epoch;
 * `new Date(v)` is the supplied parser (`None` for an invalid date).
 */
module AdminService {
  import opened Wrappers
  import opened Strings
  import opened Js
  import opened Common

  /** `new Date(v).getTime()`, `None` when it is NaN. */
  type DateParser = JsValue -> Option<int>

  /** `toDateOrNull(v)`: nothing for `null`/`undefined` or a blank value,
      otherwise the parsed date when it is valid. */
  function ToDateOrNull(v: JsValue, parse: DateParser): (d: Option<int>)
    ensures IsNullish(v) || Trim(ToStr(v)) == "" ==> d.None?
    ensures !(IsNullish(v) || Trim(ToStr(v)) == "") ==> d == parse(v)
  {
    if IsNullish(v) || Trim(ToStr(v)) == "" then None else parse(v)
  }

  /** `{ $gte?, $lte? }` */
  datatype Range = Range(gte: Option<int>, lte: Option<int>)

  /** A date passes the filter when it respects every bound present. */
  predicate InRange(d: int, r: Range) {
    (r.gte.Some? ==> r.gte.value <= d) && (r.lte.Some? ==> d <= r.lte.value)
  }

  /** `buildCreatedAtRange({ from, to })`: a bound that is given but does not
      parse is a 400, as is a `from` after `to`; without any valid bound there
      is no filter. */
  function BuildCreatedAtRange(from: JsValue, to: JsValue, parse: DateParser): (r: Outcome<Option<Range>>)
    ensures r.Err? <==>
              || (Truthy(from) && ToDateOrNull(from, parse).None?)
              || (Truthy(to) && ToDateOrNull(to, parse).None?)
              || (ToDateOrNull(from, parse).Some? && ToDateOrNull(to, parse).Some?
                  && ToDateOrNull(from, parse).value > ToDateOrNull(to, parse).value)
    ensures r.Ok? ==> (r.value.None? <==> ToDateOrNull(from, parse).None? && ToDateOrNull(to, parse).None?)
    ensures r.Ok? && r.value.Some? ==>
              r.value.value == Range(ToDateOrNull(from, parse), ToDateOrNull(to, parse))
  {
    var fromDate := ToDateOrNull(from, parse);
    var toDate := ToDateOrNull(to, parse);
    if Truthy(from) && fromDate.None? then Err(Http(400, "Invalid 'from' date. Use ISO format."))
    else if Truthy(to) && toDate.None? then Err(Http(400, "Invalid 'to' date. Use ISO format."))
    else if fromDate.Some? && toDate.Some? && fromDate.value > toDate.value then Err(Http(400, "'from' must be <= 'to'."))
    else if fromDate.None? && toDate.None? then Ok(None)
    else Ok(Some(Range(fromDate, toDate)))
  }

  /** A range the builder accepts is never empty, and it admits exactly the
      dates between the given bounds: the `from` date itself passes when given,
      and so does the `to` date. */
  lemma RangeAdmitsItsBounds(from: JsValue, to: JsValue, parse: DateParser)
    requires BuildCreatedAtRange(from, to, parse).Ok? && BuildCreatedAtRange(from, to, parse).value.Some?
    ensures var r := BuildCreatedAtRange(from, to, parse).value.value;
            && (r.gte.Some? ==> InRange(r.gte.value, r))
            && (r.lte.Some? ==> InRange(r.lte.value, r))
            && exists d :: InRange(d, r)
  {
    var r := BuildCreatedAtRange(from, to, parse).value.value;
    if r.gte.Some? {
      assert InRange(r.gte.value, r);
    } else {
      assert InRange(r.lte.value, r);
    }
  }

  /** The checks run in order: an unparseable `from` is reported before an
      unparseable `to`, and both before the ordering check. */
  lemma RangeErrorOrder(from: JsValue, to: JsValue, parse: DateParser)
    ensures Truthy(from) && ToDateOrNull(from, parse).None? ==>
              BuildCreatedAtRange(from, to, parse) == Err(Http(400, "Invalid 'from' date. Use ISO format."))
    ensures !(Truthy(from) && ToDateOrNull(from, parse).None?) && Truthy(to) && ToDateOrNull(to, parse).None? ==>
              BuildCreatedAtRange(from, to, parse) == Err(Http(400, "Invalid 'to' date. Use ISO format."))
  {
  }
}
