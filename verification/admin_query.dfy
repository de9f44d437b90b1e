/** The query-string parsing of the admin user listing: `page`, `limit`,
    `includeGuests` and `search`. A parse error becomes a 400 answer and the
    listing service is never asked. JavaScript's `Number()` coercion of a
    query string is a parameter: only its result is modelled. */
module AdminQuery {
  import opened Wrappers
  import opened JsText
  import opened SheetSchema

  /** A query parameter as Express hands it over: missing, given once, or
      repeated. */
  datatype QueryValue = Missing | One(text: string) | Many(items: seq<string>)

  /** `Array.isArray(value) ? value[0] : value`; an empty array yields
      `undefined`. */
  function FirstText(v: QueryValue): (r: Option<string>)
    ensures v.One? ==> r == Some(v.text)
    ensures v.Many? && v.items != [] ==> r == Some(v.items[0])
    ensures v.Missing? || v == Many([]) ==> r.None?
  {
    match v
    case Missing => None
    case One(text) => Some(text)
    case Many(items) => if items == [] then None else Some(items[0])
  }

  /** `String(x)`, which spells `undefined` out. */
  function AsString(o: Option<string>): string {
    if o.Some? then o.value else "undefined"
  }

  const NotNumeric: string := "Parâmetro numérico inválido"
  const NotBoolean: string := "Parâmetro booleano inválido"

  function OutOfRange(min: int, max: int): string {
    "Parâmetro fora do intervalo permitido (" + IntToString(min) + "-" + IntToString(max) + ")"
  }

  /** `Number(rawValue)`: the coerced first value, `NaN` for `undefined`. */
  function Coerced(v: QueryValue, toNumber: string -> Number): Number {
    var raw := FirstText(v);
    if raw.Some? then toNumber(raw.value) else NaN
  }

  /** `parseInteger`: the fallback when the parameter is missing, otherwise
      the coerced first value when it is an integer within `[min, max]`. */
  function ParseInteger(v: QueryValue, fallback: int, min: int, max: int, toNumber: string -> Number)
    : (r: Result<int, string>)
  {
    if v.Missing? then Success(fallback)
    else
      var parsed := Coerced(v, toNumber);
      if !parsed.IsInteger() then Failure(NotNumeric)
      else if parsed.value.Floor < min || parsed.value.Floor > max then Failure(OutOfRange(min, max))
      else Success(parsed.value.Floor)
  }

  /** A missing parameter gives the fallback, even outside the range; a
      present one succeeds exactly when it coerces to an integer in range,
      and then it is that integer; a non-integer and an out-of-range value
      fail with their two messages. */
  lemma ParseIntegerSpec(v: QueryValue, fallback: int, min: int, max: int, toNumber: string -> Number)
    ensures v.Missing? ==> ParseInteger(v, fallback, min, max, toNumber) == Success(fallback)
    ensures !v.Missing? ==> var n := Coerced(v, toNumber); var r := ParseInteger(v, fallback, min, max, toNumber);
      && (r.Success? <==> n.IsInteger() && min as real <= n.value <= max as real)
      && (r.Success? ==> r.value as real == n.value && min <= r.value <= max)
      && (!n.IsInteger() ==> r == Failure(NotNumeric))
      && (n.IsInteger() && !(min as real <= n.value <= max as real) ==> r == Failure(OutOfRange(min, max)))
  {
  }

  /** Only the first of repeated values counts. */
  lemma ParseIntegerFirstOfMany(first: string, rest: seq<string>, fallback: int, min: int, max: int,
                                toNumber: string -> Number)
    ensures ParseInteger(Many([first] + rest), fallback, min, max, toNumber)
         == ParseInteger(One(first), fallback, min, max, toNumber)
  {
  }

  /** `parseBoolean`: `true`/`1` and `false`/`0` after lower-casing and
      trimming; anything else is an error. */
  function ParseBoolean(v: QueryValue, fallback: bool): (r: Result<bool, string>)
  {
    if v.Missing? then Success(fallback)
    else
      var raw := Trim(ToLower(AsString(FirstText(v))));
      if raw == "true" || raw == "1" then Success(true)
      else if raw == "false" || raw == "0" then Success(false)
      else Failure(NotBoolean)
  }

  /** The four accepted spellings and nothing else, each with its value. */
  lemma ParseBooleanSpec(v: QueryValue, fallback: bool)
    ensures v.Missing? ==> ParseBoolean(v, fallback) == Success(fallback)
    ensures !v.Missing? ==> var raw := Trim(ToLower(AsString(FirstText(v)))); var r := ParseBoolean(v, fallback);
      && (r == Success(true) <==> raw in ["true", "1"])
      && (r == Success(false) <==> raw in ["false", "0"])
      && (r.Failure? <==> raw !in ["true", "1", "false", "0"])
      && (r.Failure? ==> r.error == NotBoolean)
  {
  }

  /** Case does not matter: an upper-case spelling parses like its
      lower-case form. */
  lemma ParseBooleanIgnoresCase(text: string, fallback: bool)
    ensures ParseBoolean(One(text), fallback) == ParseBoolean(One(ToLower(text)), fallback)
  {
    ToLowerIdempotent(text);
  }

  /** `parseSearch`: the trimmed text cut to 120 UTF-16 units, or nothing
      for a missing or blank parameter. */
  function ParseSearch(v: QueryValue): (r: Option<string>)
  {
    if v.Missing? then None
    else
      var raw := Trim(AsString(FirstText(v)));
      if raw == "" then None else Some(Utf16Prefix(raw, 120))
  }

  /** A search is present exactly when the parameter has a non-blank first
      value; it is then a non-empty prefix of the trimmed text of at most 120
      units, and the whole trimmed text when that fits. */
  lemma ParseSearchSpec(v: QueryValue)
    ensures var r := ParseSearch(v); var raw := Trim(AsString(FirstText(v)));
      && (r.Some? <==> !v.Missing? && !AllWhitespace(AsString(FirstText(v))))
      && (r.Some? ==> r.value != "" && r.value <= raw && Utf16Length(r.value) <= 120)
      && (r.Some? && Utf16Length(raw) <= 120 ==> r.value == raw)
  {
    TrimEmptyIff(AsString(FirstText(v)));
  }

  /** The parsed listing query. */
  datatype UsersQuery = UsersQuery(page: int, limit: int, search: Option<string>, includeGuests: bool)

  /** `parseUsersQuery`: `page` in 1..100000 (default 1), `limit` in 1..100
      (default 20), `includeGuests` (default true), `search`; the first
      failure, in that order, is the error. */
  function ParseUsersQuery(page: QueryValue, limit: QueryValue, includeGuests: QueryValue, search: QueryValue,
                           toNumber: string -> Number): (r: Result<UsersQuery, string>)
  {
    var p := ParseInteger(page, 1, 1, 100000, toNumber);
    if p.Failure? then Failure(p.error)
    else
      var l := ParseInteger(limit, 20, 1, 100, toNumber);
      if l.Failure? then Failure(l.error)
      else
        var g := ParseBoolean(includeGuests, true);
        if g.Failure? then Failure(g.error)
        else Success(UsersQuery(p.value, l.value, ParseSearch(search), g.value))
  }

  /** A parsed query always has a page and a limit in range, and the empty
      query is page 1 of 20 rows, guests included, no search. */
  lemma UsersQueryBounds(page: QueryValue, limit: QueryValue, includeGuests: QueryValue, search: QueryValue,
                         toNumber: string -> Number)
    ensures var r := ParseUsersQuery(page, limit, includeGuests, search, toNumber);
      r.Success? ==> 1 <= r.value.page <= 100000 && 1 <= r.value.limit <= 100
    ensures ParseUsersQuery(Missing, Missing, Missing, Missing, toNumber) == Success(UsersQuery(1, 20, None, true))
  {
    ParseIntegerSpec(page, 1, 1, 100000, toNumber);
    ParseIntegerSpec(limit, 20, 1, 100, toNumber);
  }

  /** The answer of the listing endpoint. */
  datatype ListResponse<L> = Listed(listing: L) | BadRequest(error: string)

  /** `listUsers`: a query that does not parse is a 400 and the service's
      answer plays no part; otherwise the answer is the service's answer for
      the parsed query, its failure also a 400. */
  method ListUsers<L>(page: QueryValue, limit: QueryValue, includeGuests: QueryValue, search: QueryValue,
                      toNumber: string -> Number, service: UsersQuery -> Result<L, string>)
    returns (r: ListResponse<L>)
    ensures var q := ParseUsersQuery(page, limit, includeGuests, search, toNumber);
      && (q.Failure? ==> r == BadRequest(q.error))
      && (q.Success? ==>
            r == (if service(q.value).Success? then Listed(service(q.value).value)
                     else BadRequest(service(q.value).error)))
  {
    var q := ParseUsersQuery(page, limit, includeGuests, search, toNumber);
    if q.Failure? {
      return BadRequest(q.error);
    }
    var answer := service(q.value);
    if answer.Failure? {
      r := BadRequest(answer.error);
    } else {
      r := Listed(answer.value);
    }
  }
}
