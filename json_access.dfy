/**
 * The strict JsonElement accessors the entity mappers call: GetProperty, GetString and
 * GetDecimal, and Guid.Parse applied to what GetString returned. Each fails with the
 * exception the library throws; none of them defaults a value.
 */
module JsonAccess {
  import opened Wrappers
  import opened Exceptions
  import opened Json
  import opened Guids
  import opened Runtime

  /** JsonElement.GetProperty: InvalidOperation on a non-object, KeyNotFound for a missing name. */
  function GetProperty(element: Json, name: string): (r: Result<Json, Exception>)
    ensures r.Success? <==> element.JObj? && name in element.members
    ensures r.Success? ==> r.value == element.members[name]
    ensures r.Failure? ==> r.error == (if element.JObj? then KeyNotFoundException(name) else InvalidOperationException)
  {
    if !element.JObj? then Failure(InvalidOperationException)
    else if name !in element.members then Failure(KeyNotFoundException(name))
    else Success(element.members[name])
  }

  /** JsonElement.GetString: the text of a string, null (None) for a JSON null, InvalidOperation otherwise. */
  function GetString(element: Json): (r: Result<Option<string>, Exception>)
    ensures r.Success? <==> element.JStr? || element.JNull?
    ensures r.Success? ==> r.value == (if element.JStr? then Some(element.s) else None)
    ensures r.Failure? ==> r.error == InvalidOperationException
  {
    match element
    case JStr(s) => Success(Some(s))
    case JNull => Success(None)
    case _ => Failure(InvalidOperationException)
  }

  /** JsonElement.GetDecimal: InvalidOperation on a non-number, FormatException where the number does not fit. */
  function GetDecimal(element: Json): (r: Result<Decimal, Exception>)
    ensures r.Success? <==> element.JNum? && element.n.decimal.Some?
    ensures r.Success? ==> r.value == element.n.decimal.value
    ensures r.Failure? ==> r.error == (if element.JNum? then FormatException else InvalidOperationException)
  {
    match element
    case JNum(n) => if n.decimal.Some? then Success(n.decimal.value) else Failure(FormatException)
    case _ => Failure(InvalidOperationException)
  }

  /** Guid.Parse: ArgumentNull for null, FormatException for text it does not accept. */
  function ParseGuid(p: Platform, text: Option<string>): (r: Result<Guid, Exception>)
    ensures r.Success? <==> text.Some? && p.parseGuid(text.value).Some?
    ensures r.Success? ==> r.value == p.parseGuid(text.value).value
    ensures r.Failure? ==> r.error == (if text.Some? then FormatException else ArgumentNullException)
  {
    match text
    case None => Failure(ArgumentNullException)
    case Some(s) => if p.parseGuid(s).Some? then Success(p.parseGuid(s).value) else Failure(FormatException)
  }

  /** `Guid.Parse(element.GetProperty(name).GetString())`, stopping at the first failure. */
  function PropertyGuid(p: Platform, element: Json, name: string): (r: Result<Guid, Exception>)
    ensures r.Success? <==> (element.JObj? && name in element.members && element.members[name].JStr?
                             && p.parseGuid(element.members[name].s).Some?)
    ensures r.Success? ==> r.value == p.parseGuid(element.members[name].s).value
  {
    match GetProperty(element, name)
    case Failure(e) => Failure(e)
    case Success(v) =>
      match GetString(v)
      case Failure(e) => Failure(e)
      case Success(text) => ParseGuid(p, text)
  }

  /** `element.GetProperty(name).GetString()`: a string or a JSON null (None); anything else throws. */
  function PropertyString(element: Json, name: string): (r: Result<Option<string>, Exception>)
    ensures r.Success? <==> (element.JObj? && name in element.members
                             && (element.members[name].JStr? || element.members[name].JNull?))
    ensures r.Success? ==> r.value == (if element.members[name].JStr? then Some(element.members[name].s) else None)
    ensures r.Failure? ==>
              r.error == (if element.JObj? && name !in element.members then KeyNotFoundException(name)
                          else InvalidOperationException)
  {
    match GetProperty(element, name)
    case Failure(e) => Failure(e)
    case Success(v) => GetString(v)
  }
}
