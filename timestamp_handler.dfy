/**
 * `TimestampHandler`: the `timestamp without time zone` handler. The tick conversion
 * itself lives in the date/time utilities and is not part of this model; what is
 * modelled are the factory's guard, the kind a read yields, and the length checks
 * for both value types.
 */
module TimestampHandlers {
  import opened Wrappers

  datatype DateTimeKind = Unspecified | Utc | Local

  /** `DateTime` and `NpgsqlDateTime`: a tick count with a kind. */
  datatype DateTime = DateTime(ticks: int, kind: DateTimeKind)
  datatype NpgsqlDateTime = NpgsqlDateTime(ticks: int, kind: DateTimeKind)

  datatype TimestampHandler = TimestampHandler(convertInfinityDateTime: bool)

  /** The byte length of a timestamp on the wire. */
  const TimestampLength: int := 8

  /**
   * `TimestampHandlerFactory.Create`: databases with the legacy floating-point date/time
   * format are refused; otherwise the handler keeps the connection's infinity setting.
   */
  function Create(hasIntegerDateTimes: bool, convertInfinityDateTime: bool): (r: Result<TimestampHandler>)
    ensures r.Err? <==> !hasIntegerDateTimes
    ensures r.Err? ==> r.error == NotSupported
    ensures r.Ok? ==> r.value.convertInfinityDateTime == convertInfinityDateTime
  {
    if hasIntegerDateTimes then Ok(TimestampHandler(convertInfinityDateTime)) else Err(NotSupported)
  }

  /** Whether a value of this kind may be written to `timestamp without time zone`. */
  predicate KindWritable(legacyTimestampBehavior: bool, kind: DateTimeKind)
  {
    legacyTimestampBehavior || kind != Utc
  }

  /** `ValidateAndGetLength(DateTime)`: a UTC value is refused unless legacy behaviour is on; the length is 8. */
  function ValidateAndGetLength(legacyTimestampBehavior: bool, value: DateTime): (r: Result<int>)
    ensures r.Ok? <==> KindWritable(legacyTimestampBehavior, value.kind)
    ensures r.Err? ==> r.error == InvalidCast
    ensures r.Ok? ==> r.value == TimestampLength
  {
    if !legacyTimestampBehavior && value.kind == Utc then Err(InvalidCast) else Ok(8)
  }

  /** `ValidateAndGetLength(NpgsqlDateTime)`: the same rule for the provider-specific value. */
  function ValidateAndGetLengthPsv(legacyTimestampBehavior: bool, value: NpgsqlDateTime): (r: Result<int>)
    ensures r.Ok? <==> KindWritable(legacyTimestampBehavior, value.kind)
    ensures r.Err? ==> r.error == InvalidCast
    ensures r.Ok? ==> r.value == TimestampLength
  {
    if !legacyTimestampBehavior && value.kind == Utc then Err(InvalidCast) else Ok(8)
  }

  /** `Read`: the decoded ticks as a `DateTime` of unspecified kind. */
  function Read(handler: TimestampHandler, ticks: int): (r: DateTime)
    ensures r.kind == Unspecified
    ensures r.ticks == ticks
  {
    DateTime(ticks, Unspecified)
  }

  /** Both overloads apply the same rule to values of the same kind. */
  lemma OverloadsAgree(legacy: bool, ticks: int, kind: DateTimeKind)
    ensures ValidateAndGetLength(legacy, DateTime(ticks, kind)) == ValidateAndGetLengthPsv(legacy, NpgsqlDateTime(ticks, kind))
  {
  }

  /** A value read from a timestamp column can always be written back, whatever the legacy switch says. */
  lemma ReadValueWritable(handler: TimestampHandler, legacy: bool, ticks: int)
    ensures ValidateAndGetLength(legacy, Read(handler, ticks)) == Ok(TimestampLength)
  {
  }
}
