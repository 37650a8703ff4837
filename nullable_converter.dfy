/**
 * `NullableConverter<T>`: lifts a struct converter to `T?` by delegating to it; a
 * null value is never written here (the caller writes the -1 length), and the
 * buffer requirements are widened because a null value takes no bytes.
 */
module NullableConverters {
  import opened Wrappers
  import opened Sizes
  import opened Wire
  import opened ConverterResolvers

  datatype DataFormat = Binary | Text

  /** `BufferRequirements`: the sizes needed to read and to write one value. */
  datatype BufferRequirements = BufferRequirements(read: Size, write: Size)

  /** The effective `PgConverter<T>`, as the behaviour the nullable converter delegates to. */
  datatype InnerConverter<!T> = InnerConverter(
    customDbNullPredicate: bool,
    isDbNull: T -> bool,
    canConvert: DataFormat -> (bool, BufferRequirements),
    read: seq<byte> -> T,
    getSize: T -> Size,
    write: T -> seq<byte>,
    defaultValue: T)

  /** The inner converter writes exactly the bytes it sized and reads them back. */
  ghost predicate RoundTrips<T(!new)>(inner: InnerConverter<T>)
  {
    forall x: T :: inner.read(inner.write(x)) == x
  }

  /** The nullable converter has a custom null predicate exactly when the inner one does. */
  function CustomDbNullPredicate<T>(inner: InnerConverter<T>): (r: bool)
    ensures r == inner.customDbNullPredicate
  {
    inner.customDbNullPredicate
  }

  /** `IsDbNullValue`: null, or a value the inner converter considers null. */
  function IsDbNullValue<T>(inner: InnerConverter<T>, value: Option<T>): (r: bool)
    ensures value.None? ==> r
    ensures value.Some? ==> (r <==> inner.isDbNull(value.value))
  {
    value.None? || inner.isDbNull(value.value)
  }

  /** An Exact requirement becomes an UpperBound with the same count; Unknown stays Unknown. */
  function Widen(s: Size): (r: Size)
    ensures r.IsKnown() <==> s.IsKnown()
    ensures s.IsKnown() ==> r.kind == UpperBound && r.byteCount == s.byteCount
    ensures !s.IsKnown() ==> r == UnknownSize
  {
    if s.kind == Unknown then UnknownSize else CreateUpperBound(s.byteCount)
  }

  /** Widening twice is widening once. */
  lemma WidenIdempotent(s: Size)
    ensures Widen(Widen(s)) == Widen(s)
  {
  }

  /** A widened requirement still bounds every inner size it covered. */
  lemma WidenBounds(s: Size, n: int)
    requires s.IsKnown() && n <= s.byteCount
    ensures Widen(s).Value().Ok? && n <= Widen(s).Value().value
  {
  }

  /** `CanConvert`: the inner answer, with both requirements widened. */
  function CanConvert<T>(inner: InnerConverter<T>, format: DataFormat): (r: (bool, BufferRequirements))
    ensures r.0 == inner.canConvert(format).0
    ensures r.1.read == Widen(inner.canConvert(format).1.read)
    ensures r.1.write == Widen(inner.canConvert(format).1.write)
  {
    var (ok, reqs) := inner.canConvert(format);
    (ok, BufferRequirements(Widen(reqs.read), Widen(reqs.write)))
  }

  /** `Read`: delegated; reading never produces null (nulls are handled by the caller). */
  function Read<T>(inner: InnerConverter<T>, bytes: seq<byte>): (r: Option<T>)
    ensures r.Some? && r.value == inner.read(bytes)
  {
    Some(inner.read(bytes))
  }

  /** `GetSize`: a known buffer requirement is returned as an Exact size; otherwise the inner size of the value or its default. */
  function GetSize<T>(inner: InnerConverter<T>, bufferRequirement: Size, value: Option<T>): (r: Size)
    ensures bufferRequirement.IsKnown() ==> r == Create(bufferRequirement.byteCount)
    ensures !bufferRequirement.IsKnown() && value.Some? ==> r == inner.getSize(value.value)
    ensures !bufferRequirement.IsKnown() && value.None? ==> r == inner.getSize(inner.defaultValue)
  {
    if bufferRequirement.kind != Unknown then Create(bufferRequirement.byteCount)
    else inner.getSize(value.GetOr(inner.defaultValue))
  }

  /** `Write`: delegated with `GetValueOrDefault`, so a null reaching it writes the default value. */
  function Write<T>(inner: InnerConverter<T>, value: Option<T>): (r: seq<byte>)
    ensures value.Some? ==> r == inner.write(value.value)
    ensures value.None? ==> r == inner.write(inner.defaultValue)
  {
    inner.write(value.GetOr(inner.defaultValue))
  }

  /** Every non-null value survives a write and a read through the nullable converter. */
  lemma NullableRoundTrip<T(!new)>(inner: InnerConverter<T>, x: T)
    requires RoundTrips(inner)
    ensures Read(inner, Write(inner, Some(x))) == Some(x)
  {
  }

  /** A null value that reaches `Write` comes back as the default value, not as null. */
  lemma NullWriteReadsDefault<T(!new)>(inner: InnerConverter<T>)
    requires RoundTrips(inner)
    ensures Read(inner, Write(inner, None)) == Some(inner.defaultValue)
  {
  }

  /**
   * `NullableConverterResolver.GetEffectiveResolution`: a null value takes the default
   * resolution, any other value the inner resolution of the value.
   */
  function EffectiveResolution<T>(effective: EffectiveInfo<T>, value: Option<T>, expected: Option<PgTypeId>)
    : (r: Option<Resolution>)
    ensures r.Some?
    ensures value.None? ==> r.value == effective.getDefaultResolution(expected)
    ensures value.Some? ==> r.value == effective.getResolution(value.value, expected)
  {
    if value.None? then Some(effective.getDefaultResolution(expected))
    else Some(effective.getResolution(value.value, expected))
  }

  function Identity(id: PgTypeId): (r: PgTypeId)
    ensures r == id
  {
    id
  }

  /**
   * The resolver is built with the effective type's own id, the identity id mappings and
   * the resolution above; its constructor check cannot fail (`NullableResolverConstructs`).
   */
  method NewNullableResolver<T>(effective: EffectiveInfo<T>, nullableType: ClrTypes.ClrType) returns (r: ComposingResolver<Option<T>, T>)
    ensures fresh(r) && r.Valid() && r.fixedId == effective.pgTypeId && r.cache == map[] && r.typeToConvert == nullableType
    ensures forall id :: r.toEffective(id) == id && r.fromEffective(id) == id
    ensures forall v, e :: r.effectiveResolution(v, e) == EffectiveResolution(effective, v, e)
  {
    NullableResolverConstructs(effective);
    r := new ComposingResolver(effective.pgTypeId, effective, nullableType, Identity, Identity,
                               (v, e) => EffectiveResolution(effective, v, e));
  }

  /** The nullable resolver never fails its constructor check: it passes the effective id as its own. */
  lemma NullableResolverConstructs<T>(effective: EffectiveInfo<T>)
    ensures ConstructorCheck(effective.pgTypeId, effective.pgTypeId).Ok?
  {
  }

  /** With identity mappings, the nullable resolver's effective type id is the id it was asked for. */
  lemma NullableEffectiveTypeIdIsIdentity<T>(r: ComposingResolver<Option<T>, T>, id: PgTypeId)
    requires forall i :: r.toEffective(i) == i
    requires r.fixedId == r.effective.pgTypeId
    ensures r.GetEffectiveTypeId(id) == id
  {
  }
}
