/**
 * `PgConverterResolver`: converter resolutions, their validation, and the composing
 * resolver that wraps an effective converter, caching one wrapper per effective
 * converter reference.
 */
module ConverterResolvers {
  import opened Wrappers
  import opened ClrTypes

  /** `PgTypeId`: an OID or a data type name; `DefaultTypeId` is the struct's default value. */
  datatype PgTypeId = Oid(oid: nat) | DataTypeName(name: string) | DefaultTypeId
  {
    predicate IsOid() { Oid? }
    predicate IsDataTypeName() { DataTypeName? }
  }

  /** A converter's identity; a composed converter wraps an effective one. */
  datatype Converter =
    | BaseConverter(id: nat, typeToConvert: ClrType)
    | Composed(serial: nat, inner: Converter, typeToConvert: ClrType)

  /** `PgConverterResolution`; `converter` is `None` when a resolver returned a null converter. */
  datatype Resolution = Resolution(converter: Option<Converter>, pgTypeId: PgTypeId)

  /** `Field`: a column's name, type id and modifier. */
  datatype Field = Field(name: string, pgTypeId: PgTypeId, typeModifier: int)

  /** What `PgTypeInfo` contributes to resolution: whether to validate, and which id form is canonical. */
  datatype TypeInfoOptions = TypeInfoOptions(validateResolution: bool, portableTypeIds: bool)

  /**
   * The id checks of `Validate`: the id is in canonical form (a data type name when
   * portable ids are expected, an OID otherwise) and equals the expected id when one is given.
   */
  predicate CanonicalFor(id: PgTypeId, expectedId: Option<PgTypeId>, expectPortable: bool)
  {
    && !(expectPortable && id.IsOid())
    && !(!expectPortable && id.IsDataTypeName())
    && (expectedId.Some? ==> id == expectedId.value)
  }

  /**
   * `Validate`: a resolution must have a converter, of the resolver's type unless that is
   * `object`; its id must be in canonical form (a data type name when portable ids are
   * expected, an OID otherwise); and it must equal the expected id when one is given.
   */
  function Validate(resolution: Resolution, expectedType: ClrType, expectedId: Option<PgTypeId>, expectPortable: bool)
    : (r: Result<Unit>)
    ensures r.Err? ==> r.error == InvalidOperation
    ensures r.Ok? <==>
              resolution.converter.Some?
              && (expectedType == Object || resolution.converter.value.typeToConvert == expectedType)
              && !(expectPortable && resolution.pgTypeId.IsOid())
              && !(!expectPortable && resolution.pgTypeId.IsDataTypeName())
              && (expectedId.Some? ==> resolution.pgTypeId == expectedId.value)
    ensures resolution.converter.Some? && resolution.converter.value.typeToConvert == expectedType ==>
              (r.Ok? <==> CanonicalFor(resolution.pgTypeId, expectedId, expectPortable))
  {
    if resolution.converter.None? then Err(InvalidOperation)
    else if expectedType != Object && resolution.converter.value.typeToConvert != expectedType then Err(InvalidOperation)
    else if (expectPortable && resolution.pgTypeId.IsOid()) || (!expectPortable && resolution.pgTypeId.IsDataTypeName()) then
      Err(InvalidOperation)
    else if expectedId.Some? && resolution.pgTypeId != expectedId.value then Err(InvalidOperation)
    else Ok(Unit)
  }

  /** An `object` resolver accepts a converter of any type. */
  lemma ValidateObjectAcceptsAnyType(c: Converter, id: PgTypeId, expectPortable: bool)
    requires if expectPortable then id.DataTypeName? else id.Oid?
    ensures Validate(Resolution(Some(c), id), Object, None, expectPortable).Ok?
  {
  }

  /** The default type id counts as canonical in both forms. */
  lemma ValidateDefaultIdIsCanonical(c: Converter, expectPortable: bool)
    ensures Validate(Resolution(Some(c), DefaultTypeId), c.typeToConvert, None, expectPortable).Ok?
  {
  }

  /** The constructor's check: no outer id is allowed only when the effective info has none either. */
  function ConstructorCheck(pgTypeId: Option<PgTypeId>, effectivePgTypeId: Option<PgTypeId>): (r: Result<Unit>)
    ensures r.Err? <==> pgTypeId.None? && effectivePgTypeId.Some?
    ensures r.Err? ==> r.error == ArgumentNull
  {
    if pgTypeId.None? && effectivePgTypeId.Some? then Err(ArgumentNull) else Ok(Unit)
  }

  /** `PgResolverTypeInfo` of the effective (inner) type, as the composing resolver uses it. */
  datatype EffectiveInfo<!T> = EffectiveInfo(
    pgTypeId: Option<PgTypeId>,
    getDefaultResolution: Option<PgTypeId> -> Resolution,
    getResolution: (T, Option<PgTypeId>) -> Resolution,
    getFieldResolution: Field -> Resolution)

  /**
   * `PgComposingConverterResolver<T>`. The hooks a concrete resolver overrides are
   * function-valued constants; `cache` is the identity-keyed `_converters` dictionary and
   * `built` counts the wrappers `CreateConverter` has made.
   */
  class ComposingResolver<!V, !T> {
    const fixedId: Option<PgTypeId>
    const effective: EffectiveInfo<T>
    const typeToConvert: ClrType
    /** `GetEffectivePgTypeId` */
    const toEffective: PgTypeId -> PgTypeId
    /** `GetPgTypeId` */
    const fromEffective: PgTypeId -> PgTypeId
    /** `GetEffectiveResolution` */
    const effectiveResolution: (V, Option<PgTypeId>) -> Option<Resolution>
    var cache: map<Converter, Converter>
    var built: nat

    /** Every cached wrapper wraps its key, is of the resolver's type, and was built with a serial below `built`. */
    ghost predicate Valid()
      reads this
    {
      forall k | k in cache ::
        cache[k].Composed? && cache[k].inner == k && cache[k].typeToConvert == typeToConvert && cache[k].serial < built
    }

    constructor (fixedId: Option<PgTypeId>, effective: EffectiveInfo<T>, typeToConvert: ClrType,
                 toEffective: PgTypeId -> PgTypeId, fromEffective: PgTypeId -> PgTypeId,
                 effectiveResolution: (V, Option<PgTypeId>) -> Option<Resolution>)
      requires ConstructorCheck(fixedId, effective.pgTypeId).Ok?
      ensures Valid() && cache == map[] && built == 0
      ensures this.fixedId == fixedId && this.effective == effective && this.typeToConvert == typeToConvert
      ensures this.toEffective == toEffective && this.fromEffective == fromEffective
      ensures this.effectiveResolution == effectiveResolution
    {
      this.fixedId := fixedId;
      this.effective := effective;
      this.typeToConvert := typeToConvert;
      this.toEffective := toEffective;
      this.fromEffective := fromEffective;
      this.effectiveResolution := effectiveResolution;
      cache := map[];
      built := 0;
    }

    /** `GetEffectiveTypeId`: the fixed outer id maps to the effective info's own id, anything else through the hook. */
    function GetEffectiveTypeId(id: PgTypeId): (r: PgTypeId)
      ensures fixedId == Some(id) ==> r == effective.pgTypeId.GetOr(DefaultTypeId)
      ensures fixedId != Some(id) ==> r == toEffective(id)
    {
      if fixedId == Some(id) then effective.pgTypeId.GetOr(DefaultTypeId) else toEffective(id)
    }

    function OuterId(given: Option<PgTypeId>, effectiveId: PgTypeId): (r: PgTypeId)
      ensures given.Some? ==> r == given.value
      ensures given.None? && fixedId.Some? ==> r == fixedId.value
      ensures given.None? && fixedId.None? ==> r == fromEffective(effectiveId)
    {
      if given.Some? then given.value else if fixedId.Some? then fixedId.value else fromEffective(effectiveId)
    }

    /**
     * `GetOrAdd`: the wrapper cached for this inner converter reference, built by
     * `CreateConverter` only the first time that reference is seen. A null inner
     * converter is a null dictionary key.
     */
    method GetOrAdd(effectiveResolution: Resolution) returns (r: Result<Converter>)
      requires Valid()
      modifies this
      ensures Valid()
      ensures effectiveResolution.converter.None? ==> r == Err(ArgumentNull) && cache == old(cache) && built == old(built)
      ensures effectiveResolution.converter.Some? ==>
                var inner := effectiveResolution.converter.value;
                r.Ok? && r.value.Composed? && r.value.inner == inner && r.value.typeToConvert == typeToConvert
                && inner in cache && cache[inner] == r.value
                && (inner in old(cache) ==> r.value == old(cache)[inner] && cache == old(cache) && built == old(built))
                && (inner !in old(cache) ==> r.value.serial == old(built) && built == old(built) + 1
                                             && cache == old(cache)[inner := r.value])
    {
      if effectiveResolution.converter.None? {
        return Err(ArgumentNull);
      }
      var inner := effectiveResolution.converter.value;
      if inner in cache {
        return Ok(cache[inner]);
      }
      var wrapper := Composed(built, inner, typeToConvert);
      cache := cache[inner := wrapper];
      built := built + 1;
      return Ok(wrapper);
    }

    /** `GetDefault`: the outer id is the given id, else the fixed id, else the one mapped back from the effective resolution. */
    method GetDefault(id: Option<PgTypeId>) returns (r: Result<Resolution>)
      requires Valid()
      modifies this
      ensures Valid()
      ensures var effRes := effective.getDefaultResolution(if id.Some? then Some(GetEffectiveTypeId(id.value)) else None);
              (r.Ok? <==> effRes.converter.Some?)
              && (r.Err? ==> r.error == ArgumentNull)
              && (r.Ok? ==> r.value.pgTypeId == OuterId(id, effRes.pgTypeId)
                            && r.value.converter.Some? && r.value.converter.value.Composed? && r.value.converter.value.inner == effRes.converter.value
                            && r.value.converter.value.typeToConvert == typeToConvert)
    {
      var effId := if id.Some? then Some(GetEffectiveTypeId(id.value)) else None;
      var effRes := effective.getDefaultResolution(effId);
      var c := GetOrAdd(effRes);
      if c.Err? {
        return Err(c.error);
      }
      return Ok(Resolution(Some(c.value), OuterId(id, effRes.pgTypeId)));
    }

    /** `Get(value, expected)`: no resolution when the effective resolution is null, else as `GetDefault`. */
    method Get(value: V, expected: Option<PgTypeId>) returns (r: Result<Option<Resolution>>)
      requires Valid()
      modifies this
      ensures Valid()
      ensures var effRes := effectiveResolution(value, if expected.Some? then Some(GetEffectiveTypeId(expected.value)) else None);
              (effRes.None? ==> r == Ok(None) && cache == old(cache))
              && (effRes.Some? && effRes.value.converter.Some? ==>
                    r.Ok? && r.value.Some? && r.value.value.pgTypeId == OuterId(expected, effRes.value.pgTypeId)
                    && r.value.value.converter.Some? && r.value.value.converter.value.Composed? && r.value.value.converter.value.inner == effRes.value.converter.value
                    && r.value.value.converter.value.typeToConvert == typeToConvert)
              && (effRes.Some? && effRes.value.converter.None? ==> r == Err(ArgumentNull))
    {
      var expectedEff := if expected.Some? then Some(GetEffectiveTypeId(expected.value)) else None;
      var effRes := effectiveResolution(value, expectedEff);
      if effRes.None? {
        return Ok(None);
      }
      var c := GetOrAdd(effRes.value);
      if c.Err? {
        return Err(c.error);
      }
      return Ok(Some(Resolution(Some(c.value), OuterId(expected, effRes.value.pgTypeId))));
    }

    /** `Get(field)`: resolves the field with its effective id; the result carries the field's own id. */
    method GetField(field: Field) returns (r: Result<Resolution>)
      requires Valid()
      modifies this
      ensures Valid()
      ensures var effRes := effective.getFieldResolution(field.(pgTypeId := GetEffectiveTypeId(field.pgTypeId)));
              (r.Ok? <==> effRes.converter.Some?)
              && (r.Err? ==> r.error == ArgumentNull)
              && (r.Ok? ==> r.value.pgTypeId == field.pgTypeId
                            && r.value.converter.Some? && r.value.converter.value.Composed? && r.value.converter.value.inner == effRes.converter.value
                            && r.value.converter.value.typeToConvert == typeToConvert)
    {
      var effRes := effective.getFieldResolution(field.(pgTypeId := GetEffectiveTypeId(field.pgTypeId)));
      var c := GetOrAdd(effRes);
      if c.Err? {
        return Err(c.error);
      }
      return Ok(Resolution(Some(c.value), field.pgTypeId));
    }

    /** `GetDefaultInternal`: validates against the requested id only when asked to. */
    method GetDefaultInternal(validate: bool, expectPortable: bool, id: Option<PgTypeId>) returns (r: Result<Resolution>)
      requires Valid()
      modifies this
      ensures Valid()
      ensures r.Ok? && validate ==> Validate(r.value, typeToConvert, id, expectPortable).Ok?
      ensures var effRes := effective.getDefaultResolution(if id.Some? then Some(GetEffectiveTypeId(id.value)) else None);
              var outer := OuterId(id, effRes.pgTypeId);
              && (effRes.converter.None? ==> r == Err(ArgumentNull))
              && (effRes.converter.Some? && validate && !CanonicalFor(outer, id, expectPortable) ==> r == Err(InvalidOperation))
              && (effRes.converter.Some? && !(validate && !CanonicalFor(outer, id, expectPortable)) ==>
                    && r.Ok? && r.value.pgTypeId == outer && r.value.converter.Some?
                    && r.value.converter.value.Composed? && r.value.converter.value.inner == effRes.converter.value
                            && r.value.converter.value.typeToConvert == typeToConvert)
    {
      r := GetDefault(id);
      if r.Ok? && validate {
        var v := Validate(r.value, typeToConvert, id, expectPortable);
        if v.Err? {
          return Err(v.error);
        }
      }
    }

    /** `GetInternal(typeInfo, field)`: validates against the field's id when the type info asks for it. */
    method GetFieldInternal(info: TypeInfoOptions, field: Field) returns (r: Result<Resolution>)
      requires Valid()
      modifies this
      ensures Valid()
      ensures r.Ok? && info.validateResolution ==>
                Validate(r.value, typeToConvert, Some(field.pgTypeId), info.portableTypeIds).Ok?
      ensures var effRes := effective.getFieldResolution(field.(pgTypeId := GetEffectiveTypeId(field.pgTypeId)));
              var rejected := info.validateResolution && !CanonicalFor(field.pgTypeId, Some(field.pgTypeId), info.portableTypeIds);
              && (effRes.converter.None? ==> r == Err(ArgumentNull))
              && (effRes.converter.Some? && rejected ==> r == Err(InvalidOperation))
              && (effRes.converter.Some? && !rejected ==>
                    && r.Ok? && r.value.pgTypeId == field.pgTypeId && r.value.converter.Some?
                    && r.value.converter.value.Composed? && r.value.converter.value.inner == effRes.converter.value
                            && r.value.converter.value.typeToConvert == typeToConvert)
    {
      r := GetField(field);
      if r.Ok? && info.validateResolution {
        var v := Validate(r.value, typeToConvert, Some(field.pgTypeId), info.portableTypeIds);
        if v.Err? {
          return Err(v.error);
        }
      }
    }

    /** `GetInternal(typeInfo, value, expected)`: a null resolution passes through unvalidated. */
    method GetInternal(info: TypeInfoOptions, value: V, expected: Option<PgTypeId>) returns (r: Result<Option<Resolution>>)
      requires Valid()
      modifies this
      ensures Valid()
      ensures r.Ok? && r.value.Some? && info.validateResolution ==>
                Validate(r.value.value, typeToConvert, expected, info.portableTypeIds).Ok?
      ensures var effId := if expected.Some? then Some(GetEffectiveTypeId(expected.value)) else None;
              var effRes := effectiveResolution(value, effId);
              && (effRes.None? ==> r == Ok(None))
              && (effRes.Some? && effRes.value.converter.None? ==> r == Err(ArgumentNull))
              && (effRes.Some? && effRes.value.converter.Some? ==>
                    var outer := OuterId(expected, effRes.value.pgTypeId);
                    var rejected := info.validateResolution && !CanonicalFor(outer, expected, info.portableTypeIds);
                    && (rejected ==> r == Err(InvalidOperation))
                    && (!rejected ==>
                          && r.Ok? && r.value.Some? && r.value.value.pgTypeId == outer
                          && r.value.value.converter.Some? && r.value.value.converter.value.Composed?
                          && r.value.value.converter.value.inner == effRes.value.converter.value))
    {
      r := Get(value, expected);
      if r.Ok? && r.value.Some? && info.validateResolution {
        var v := Validate(r.value.value, typeToConvert, expected, info.portableTypeIds);
        if v.Err? {
          return Err(v.error);
        }
      }
    }
  }
}
