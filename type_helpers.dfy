/**
 * Type normalisation and classification (TypeHelpers): strip a Nullable<> wrapper and test
 * membership in the two closed sets of numeric and date types.
 */
module TypeHelpers {
  import opened Wrappers

  /**
   * The CLR value types the helpers name, plus any other struct (enums, user structs, ...).
   * `OtherStruct(name)` stands only for a struct not listed here: each CLR type has exactly one
   * descriptor, so `OtherStruct("Int32")` is not a way of writing `Int32`.
   */
  datatype StructKind =
    | Byte | SByte | Decimal | Double | Single
    | Int32 | UInt32 | Int64 | UInt64 | Int16 | UInt16
    | DateTime | DateTimeOffset | DateOnly
    | Boolean | Char
    | OtherStruct(name: string)

  /**
   * A type descriptor. `NullableOf` wraps a non-nullable value type only, as Nullable<T> does
   * (`where T : struct`), so a nullable of a nullable cannot be written. `ClassType(name)` stands
   * only for a reference type other than string, which is `StringType`.
   */
  datatype TypeDesc =
    | Struct(kind: StructKind)
    | NullableOf(underlying: StructKind)
    | StringType
    | ClassType(name: string)

  /** The `_numericTypes` array, in source order. */
  const NumericTypes: seq<TypeDesc> :=
    [Struct(Byte), Struct(SByte), Struct(Decimal), Struct(Double), Struct(Single),
     Struct(Int32), Struct(UInt32), Struct(Int64), Struct(UInt64), Struct(Int16), Struct(UInt16)]

  /** The `_dateTypes` array, in source order. */
  const DateTypes: seq<TypeDesc> := [Struct(DateTime), Struct(DateTimeOffset), Struct(DateOnly)]

  /** Nullable.GetUnderlyingType(type) ?? type, for a non-null type. */
  function Unwrap(t: TypeDesc): (r: TypeDesc)
    ensures !r.NullableOf?
    ensures t.NullableOf? ==> r == Struct(t.underlying)
    ensures !t.NullableOf? ==> r == t
  {
    match t
    case NullableOf(k) => Struct(k)
    case _ => t
  }

  /** GetType(Type): rejects a null type, otherwise unwraps it. */
  function GetType(t: Option<TypeDesc>): (r: Result<TypeDesc, ArgumentError>)
    ensures t.None? <==> r == Failure(ArgumentNull("type"))
    ensures t.Some? ==> r == Success(Unwrap(t.value))
  {
    match t
    case None => Failure(ArgumentNull("type"))
    case Some(ty) => Success(Unwrap(ty))
  }

  /** GetType<T>(): typeof(T) is never null, so this one never fails. */
  function GetTypeOf(t: TypeDesc): (r: TypeDesc)
    ensures GetType(Some(t)) == Success(r)
  {
    Unwrap(t)
  }

  /** Is<T>(type): typeof(T) compared with the unwrapped `type`; `target` is typeof(T). */
  function Is(target: TypeDesc, t: Option<TypeDesc>): (r: Result<bool, ArgumentError>)
    ensures t.None? ==> r == Failure(ArgumentNull("type"))
    ensures t.Some? ==> r == Success(target == Unwrap(t.value))
  {
    match GetType(t)
    case Failure(e) => Failure(e)
    case Success(u) => Success(target == u)
  }

  /** IsNumeric(type): the unwrapped type is one of `_numericTypes`. */
  function IsNumeric(t: Option<TypeDesc>): (r: Result<bool, ArgumentError>)
    ensures t.None? ==> r == Failure(ArgumentNull("type"))
    ensures t.Some? ==> r.Success?
  {
    match GetType(t)
    case Failure(e) => Failure(e)
    case Success(u) => Success(u in NumericTypes)
  }

  /** IsDate(type): the unwrapped type is one of `_dateTypes`. */
  function IsDate(t: Option<TypeDesc>): (r: Result<bool, ArgumentError>)
    ensures t.None? ==> r == Failure(ArgumentNull("type"))
    ensures t.Some? ==> r.Success?
  {
    match GetType(t)
    case Failure(e) => Failure(e)
    case Success(u) => Success(u in DateTypes)
  }

  /** The eleven numeric kinds, stated independently of the array. */
  predicate NumericKind(k: StructKind) {
    match k
    case Byte | SByte | Decimal | Double | Single | Int32 | UInt32 | Int64 | UInt64 | Int16 | UInt16 => true
    case _ => false
  }

  /** The three date kinds, stated independently of the array. */
  predicate DateKind(k: StructKind) {
    k == DateTime || k == DateTimeOffset || k == DateOnly
  }

  /** The value type a descriptor names, with or without its Nullable<> wrapper. */
  function StructKindOf(t: TypeDesc): Option<StructKind> {
    match t
    case Struct(k) => Some(k)
    case NullableOf(k) => Some(k)
    case _ => None
  }

  /** Normalising an already normalised type changes nothing. */
  lemma GetTypeIdempotent(t: TypeDesc)
    ensures GetType(Some(GetTypeOf(t))) == Success(GetTypeOf(t))
    ensures GetTypeOf(GetTypeOf(t)) == GetTypeOf(t)
  {
  }

  /** IsNumeric holds exactly for the eleven numeric kinds and their nullable forms. */
  lemma IsNumericExactly(t: TypeDesc)
    ensures IsNumeric(Some(t)) == Success(StructKindOf(t).Some? && NumericKind(StructKindOf(t).value))
  {
  }

  /** IsDate holds exactly for DateTime, DateTimeOffset and DateOnly and their nullable forms. */
  lemma IsDateExactly(t: TypeDesc)
    ensures IsDate(Some(t)) == Success(StructKindOf(t).Some? && DateKind(StructKindOf(t).value))
  {
  }

  /** No type is both numeric and a date. */
  lemma NumericAndDateDisjoint(t: TypeDesc)
    ensures !(IsNumeric(Some(t)) == Success(true) && IsDate(Some(t)) == Success(true))
  {
    IsNumericExactly(t);
    IsDateExactly(t);
  }

  /** Is<V> accepts V and V?, and Is<V?> holds of no type at all. */
  lemma IsComparesUnwrapped(k: StructKind, t: TypeDesc)
    ensures Is(Struct(k), Some(Struct(k))) == Success(true)
    ensures Is(Struct(k), Some(NullableOf(k))) == Success(true)
    ensures Is(NullableOf(k), Some(t)) == Success(false)
  {
  }
}
