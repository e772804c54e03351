/** The slice of the .NET type system that the coercion code inspects by
    reflection, as a closed set of values: the type argument `T` of Get<T> and
    TryGet<T>, the boxed objects a data reader hands out, and the exceptions
    thrown along the way. */
module ClrTypes {
  import opened Wrappers

  /** An enumeration type whose underlying type is int: its name and its
      members, each a name and the int it stands for. */
  datatype EnumType = EnumType(name: string, members: seq<(string, int)>)

  /** The name of a value type that is neither int, long nor an enumeration
      (bool, decimal, double, DateTime, Guid, ...): Int32 and Int64 have
      constructors of their own, so a boxed int is never spelled `Boxed`. */
  type StructName = name: string | name != "Int32" && name != "Int64" witness "Boolean"

  /** A non-nullable value type (`t.IsValueType`). */
  datatype ValueType =
    | Int32
    | Int64
    | OtherStruct(name: StructName)
    | Enum(enum: EnumType)

  /** `typeof(T)` for the type argument of a typed read. */
  datatype Target =
    | Text                         // string
    | Struct(vt: ValueType)        // a non-nullable value type
    | Nullable(inner: ValueType)   // Nullable<inner>
    | Reference(name: string)      // any reference type other than string

  /** A boxed object as `object` sees it. In a cell, `Null` is DBNull.Value. */
  datatype Value =
    | Null                           // null, an empty Nullable<T>, or DBNull in a cell
    | Str(s: string)
    | I32(n: int)
    | I64(n: int)
    | Boxed(typeName: StructName, bits: int)  // a value of OtherStruct(typeName); its contents encoded as an int
    | EnumValue(enum: EnumType, n: int)
    | Instance(className: string, id: int) // an object of a reference type other than string

  /** The exceptions the modelled code throws or lets through. */
  datatype Error =
    | ArgumentNull(paramName: string)   // ArgumentNullException
    | InvalidCast                       // InvalidCastException
    | NullReference                     // NullReferenceException (unboxing null, calling a null delegate)
    | NotAnEnumType                     // ArgumentException from Enum.Parse: "Type provided must be an Enum"
    | DuplicateKey                      // ArgumentException from Dictionary.Add: the key is already present
    | KeyNotFound                       // KeyNotFoundException from a dictionary indexer
    | IndexOutOfRange                   // IndexOutOfRangeException from a reader's ordinal or name lookup
    | InvalidOperation                  // InvalidOperationException
    | LibraryError(description: string) // FormatException, OverflowException, ... from Convert or Enum.Parse

  /** `v.GetType()` when it is a non-nullable value type. */
  function ValueTypeOf(v: Value): Option<ValueType> {
    match v
    case I32(_) => Some(Int32)
    case I64(_) => Some(Int64)
    case Boxed(name, _) => Some(OtherStruct(name))
    case EnumValue(e, _) => Some(Enum(e))
    case _ => None
  }

  /** `t.IsAssignableFrom(v.GetType())` for a value type `t`: value types are
      sealed, so only the type itself is assignable to it. */
  predicate IsAssignable(t: ValueType, v: Value) {
    ValueTypeOf(v) == Some(t)
  }

  /** `v` is a legal value of a variable of type `T`. */
  predicate HasType(v: Value, ty: Target) {
    match ty
    case Text => v.Null? || v.Str?
    case Struct(vt) => ValueTypeOf(v) == Some(vt)
    case Nullable(vt) => v.Null? || ValueTypeOf(v) == Some(vt)
    case Reference(name) => v.Null? || (v.Instance? && v.className == name)
  }

  /** `default(T)`. */
  function Default(ty: Target): (r: Value)
    ensures HasType(r, ty)
    ensures ty.Struct? <==> r != Null
  {
    match ty
    case Struct(Int32) => I32(0)
    case Struct(Int64) => I64(0)
    case Struct(OtherStruct(name)) => Boxed(name, 0)
    case Struct(Enum(e)) => EnumValue(e, 0)
    case _ => Null
  }
}
