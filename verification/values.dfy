/**
 * The dynamically typed values `parse_arguments` stores in its `std::any`
 * map, and the type names it accepts in its declarations map.
 */
module Values {
  import opened Base
  import opened Numbers

  /** A `float` as an IEEE-754 bit pattern; floating-point arithmetic is not modelled. */
  datatype Float32 = Float32(bits: bv32)

  /** A `double` as an IEEE-754 bit pattern. */
  datatype Float64 = Float64(bits: bv64)

  /**
   * What a `std::any` in the argument map can hold. `VCharPtr` is the
   * `char*` the program name is stored as: a different dynamic type from
   * `std::string`, which `VString` holds.
   */
  datatype Value =
    | VInt(i: Int32)
    | VUnsigned(u: UInt32)
    | VULong(ul: UInt64)
    | VFloat(f: Float32)
    | VDouble(d: Float64)
    | VBool(b: bool)
    | VString(s: string)
    | VCharPtr(p: string)

  /** The dynamic type of a value: what `std::any::type()` reports. */
  datatype Kind = KInt | KUnsigned | KULong | KFloat | KDouble | KBool | KString | KCharPtr

  function KindOf(v: Value): Kind
  {
    match v
    case VInt(_) => KInt
    case VUnsigned(_) => KUnsigned
    case VULong(_) => KULong
    case VFloat(_) => KFloat
    case VDouble(_) => KDouble
    case VBool(_) => KBool
    case VString(_) => KString
    case VCharPtr(_) => KCharPtr
  }

  /** The conversions a declared type name selects; any name not recognised means "store the text". */
  datatype TypeTag = TagInt | TagUnsigned | TagULong | TagFloat | TagDouble | TagBool | TagString

  /** The canonical name of each tag, as written in a declarations map. */
  function TagName(t: TypeTag): string
  {
    match t
    case TagInt => "int"
    case TagUnsigned => "unsigned"
    case TagULong => "unsigned long"
    case TagFloat => "float"
    case TagDouble => "double"
    case TagBool => "bool"
    case TagString => "string"
  }

  /**
   * The tag a declared type name selects, by the chain of exact,
   * case-sensitive comparisons in `parse_arguments`: a name is either the
   * canonical name of its tag or falls through to `TagString`.
   */
  function TagOf(name: string): (t: TypeTag)
    ensures TagName(t) == name || t == TagString
    ensures t == TagString ==> forall u :: u != TagString ==> TagName(u) != name
  {
    if name == "int" then TagInt
    else if name == "unsigned" then TagUnsigned
    else if name == "unsigned long" then TagULong
    else if name == "float" then TagFloat
    else if name == "double" then TagDouble
    else if name == "bool" then TagBool
    else TagString
  }

  /** The kind of value a successful conversion under tag `t` stores. */
  function TagKind(t: TypeTag): Kind
  {
    match t
    case TagInt => KInt
    case TagUnsigned => KUnsigned
    case TagULong => KULong
    case TagFloat => KFloat
    case TagDouble => KDouble
    case TagBool => KBool
    case TagString => KString
  }
}
