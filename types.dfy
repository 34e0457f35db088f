/**
 * The scalar data types that the auto-cast rules and the DESCRIBE TABLE
 * interpreter talk about, and the error codes of the query engine that the
 * model needs.
 */
module Types {

  datatype NumberDataType =
    | UInt8 | UInt16 | UInt32 | UInt64
    | Int8 | Int16 | Int32 | Int64
    | Float32 | Float64

  datatype DataType =
    | Boolean
    | String
    | Number(num: NumberDataType)
    | Timestamp
    | Date
    | Variant
    | Nullable(inner: DataType)

  /** The integer members of NumberDataType, in declaration order. */
  const AllIntegerTypes: seq<NumberDataType> :=
    [UInt8, UInt16, UInt32, UInt64, Int8, Int16, Int32, Int64]

  predicate IsInteger(n: NumberDataType) {
    !n.Float32? && !n.Float64?
  }

  /** Strips one Nullable wrapper, leaving every other type alone. */
  function RemoveNullable(t: DataType): DataType
  {
    if t.Nullable? then t.inner else t
  }

  datatype ErrorCode =
    | Internal(message: string)
    /** An error raised by a collaborator outside the model (planner, JSON decoding). */
    | Other(name: string, message: string)
}
