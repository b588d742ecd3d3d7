/** Primitive types and exceptions shared by every layer of the gateway. */
module Common {
  import opened Wrappers

  /** A C# `int`: 32-bit two's complement. */
  newtype Int32 = x: int | -0x8000_0000 <= x < 0x8000_0000

  /** A C# `Guid`: 128 bits; `Guid.Empty` is all zeros. */
  datatype Guid = Guid(bits: bv128)

  const EmptyGuid: Guid := Guid(0)

  /** A C# `string`, which may be null. */
  type NullableString = Option<string>

  /** `string.IsNullOrEmpty`. */
  predicate IsNullOrEmpty(s: NullableString) {
    s.None? || s.value == ""
  }

  /** Text of the runtime's NullReferenceException. */
  const NullReferenceText: string := "Object reference not set to an instance of an object."

  /** Text of the ArgumentOutOfRangeException thrown by `Substring` for a negative start index. */
  const StartIndexText: string := "StartIndex cannot be less than zero. (Parameter 'startIndex')"

  /**
   * The exceptions the core can throw: the two runtime ones it may trigger
   * by accident, the HTTP client's failure to reach the bank, the JSON
   * reader's failure to read the bank's answer, and the gateway's own
   * RepositoryException and ServiceException.
   */
  datatype Exception =
    | NullReference
    | ArgumentOutOfRange
    | HttpRequestException(text: string)
    | JsonException(text: string)
    | RepositoryException(text: string)
    | ServiceException(text: string)

  /** `Exception.Message`. */
  function Message(e: Exception): string {
    match e
    case NullReference => NullReferenceText
    case ArgumentOutOfRange => StartIndexText
    case HttpRequestException(t) => t
    case JsonException(t) => t
    case RepositoryException(t) => t
    case ServiceException(t) => t
  }
}
