/**
 * Values shared by every part of the model: the Option/Result/Outcome
 * wrappers, the handful of Ruby values the glue code inspects, and the
 * exceptions it raises.
 */
module Values {

  datatype Option<+T> = None | Some(value: T)

  datatype Result<+T, +E> = Success(value: T) | Failure(error: E)

  /** The outcome of a Ruby call whose return value does not matter: it returned, or it raised. */
  datatype Outcome<+E> = Pass | Fail(error: E)

  /**
   * The Ruby values the glue distinguishes. Only `nil` and `false` are
   * falsy; the C code compares with `Qnil` (NIL_P) and `Qfalse`.
   * An arbitrary object (a handler document, an IO, ...) is `Obj(id)`.
   */
  datatype Value = Nil | False | True | Int(n: int) | Str(s: string) | Obj(id: nat)
  {
    /** Ruby truthiness: everything except nil and false. */
    predicate Truthy() { !(Nil? || False?) }
  }

  /** Messages raised as RuntimeError by the C extension. */
  const Uninitialized: string := "Parser is Uninitialized."
  const NoContext: string := "Could not create a parser context"
  const UnsupportedEncoding: string := "Unsupported encoding"
  const CannotSetOptions: string := "Cannot set XML parser context options"
  const EmptyData: string := "data cannot be empty"

  /** The message of a bare `raise ArgumentError`: Ruby uses the class name. */
  const BareArgumentError: string := "ArgumentError"

  /** The exceptions raised by the modelled code. */
  datatype Raise =
    | ArgumentError(message: string)
    | RuntimeError(message: string)
    | RangeError                    // NUM2INT on an Integer outside the C int range
    | NoSuchFile                    // Errno::ENOENT
    | IsADirectory                  // Errno::EISDIR
    | Rethrow(tag: int)             // rb_jump_tag(status): the handler's exception, re-raised
    | SyntaxError(message: string)  // Nokogiri_error_raise of the tokenizer's last error
    | Foreign                       // raised by code outside this model

  /** The C `int` range; `NUM2INT` raises RangeError outside it. */
  predicate IsInt32(n: int) { -0x8000_0000 <= n < 0x8000_0000 }
}
