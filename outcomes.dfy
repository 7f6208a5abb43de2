/** What the Go functions return: nil, an error, or a run-time panic. */
module Outcomes {

  datatype Option<+T> = None | Some(value: T)

  /** The errors the display code and the simulated driver return, one
      constructor per `fmt.Errorf` site (or per error passed through unchanged).
      Causes coming from code outside the model are opaque strings. */
  datatype Error =
    | NotInitialized                         // "driver has not been initialized"
    | LineOutOfRange(line: int, available: int) // "request to draw on line %d but display only has %d lines"
    | TooManyLines(available: int)           // "text requires more than %d lines"
    | WouldOverflow                          // "text would overflow display"
    | DeviceInitFailed(cause: string)        // "failed to initialize device: %w"
    | DrawFailed(cause: string)              // "failed to draw on display: %w"
    | ImageDrawFailed(cause: string)         // "failed to draw image on display: %w"
    | Passed(cause: string)                  // an error of a collaborator returned as it is
    | BufferFileUndefined                    // "bufferFile is undefined"
    | BufferFileFailed(inner: Error)         // "failed to initialized from buffer file: %w"
    | HostInitFailed(cause: string)          // "failed to initialize display: %w"
    | BusOpenFailed(bus: string, cause: string) // "failed to open i2c bus %s: %w"
    | Ssd1306InitFailed(cause: string)       // "failed to initialize ssd1306: %w"
    | DisplayNotOpen                         // simulated driver: "display not initialized"

  /** Run-time panics the Go code can reach. */
  datatype PanicReason =
    | IndexOutOfRange        // a slice index outside 0 <= i < len
    | NilDereference         // a method called through a nil pointer or interface
    | SliceTooLarge          // make([]string, n) with n beyond the range of int

  datatype Outcome = Ok | Fail(error: Error) | Panic(reason: PanicReason)

  /** The result of a call whose only failure is an error from a collaborator. */
  function FromCause(err: Option<string>): (r: Outcome)
    ensures r.Ok? <==> err.None?
    ensures err.Some? ==> r == Fail(Passed(err.value))
  {
    match err
    case None => Ok
    case Some(e) => Fail(Passed(e))
  }
}
