/** The interface both interpreter adapters implement: the status codes of
    third_party/tflm_wrapper.h. */
module TflmApi {

  datatype Status = Ok | Error | InvalidArgument | OutOfMemory

  /** The enum value the C interface gives each status. */
  function Code(s: Status): (c: int)
    ensures 0 <= c <= 3
    ensures c == 0 <==> s == Ok
  {
    match s
    case Ok => 0
    case Error => 1
    case InvalidArgument => 2
    case OutOfMemory => 3
  }

  /** Distinct statuses have distinct codes. */
  lemma CodeInjective(s: Status, t: Status)
    requires Code(s) == Code(t)
    ensures s == t
  {
  }
}
