/** The process-wide shutdown flag of src/draw.rs. The `Mutex` around it is
    only defensive under single-threaded dispatch, so the model treats the
    flag as a plain value threaded through the handlers. */
module Shutdown {

  datatype Status = Running | Closing

  /** The value the flag holds when the process starts. */
  const Initial: Status := Running

  /** `s` is at least as far along as `t`: the only move is Running to Closing. */
  predicate AtLeast(s: Status, t: Status) {
    t == Running || s == Closing
  }

  /** What every handler does to the flag: it either leaves it alone or
      writes `Closing`. No handler ever writes `Running`. */
  function Raise(s: Status, close: bool): (r: Status)
    ensures AtLeast(r, s)
    ensures r == Closing <==> s == Closing || close
  {
    if close then Closing else s
  }
}
