/** Vocabulary shared by every part of the model: the machine integer widths
    the program uses, optional values, and the two ways a Rust call can go
    wrong — a returned error (`Err`, propagated with `?`) and a panic
    (`unwrap`, `expect`, `panic!`, `unreachable!`, an out-of-bounds index),
    which ends the process. */
module Base {

  type u16 = x: int | 0 <= x < 0x1_0000
  type u32 = x: int | 0 <= x < 0x1_0000_0000
  type i32 = x: int | -0x8000_0000 <= x < 0x8000_0000
  type usize = x: int | 0 <= x < 0x1_0000_0000_0000_0000

  /** `a - b` on `u16` as a release build computes it: modulo 2^16. */
  function WrappingSub16(a: u16, b: u16): (r: u16)
    ensures r == (a - b) % 0x1_0000
  {
    if b <= a then a - b else a - b + 0x1_0000
  }

  datatype Option<+T> = None | Some(value: T)

  /** The places where the program panics, named after what went wrong. */
  datatype Fatal =
    | StrayEvent                // an event reached the `unreachable!()` callback
    | GlobalMissing(interface: string, version: nat)
    | SizeRefused               // the compositor configured another size
    | SpawnFailed               // `Window::spawn(..).unwrap()` saw an error
    | NoGraphicsQueue
    | DeviceCreationFailed
    | SurfaceCreationFailed
    | CapabilitiesUnavailable
    | NoCompositeAlpha
    | NoSurfaceFormat           // `supported_formats[0]` on an empty list
    | SwapchainCreationFailed

  /** What a fallible Rust call ends in: a value, a returned error, or a panic. */
  datatype Outcome<+T, +E> = Ok(value: T) | Err(error: E) | Abort(fatal: Fatal)

  /** What a callback that cannot return an error ends in: it returns, or it panics. */
  datatype Panicking<+T> = Return(value: T) | Panic(fatal: Fatal)
}
