/** The slice of the Wayland wire protocol the program touches: what the
    client does (in the order it does it) and the events it handles. Values
    the program never looks at (timestamps, keymaps, the serial of a key
    event) are left out of the events. */
module Protocol {
  import opened Base

  const CompositorInterface := "wl_compositor"
  const LayerShellInterface := "zwlr_layer_shell_v1"
  const SeatInterface := "wl_seat"

  /** `zwlr_layer_shell_v1::Layer`. */
  datatype Layer = Background | Bottom | Top | Overlay

  /** One edge of `zwlr_layer_surface_v1::Anchor`; an anchor is a set of them. */
  datatype Edge = TopEdge | BottomEdge | LeftEdge | RightEdge

  /** What the client does on the connection, in order. `Roundtrip` is a
      blocking `sync_roundtrip`: it sends a sync and dispatches every event
      that arrives before the answer, so the requests the handlers make
      during it follow it in a log. */
  datatype Action =
    | Connect
    | GetRegistry
    | Roundtrip
    | Bind(interface: string, version: nat)
    | CreateSurface
    | GetLayerSurface(layer: Layer, namespace: string)
    | SetSize(width: u32, height: u32)
    | SetAnchor(anchor: set<Edge>)
    | SetMargin(top: i32, right: i32, bottom: i32, left: i32)
    | SetKeyboardInteractivity(interactivity: u32)
    | AckConfigure(serial: u32)
    | Commit
    | GetKeyboard
    | DestroySurface

  /** `zwlr_layer_surface_v1::Event`; the enum is non-exhaustive, so a
      catch-all stands for events a newer protocol may add. */
  datatype LayerEvent = Configure(serial: u32, width: u32, height: u32) | Closed | OtherLayerEvent

  datatype KeyState = Released | Pressed

  /** `wl_keyboard::Event`. */
  datatype KeyboardEvent =
    | Keymap
    | Enter
    | Leave
    | Key(key: u32, state: KeyState)
    | Modifiers
    | RepeatInfo

  /** One flag of `wl_seat::Capability`. */
  datatype Capability = Pointer | Keyboard | Touch

  /** `wl_seat::Event`. */
  datatype SeatEvent = Capabilities(capabilities: set<Capability>) | Name(name: string)

  /** An event delivered to one of the client's handlers during a dispatch. */
  datatype Event = KeyboardEv(keyboard: KeyboardEvent) | SeatEv(seat: SeatEvent) | LayerEv(layer: LayerEvent)

  /** `instantiate_exact(version)` succeeds: the global is advertised at
      that version or a newer one. */
  predicate Advertises(globals: map<string, nat>, interface: string, version: nat) {
    interface in globals && version <= globals[interface]
  }
}
