/** The layer-shell window of src/draw/window.rs: `Window::spawn` and the
    handler it registers on the layer surface. The compositor is a value
    describing what it will do: accept the connection or not, which globals
    it advertises, and which layer-surface events each round-trip delivers. */
module Window {
  import opened Base
  import opened Shutdown
  import opened Protocol

  const Namespace := "infolauncher"

  datatype Size = Size(width: u32, height: u32)

  /** The compositor `spawn` talks to. */
  datatype Server = Server(
    accepts: bool,                      // `Display::connect_to_env` succeeds
    globals: map<string, nat>,          // advertised interface -> version
    strayEvents: bool,                  // the registry round-trip delivers an event no filter claims
    configureBatch: seq<LayerEvent>,    // delivered by the round-trip before the commit
    commitBatch: seq<LayerEvent>)       // delivered by the round-trip after the commit

  datatype Cause = ConnectError

  /** `WindowError::Todo(Box<dyn Error>)`: every error is wrapped the same way. */
  datatype WindowError = Todo(cause: Cause)

  /** What the rest of the program uses of a spawned window: the size it
      asked for (which its layer handler keeps checking) and the globals. */
  datatype Window = Window(requested: Size, globals: map<string, nat>)

  /** The result of `spawn`, with the shutdown flag and the actions taken so
      far (also when it failed or panicked part-way). */
  datatype Spawned = Spawned(result: Outcome<Window, WindowError>, status: Status, log: seq<Action>)

  /** The closure `spawn` assigns to the layer surface. A configure of any
      size other than the requested one panics; a matching one is
      acknowledged with its own serial; `Closed` raises the shutdown flag;
      anything else changes nothing. */
  function OnLayerEvent(requested: Size, status: Status, e: LayerEvent): (r: Panicking<(Status, seq<Action>)>)
    ensures r.Panic? <==> e.Configure? && Size(e.width, e.height) != requested
    ensures r.Panic? ==> r.fatal == SizeRefused
    ensures e.Configure? && r.Return? ==> r.value == (status, [AckConfigure(e.serial)])
    ensures e.Closed? ==> r == Return((Closing, []))
    ensures e.OtherLayerEvent? ==> r == Return((status, []))
  {
    match e
    case Configure(serial, givenWidth, givenHeight) =>
      if (givenWidth, givenHeight) != (requested.width, requested.height) then Panic(SizeRefused)
      else Return((status, [AckConfigure(serial)]))
    case Closed => Return((Raise(status, true), []))
    case OtherLayerEvent => Return((status, []))
  }

  /** The handler run over the events of one dispatch, in order; the first
      panic ends the process. */
  function DeliverLayer(requested: Size, status: Status, es: seq<LayerEvent>): Panicking<(Status, seq<Action>)>
    decreases |es|
  {
    if |es| == 0 then Return((status, []))
    else
      match OnLayerEvent(requested, status, es[0])
      case Panic(f) => Panic(f)
      case Return(first) =>
        match DeliverLayer(requested, first.0, es[1..])
        case Panic(f) => Panic(f)
        case Return(rest) => Return((rest.0, first.1 + rest.1))
  }

  // ----- reference definitions the handler is proved against --------------

  /** `e` is a configure that does not grant the requested size. */
  predicate Refuses(requested: Size, e: LayerEvent) {
    e.Configure? && Size(e.width, e.height) != requested
  }

  /** Every configure in `es` grants the requested size. */
  predicate Granted(requested: Size, es: seq<LayerEvent>) {
    forall i :: 0 <= i < |es| ==> !Refuses(requested, es[i])
  }

  predicate HasClosed(es: seq<LayerEvent>) {
    exists i :: 0 <= i < |es| && es[i].Closed?
  }

  /** One acknowledgement per configure, with its serial, in order. */
  function Acks(es: seq<LayerEvent>): (r: seq<Action>)
    ensures |r| <= |es|
    ensures forall a :: a in r ==> a.AckConfigure?
  {
    if |es| == 0 then []
    else (if es[0].Configure? then [AckConfigure(es[0].serial)] else []) + Acks(es[1..])
  }

  lemma {:induction false} AcksAppend(a: seq<LayerEvent>, b: seq<LayerEvent>)
    ensures Acks(a + b) == Acks(a) + Acks(b)
    decreases |a|
  {
    if |a| > 0 {
      var head := if a[0].Configure? then [AckConfigure(a[0].serial)] else [];
      assert (a + b)[0] == a[0];
      assert (a + b)[1..] == a[1..] + b;
      AcksAppend(a[1..], b);
      calc {
        Acks(a + b);
        head + Acks(a[1..] + b);
        head + (Acks(a[1..]) + Acks(b));
        (head + Acks(a[1..])) + Acks(b);
        Acks(a) + Acks(b);
      }
    } else {
      assert a + b == b;
    }
  }

  lemma HasClosedAppend(a: seq<LayerEvent>, b: seq<LayerEvent>)
    ensures HasClosed(a + b) <==> HasClosed(a) || HasClosed(b)
  {
    if HasClosed(a + b) {
      var i :| 0 <= i < |a + b| && (a + b)[i].Closed?;
      if i >= |a| {
        assert b[i - |a|] == (a + b)[i];
      }
    }
    if HasClosed(a) {
      var i :| 0 <= i < |a| && a[i].Closed?;
      assert (a + b)[i] == a[i];
    }
    if HasClosed(b) {
      var i :| 0 <= i < |b| && b[i].Closed?;
      assert (a + b)[i + |a|] == b[i];
    }
  }

  /** The handler over a whole dispatch: it panics exactly when some
      configure refuses the requested size, and then with `SizeRefused`;
      otherwise it acknowledges every configure with its own serial, in
      order, and leaves the flag `Closing` exactly when it was already or a
      `Closed` event arrived. */
  lemma {:induction false} DeliverLayerSpec(requested: Size, status: Status, es: seq<LayerEvent>)
    ensures DeliverLayer(requested, status, es).Return? <==> Granted(requested, es)
    ensures DeliverLayer(requested, status, es).Panic? ==> DeliverLayer(requested, status, es).fatal == SizeRefused
    ensures Granted(requested, es) ==>
      DeliverLayer(requested, status, es).value == (Raise(status, HasClosed(es)), Acks(es))
    decreases |es|
  {
    if |es| > 0 {
      var r := OnLayerEvent(requested, status, es[0]);
      if r.Return? {
        DeliverLayerSpec(requested, r.value.0, es[1..]);
        assert Granted(requested, es) <==> Granted(requested, es[1..]) by {
          if Granted(requested, es[1..]) {
            forall i | 0 <= i < |es| && es[i].Configure?
              ensures Size(es[i].width, es[i].height) == requested
            {
              if i > 0 { assert es[i] == es[1..][i - 1]; }
            }
          }
        }
        assert HasClosed(es) <==> es[0].Closed? || HasClosed(es[1..]) by {
          if HasClosed(es) {
            var i :| 0 <= i < |es| && es[i].Closed?;
            if i > 0 { assert es[1..][i - 1].Closed?; }
          }
        }
      }
    }
  }

  /** The index of the first configure refusing the requested size. */
  function FirstRefused(requested: Size, es: seq<LayerEvent>): (k: nat)
    requires !Granted(requested, es)
    ensures k < |es| && Refuses(requested, es[k])
    ensures forall j :: 0 <= j < k ==> !Refuses(requested, es[j])
    decreases |es|
  {
    if Refuses(requested, es[0]) then 0
    else
      assert !Granted(requested, es[1..]) by {
        var i :| 0 <= i < |es| && Refuses(requested, es[i]);
        assert es[1..][i - 1] == es[i];
      }
      var k := FirstRefused(requested, es[1..]);
      assert forall j :: 1 <= j < k + 1 ==> es[j] == es[1..][j - 1];
      1 + k
  }

  /** Where a round-trip that refuses the size stands when the handler
      panics: the handler run over the events before the first refused
      configure. Those events do not panic; running one event further does.
      The flag is then as they left it, and the acknowledgements are theirs. */
  function UntilRefused(requested: Size, status: Status, es: seq<LayerEvent>): (r: (Status, seq<Action>))
    requires !Granted(requested, es)
    ensures var k := FirstRefused(requested, es);
      && DeliverLayer(requested, status, es[..k]) == Return(r)
      && DeliverLayer(requested, status, es[..k + 1]).Panic?
      && (r.0 == Closing <==> status == Closing || HasClosed(es[..k]))
      && r.1 == Acks(es[..k])
  {
    var k := FirstRefused(requested, es);
    assert Granted(requested, es[..k]);
    DeliverLayerSpec(requested, status, es[..k]);
    assert es[..k + 1][k] == es[k];
    DeliverLayerSpec(requested, status, es[..k + 1]);
    DeliverLayer(requested, status, es[..k]).value
  }

  /** `Window::spawn(width, height, offset_top, offset_left)`. */
  function Spawn(width: u32, height: u32, offsetTop: i32, offsetLeft: i32, server: Server, status: Status): Spawned {
    if !server.accepts then Spawned(Err(Todo(ConnectError)), status, [])
    else
      var registry := [Connect, GetRegistry, Roundtrip];
      if server.strayEvents then Spawned(Abort(StrayEvent), status, registry)
      else if !Advertises(server.globals, CompositorInterface, 1) then
        Spawned(Abort(GlobalMissing(CompositorInterface, 1)), status, registry)
      else
        var surface := registry + [Bind(CompositorInterface, 1), CreateSurface];
        if !Advertises(server.globals, LayerShellInterface, 1) then
          Spawned(Abort(GlobalMissing(LayerShellInterface, 1)), status, surface)
        else
          var requested := Size(width, height);
          var configured := surface + [
            Bind(LayerShellInterface, 1),
            GetLayerSurface(Top, Namespace),
            SetSize(width, height),
            SetAnchor({TopEdge}),
            SetMargin(offsetTop, 0, 0, offsetLeft),
            SetKeyboardInteractivity(1),
            Roundtrip];
          match DeliverLayer(requested, status, server.configureBatch)
          case Panic(f) =>
            DeliverLayerSpec(requested, status, server.configureBatch);
            var (seen, acks) := UntilRefused(requested, status, server.configureBatch);
            Spawned(Abort(f), seen, configured + acks)
          case Return(first) =>
            var committed := configured + first.1 + [Commit, Roundtrip];
            match DeliverLayer(requested, first.0, server.commitBatch)
            case Panic(f) =>
              DeliverLayerSpec(requested, first.0, server.commitBatch);
              var (seen, acks) := UntilRefused(requested, first.0, server.commitBatch);
              Spawned(Abort(f), seen, committed + acks)
            case Return(second) =>
              Spawned(Ok(Window(requested, server.globals)), second.0, committed + second.1)
  }

  /** The actions `spawn` takes before the first configure can arrive:
      connect, fetch the globals, bind the compositor and the layer shell at
      version 1, create the surface and ask for a top-layer surface of the
      requested size, anchored to the top edge, with the given top and left
      margins and keyboard interactivity on, then round-trip. */
  function SetupActions(width: u32, height: u32, offsetTop: i32, offsetLeft: i32): seq<Action> {
    [Connect, GetRegistry, Roundtrip,
     Bind(CompositorInterface, 1), CreateSurface,
     Bind(LayerShellInterface, 1), GetLayerSurface(Top, Namespace),
     SetSize(width, height), SetAnchor({TopEdge}), SetMargin(offsetTop, 0, 0, offsetLeft),
     SetKeyboardInteractivity(1), Roundtrip]
  }

  /** A compositor that cannot be reached yields the wrapped error, not a
      panic, and nothing else happens. */
  lemma SpawnConnectFailure(width: u32, height: u32, offsetTop: i32, offsetLeft: i32, server: Server, status: Status)
    requires !server.accepts
    ensures Spawn(width, height, offsetTop, offsetLeft, server, status) == Spawned(Err(Todo(ConnectError)), status, [])
  {
  }

  /** `spawn` succeeds exactly when the compositor is reachable, sends
      nothing stray during the registry round-trip, advertises both globals,
      and grants the requested size in every configure it sends. Then the
      actions are the setup, the acknowledgements of the configures received
      before the commit, the commit with its round-trip, and the
      acknowledgements of the configures received after it; the flag is
      `Closing` exactly when it was or a `Closed` event arrived. */
  lemma SpawnSucceeds(width: u32, height: u32, offsetTop: i32, offsetLeft: i32, server: Server, status: Status)
    ensures var s := Spawn(width, height, offsetTop, offsetLeft, server, status);
      var requested := Size(width, height);
      && (s.result.Ok? <==>
            && server.accepts && !server.strayEvents
            && Advertises(server.globals, CompositorInterface, 1)
            && Advertises(server.globals, LayerShellInterface, 1)
            && Granted(requested, server.configureBatch) && Granted(requested, server.commitBatch))
      && (s.result.Ok? ==>
            && s.result.value == Window(requested, server.globals)
            && s.log == SetupActions(width, height, offsetTop, offsetLeft)
                        + Acks(server.configureBatch) + [Commit, Roundtrip] + Acks(server.commitBatch)
            && s.status == Raise(status, HasClosed(server.configureBatch + server.commitBatch)))
  {
    var requested := Size(width, height);
    DeliverLayerSpec(requested, status, server.configureBatch);
    if DeliverLayer(requested, status, server.configureBatch).Return? {
      var first := DeliverLayer(requested, status, server.configureBatch).value;
      DeliverLayerSpec(requested, first.0, server.commitBatch);
      HasClosedAppend(server.configureBatch, server.commitBatch);
    }
  }

  /** A configure of the wrong size before the commit is fatal: `spawn`
      panics with `SizeRefused` having acknowledged only the configures that
      came before the first refused one, never that one, and never commits
      the surface; a `Closed` among those earlier events has already raised
      the flag. */
  lemma SpawnRefusedSize(width: u32, height: u32, offsetTop: i32, offsetLeft: i32, server: Server, status: Status)
    requires server.accepts && !server.strayEvents
    requires Advertises(server.globals, CompositorInterface, 1)
    requires Advertises(server.globals, LayerShellInterface, 1)
    requires !Granted(Size(width, height), server.configureBatch)
    ensures var s := Spawn(width, height, offsetTop, offsetLeft, server, status);
      && s.result == Abort(SizeRefused)
      && Commit !in s.log
      && var k := FirstRefused(Size(width, height), server.configureBatch);
      && s.log == SetupActions(width, height, offsetTop, offsetLeft) + Acks(server.configureBatch[..k])
      && (s.status == Closing <==> status == Closing || HasClosed(server.configureBatch[..k]))
  {
    DeliverLayerSpec(Size(width, height), status, server.configureBatch);
  }

  /** The same refusal in the round-trip after the commit, the first one in
      which a layer-shell compositor configures the surface: `spawn` panics
      with `SizeRefused` after the commit, with every configure of the first
      round-trip and those of the second before the refused one acknowledged,
      and the flag raised if any `Closed` came before the refusal. */
  lemma SpawnRefusedAfterCommit(width: u32, height: u32, offsetTop: i32, offsetLeft: i32, server: Server, status: Status)
    requires server.accepts && !server.strayEvents
    requires Advertises(server.globals, CompositorInterface, 1)
    requires Advertises(server.globals, LayerShellInterface, 1)
    requires Granted(Size(width, height), server.configureBatch)
    requires !Granted(Size(width, height), server.commitBatch)
    ensures var s := Spawn(width, height, offsetTop, offsetLeft, server, status);
      && s.result == Abort(SizeRefused)
      && var k := FirstRefused(Size(width, height), server.commitBatch);
      && s.log == SetupActions(width, height, offsetTop, offsetLeft) + Acks(server.configureBatch)
                  + [Commit, Roundtrip] + Acks(server.commitBatch[..k])
      && (s.status == Closing <==> status == Closing || HasClosed(server.configureBatch + server.commitBatch[..k]))
  {
    var requested := Size(width, height);
    DeliverLayerSpec(requested, status, server.configureBatch);
    var first := DeliverLayer(requested, status, server.configureBatch).value;
    DeliverLayerSpec(requested, first.0, server.commitBatch);
    HasClosedAppend(server.configureBatch, server.commitBatch[..FirstRefused(requested, server.commitBatch)]);
  }
}
