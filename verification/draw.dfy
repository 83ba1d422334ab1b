/** The drawer of src/draw.rs: start-up, the keyboard filter, the seat
    handler that obtains the keyboard, and the loop that dispatches events
    until the shutdown flag says `Closing`. Dispatching is modelled as a
    sequence of batches: each `dispatch` call delivers one batch of events to
    the handlers, in order. */
module Draw {
  import opened Base
  import opened Shutdown
  import opened Protocol
  import opened Window

  /** The key code the filter treats as a request to close (escape). */
  const EscapeKey: u32 := 1

  predicate IsEscape(e: KeyboardEvent) {
    e.Key? && e.key == EscapeKey && e.state == Pressed
  }

  /** The keyboard `Filter` of `listen_events`: a press of key 1 raises the
      shutdown flag; a release, any other key, focus changes and every other
      keyboard event leave it alone. */
  function KeyFilter(s: Status, e: KeyboardEvent): (r: Status)
    ensures r == Closing <==> s == Closing || IsEscape(e)
    ensures AtLeast(r, s)
  {
    match e
    case Enter => s
    case Leave => s
    case Key(key, state) => if key == EscapeKey && state == Pressed then Raise(s, true) else s
    case _ => s
  }

  /** Delivering escape twice does what delivering it once does, from any state. */
  lemma EscapeIdempotent(s: Status, e: KeyboardEvent)
    requires IsEscape(e)
    ensures KeyFilter(KeyFilter(s, e), e) == KeyFilter(s, e) == Closing
  {
  }

  /** What the handlers share: the shutdown flag, the seat closure's
      `keyboard_created`, and the actions taken so far. */
  datatype Client = Client(status: Status, keyboardCreated: bool, log: seq<Action>)

  predicate OffersKeyboard(e: SeatEvent) {
    e.Capabilities? && Keyboard in e.capabilities
  }

  /** How many times the keyboard has been obtained from the seat. */
  function Obtained(log: seq<Action>): nat {
    multiset(log)[GetKeyboard]
  }

  /** The seat closure: the first capabilities event offering a keyboard
      obtains it (and assigns it the key filter); later ones do nothing. */
  function OnSeatEvent(c: Client, e: SeatEvent): (r: Client)
    ensures r.status == c.status
    ensures r.keyboardCreated <==> c.keyboardCreated || OffersKeyboard(e)
    ensures c.keyboardCreated ==> r == c
    ensures Obtained(r.log) == Obtained(c.log) + (if r.keyboardCreated && !c.keyboardCreated then 1 else 0)
    ensures |c.log| <= |r.log| && r.log[..|c.log|] == c.log
  {
    match e
    case Capabilities(caps) =>
      if !c.keyboardCreated && Keyboard in caps then
        var log' := c.log + [GetKeyboard];
        assert multiset(log') == multiset(c.log) + multiset{GetKeyboard};
        assert log'[..|c.log|] == c.log;
        c.(keyboardCreated := true, log := log')
      else c
    case _ => c
  }

  /** One event handed to its handler. Keyboard events can only arrive on a
      keyboard object, so while none has been obtained they cannot occur;
      the model drops them. */
  function Dispatch(requested: Size, c: Client, e: Event): (r: Panicking<Client>)
    ensures r.Panic? <==> e.LayerEv? && e.layer.Configure? && Size(e.layer.width, e.layer.height) != requested
    ensures r.Panic? ==> r.fatal == SizeRefused
    ensures r.Return? ==> AtLeast(r.value.status, c.status)
    ensures r.Return? ==> |c.log| <= |r.value.log| && r.value.log[..|c.log|] == c.log
  {
    match e
    case KeyboardEv(k) =>
      if c.keyboardCreated then Return(c.(status := KeyFilter(c.status, k))) else Return(c)
    case SeatEv(s) => Return(OnSeatEvent(c, s))
    case LayerEv(l) =>
      match OnLayerEvent(requested, c.status, l)
      case Panic(f) => Panic(f)
      case Return(reaction) =>
        assert (c.log + reaction.1)[..|c.log|] == c.log;
        Return(c.(status := reaction.0, log := c.log + reaction.1))
  }

  /** One `dispatch`: every event of the batch, in order; a panic ends it. */
  function DeliverBatch(requested: Size, c: Client, es: seq<Event>): Panicking<Client>
    decreases |es|
  {
    if |es| == 0 then Return(c)
    else
      match Dispatch(requested, c, es[0])
      case Panic(f) => Panic(f)
      case Return(c') => DeliverBatch(requested, c', es[1..])
  }

  /** The state after the first `n` batches have been dispatched. */
  function AfterBatches(requested: Size, c: Client, bs: seq<seq<Event>>, n: nat): Panicking<Client>
    requires n <= |bs|
  {
    if n == 0 then Return(c)
    else
      match AfterBatches(requested, c, bs, n - 1)
      case Panic(f) => Panic(f)
      case Return(c') => DeliverBatch(requested, c', bs[n - 1])
  }

  // ----- properties of dispatching -------------------------------------------

  /** Closing is absorbing: no event of a batch moves the flag back. */
  lemma {:induction false} DeliverBatchMonotone(requested: Size, c: Client, es: seq<Event>)
    ensures DeliverBatch(requested, c, es).Return? ==> AtLeast(DeliverBatch(requested, c, es).value.status, c.status)
    decreases |es|
  {
    if |es| > 0 && Dispatch(requested, c, es[0]).Return? {
      DeliverBatchMonotone(requested, Dispatch(requested, c, es[0]).value, es[1..]);
    }
  }

  /** A dispatch panics exactly when one of its events is a configure that
      refuses the window's size, and the panic is then `SizeRefused`. */
  lemma {:induction false} DeliverBatchPanics(requested: Size, c: Client, es: seq<Event>)
    ensures DeliverBatch(requested, c, es).Panic? <==>
      exists i :: 0 <= i < |es| && es[i].LayerEv? && Refuses(requested, es[i].layer)
    ensures DeliverBatch(requested, c, es).Panic? ==> DeliverBatch(requested, c, es).fatal == SizeRefused
    decreases |es|
  {
    if |es| > 0 {
      match Dispatch(requested, c, es[0])
      case Panic(f) =>
        assert es[0].LayerEv? && Refuses(requested, es[0].layer);
      case Return(c') =>
        DeliverBatchPanics(requested, c', es[1..]);
        assert !(es[0].LayerEv? && Refuses(requested, es[0].layer));
        if exists i :: 0 <= i < |es| && es[i].LayerEv? && Refuses(requested, es[i].layer) {
          var i :| 0 <= i < |es| && es[i].LayerEv? && Refuses(requested, es[i].layer);
          assert es[1..][i - 1] == es[i];
        }
        if exists i :: 0 <= i < |es[1..]| && es[1..][i].LayerEv? && Refuses(requested, es[1..][i].layer) {
          var i :| 0 <= i < |es[1..]| && es[1..][i].LayerEv? && Refuses(requested, es[1..][i].layer);
          assert es[i + 1] == es[1..][i];
        }
    }
  }

  /** Before event `i` of `es` the client holds a keyboard: it did at the
      start, or an earlier seat event offered one. */
  predicate KeyboardBefore(kb: bool, es: seq<Event>, i: nat) {
    kb || exists j :: 0 <= j < i && j < |es| && es[j].SeatEv? && OffersKeyboard(es[j].seat)
  }

  /** Some event of `es` asks to close: a `Closed` from the compositor, or
      escape pressed on a keyboard the client holds at that point. */
  predicate AsksToClose(kb: bool, es: seq<Event>) {
    exists i :: 0 <= i < |es| &&
      (es[i] == LayerEv(Closed) || (es[i].KeyboardEv? && IsEscape(es[i].keyboard) && KeyboardBefore(kb, es, i)))
  }

  lemma ShiftKeyboardBefore(kb: bool, es: seq<Event>, i: nat)
    requires 0 < |es| && i < |es|
    ensures KeyboardBefore(kb, es, i + 1) <==>
      KeyboardBefore(kb || (es[0].SeatEv? && OffersKeyboard(es[0].seat)), es[1..], i)
  {
    var kb' := kb || (es[0].SeatEv? && OffersKeyboard(es[0].seat));
    if KeyboardBefore(kb, es, i + 1) && !kb' {
      var j :| 0 <= j < i + 1 && j < |es| && es[j].SeatEv? && OffersKeyboard(es[j].seat);
      assert es[1..][j - 1] == es[j];
    }
    if KeyboardBefore(kb', es[1..], i) && !kb' {
      var j :| 0 <= j < i && j < |es[1..]| && es[1..][j].SeatEv? && OffersKeyboard(es[1..][j].seat);
      assert es[j + 1] == es[1..][j];
    }
  }

  lemma ShiftAsksToClose(kb: bool, es: seq<Event>)
    requires 0 < |es|
    ensures AsksToClose(kb, es) <==>
      || es[0] == LayerEv(Closed)
      || (es[0].KeyboardEv? && IsEscape(es[0].keyboard) && kb)
      || AsksToClose(kb || (es[0].SeatEv? && OffersKeyboard(es[0].seat)), es[1..])
  {
    var kb' := kb || (es[0].SeatEv? && OffersKeyboard(es[0].seat));
    if AsksToClose(kb, es) {
      var i :| 0 <= i < |es| &&
        (es[i] == LayerEv(Closed) || (es[i].KeyboardEv? && IsEscape(es[i].keyboard) && KeyboardBefore(kb, es, i)));
      if i > 0 {
        ShiftKeyboardBefore(kb, es, i - 1);
        assert es[1..][i - 1] == es[i];
      }
    }
    if AsksToClose(kb', es[1..]) {
      var i :| 0 <= i < |es[1..]| &&
        (es[1..][i] == LayerEv(Closed) || (es[1..][i].KeyboardEv? && IsEscape(es[1..][i].keyboard) && KeyboardBefore(kb', es[1..], i)));
      ShiftKeyboardBefore(kb, es, i);
      assert es[i + 1] == es[1..][i];
    }
  }

  /** A dispatch that does not panic leaves the flag `Closing` exactly when
      it already was, or some event of the batch asked to close. */
  lemma {:induction false} DeliverBatchCloses(requested: Size, c: Client, es: seq<Event>)
    requires DeliverBatch(requested, c, es).Return?
    ensures DeliverBatch(requested, c, es).value.status == Closing <==>
      c.status == Closing || AsksToClose(c.keyboardCreated, es)
    decreases |es|
  {
    if |es| > 0 {
      var c' := Dispatch(requested, c, es[0]).value;
      DeliverBatchCloses(requested, c', es[1..]);
      ShiftAsksToClose(c.keyboardCreated, es);
      assert c'.keyboardCreated == (c.keyboardCreated || (es[0].SeatEv? && OffersKeyboard(es[0].seat)));
      assert c'.status == Closing <==>
        c.status == Closing || es[0] == LayerEv(Closed) || (es[0].KeyboardEv? && IsEscape(es[0].keyboard) && c.keyboardCreated);
    } else {
      assert !AsksToClose(c.keyboardCreated, es);
    }
  }

  /** The keyboard is obtained at most once, however many capabilities
      events advertise one: each obtained keyboard is recorded in
      `keyboard_created`, which is never reset. */
  lemma {:induction false} DeliverBatchKeyboardOnce(requested: Size, c: Client, es: seq<Event>, before: nat)
    requires Obtained(c.log) == before + (if c.keyboardCreated then 1 else 0)
    requires DeliverBatch(requested, c, es).Return?
    ensures var c' := DeliverBatch(requested, c, es).value;
      Obtained(c'.log) == before + (if c'.keyboardCreated then 1 else 0)
    decreases |es|
  {
    if |es| > 0 {
      var c' := Dispatch(requested, c, es[0]).value;
      if es[0].LayerEv? {
        var reaction := OnLayerEvent(requested, c.status, es[0].layer).value;
        assert multiset(c'.log) == multiset(c.log) + multiset(reaction.1);
        assert GetKeyboard !in reaction.1;
      }
      DeliverBatchKeyboardOnce(requested, c', es[1..], before);
    }
  }

  /** Repeated escape presses act like a single one. */
  function Presses(n: nat): (es: seq<Event>)
    ensures |es| == n
  {
    seq(n, _ => KeyboardEv(Key(EscapeKey, Pressed)))
  }

  lemma {:induction false} RepeatedEscapeIsIdempotent(requested: Size, c: Client, n: nat)
    requires 1 <= n
    ensures DeliverBatch(requested, c, Presses(n)) == DeliverBatch(requested, c, Presses(1))
    ensures c.keyboardCreated ==> DeliverBatch(requested, c, Presses(n)) == Return(c.(status := Closing))
    ensures !c.keyboardCreated ==> DeliverBatch(requested, c, Presses(n)) == Return(c)
    decreases n
  {
    var c' := Dispatch(requested, c, Presses(n)[0]).value;
    assert c' == if c.keyboardCreated then c.(status := Closing) else c;
    if n == 1 {
      assert Presses(1)[1..] == [];
    } else {
      assert Presses(n)[1..] == Presses(n - 1);
      RepeatedEscapeIsIdempotent(requested, c', n - 1);
      assert Presses(1)[1..] == [];
    }
  }

  /** Once a dispatch has panicked, the process is gone for good. */
  lemma {:induction false} PanicPersists(requested: Size, c: Client, bs: seq<seq<Event>>, j: nat, k: nat)
    requires j <= k <= |bs|
    requires AfterBatches(requested, c, bs, j).Panic?
    ensures AfterBatches(requested, c, bs, k) == AfterBatches(requested, c, bs, j)
    decreases k
  {
    if j < k {
      PanicPersists(requested, c, bs, j, k - 1);
    }
  }

  /** Over the whole loop the keyboard is obtained at most once: from a
      client whose log records its keyboard (if any) exactly once, every
      loop check sees the same invariant, so at most one `get_keyboard`. */
  lemma {:induction false} KeyboardObtainedAtMostOnce(requested: Size, c: Client, bs: seq<seq<Event>>, n: nat)
    requires n <= |bs|
    requires Obtained(c.log) == (if c.keyboardCreated then 1 else 0)
    requires AfterBatches(requested, c, bs, n).Return?
    ensures var seen := AfterBatches(requested, c, bs, n).value;
      Obtained(seen.log) == (if seen.keyboardCreated then 1 else 0) && Obtained(seen.log) <= 1
    decreases n
  {
    if n > 0 {
      KeyboardObtainedAtMostOnce(requested, c, bs, n - 1);
      var prev := AfterBatches(requested, c, bs, n - 1).value;
      DeliverBatchKeyboardOnce(requested, prev, bs[n - 1], 0);
    }
  }

  /** Across batches too, the flag only moves from Running to Closing. */
  lemma {:induction false} AfterBatchesMonotone(requested: Size, c: Client, bs: seq<seq<Event>>, j: nat, k: nat)
    requires j <= k <= |bs|
    requires AfterBatches(requested, c, bs, k).Return?
    ensures AfterBatches(requested, c, bs, j).Return?
    ensures AtLeast(AfterBatches(requested, c, bs, k).value.status, AfterBatches(requested, c, bs, j).value.status)
    decreases k
  {
    if j < k {
      var prev := AfterBatches(requested, c, bs, k - 1);
      DeliverBatchMonotone(requested, prev.value, bs[k - 1]);
      AfterBatchesMonotone(requested, c, bs, j, k - 1);
    }
  }

  // ----- the event loop -------------------------------------------------------

  predicate RunningAt(requested: Size, c: Client, bs: seq<seq<Event>>, j: nat)
    requires j <= |bs|
  {
    AfterBatches(requested, c, bs, j).Return? && AfterBatches(requested, c, bs, j).value.status == Running
  }

  predicate ClosingAt(requested: Size, c: Client, bs: seq<seq<Event>>, j: nat)
    requires j <= |bs|
  {
    AfterBatches(requested, c, bs, j).Return? && AfterBatches(requested, c, bs, j).value.status == Closing
  }

  /** How `listen_events` ends: it saw `Closing` and tore down, or a handler
      panicked during the teardown round-trip; the model ran out of batches
      while the loop would block in `dispatch` waiting for more; or a handler
      panicked during a dispatch. After either panic the process is gone and
      the client the loop reports carries no meaning. */
  datatype Exit = TornDown | TeardownCrashed(fatal: Fatal) | Stalled | Crashed(fatal: Fatal)
  {
    /** The loop saw `Closing` at one of its checks. */
    predicate SawClosing() {
      TornDown? || TeardownCrashed?
    }
  }

  /** Before the loop: bind the seat at version 1 (a panic if the compositor
      does not advertise it), assign the seat closure, and round-trip. The
      keyboard has not been obtained yet. */
  function Prepare(w: Window, status: Status, log: seq<Action>, roundtrip: seq<Event>): Panicking<Client> {
    if !Advertises(w.globals, SeatInterface, 1) then Panic(GlobalMissing(SeatInterface, 1))
    else DeliverBatch(w.requested, Client(status, false, log + [Bind(SeatInterface, 1), Roundtrip]), roundtrip)
  }

  /** What the loop promises, given the state `c` it starts from: the flag
      is checked before every dispatch, and every check before the last one
      saw `Running`. On the first check that sees `Closing` the surface is
      destroyed and one round-trip follows, delivering `teardown` to the
      handlers (which may still panic); then the loop returns without
      dispatching again. */
  ghost predicate LoopSpec(requested: Size, c: Client, bs: seq<seq<Event>>, teardown: seq<Event>,
                           exit: Exit, final: Client, n: nat) {
    && n <= |bs|
    && (forall j :: 0 <= j < n ==> RunningAt(requested, c, bs, j))
    && match exit
       case TornDown =>
         && ClosingAt(requested, c, bs, n)
         && DeliverBatch(requested, Destroyed(AfterBatches(requested, c, bs, n).value), teardown) == Return(final)
       case TeardownCrashed(f) =>
         && ClosingAt(requested, c, bs, n)
         && DeliverBatch(requested, Destroyed(AfterBatches(requested, c, bs, n).value), teardown) == Panic(f)
       case Stalled =>
         && n == |bs|
         && RunningAt(requested, c, bs, n)
         && final == AfterBatches(requested, c, bs, n).value
       case Crashed(f) =>
         && 0 < n
         && AfterBatches(requested, c, bs, n) == Panic(f)
  }

  /** The client once the surface is destroyed and the teardown round-trip
      has been requested. */
  function Destroyed(c: Client): (r: Client)
    ensures r.status == c.status && r.keyboardCreated == c.keyboardCreated
    ensures r.log == c.log + [DestroySurface, Roundtrip]
  {
    c.(log := c.log + [DestroySurface, Roundtrip])
  }

  /** `Drawer::listen_events`, run against the events of the round-trip
      after the seat is bound, the dispatch batches, and the events of the
      teardown round-trip; `dispatched` counts the `dispatch` calls made. */
  method ListenEvents(w: Window, status: Status, log: seq<Action>, roundtrip: seq<Event>,
                      batches: seq<seq<Event>>, teardown: seq<Event>)
    returns (exit: Exit, final: Client, dispatched: nat)
    ensures match Prepare(w, status, log, roundtrip)
      case Panic(f) => exit == Crashed(f) && dispatched == 0
      case Return(c) => LoopSpec(w.requested, c, batches, teardown, exit, final, dispatched)
  {
    var prepared := Prepare(w, status, log, roundtrip);
    if prepared.Panic? {
      return Crashed(prepared.fatal), Client(status, false, log), 0;
    }
    var start := prepared.value;
    var current := start;
    var i := 0;
    while true
      invariant i <= |batches|
      invariant AfterBatches(w.requested, start, batches, i) == Return(current)
      invariant forall j :: 0 <= j < i ==> RunningAt(w.requested, start, batches, j)
      decreases |batches| - i
    {
      if current.status == Closing {
        LoopSeesClosing(w.requested, start, batches, teardown, i, current);
        var closed := DeliverBatch(w.requested, Destroyed(current), teardown);
        if closed.Panic? {
          return TeardownCrashed(closed.fatal), current, i;
        }
        return TornDown, closed.value, i;
      }
      if i == |batches| {
        return Stalled, current, i;
      }
      var next := DeliverBatch(w.requested, current, batches[i]);
      if next.Panic? {
        LoopCrashes(w.requested, start, batches, teardown, i, current);
        return Crashed(next.fatal), current, i + 1;
      }
      current := next.value;
      i := i + 1;
    }
  }

  lemma LoopSeesClosing(requested: Size, c: Client, bs: seq<seq<Event>>, teardown: seq<Event>, i: nat, current: Client)
    requires i <= |bs| && AfterBatches(requested, c, bs, i) == Return(current)
    requires forall j :: 0 <= j < i ==> RunningAt(requested, c, bs, j)
    requires current.status == Closing
    ensures var closed := DeliverBatch(requested, Destroyed(current), teardown);
      closed.Panic? ==> LoopSpec(requested, c, bs, teardown, TeardownCrashed(closed.fatal), current, i)
    ensures var closed := DeliverBatch(requested, Destroyed(current), teardown);
      closed.Return? ==> LoopSpec(requested, c, bs, teardown, TornDown, closed.value, i)
  {
  }

  lemma LoopCrashes(requested: Size, c: Client, bs: seq<seq<Event>>, teardown: seq<Event>, i: nat, current: Client)
    requires i < |bs| && AfterBatches(requested, c, bs, i) == Return(current)
    requires forall j :: 0 <= j < i ==> RunningAt(requested, c, bs, j)
    requires current.status == Running
    requires DeliverBatch(requested, current, bs[i]).Panic?
    ensures LoopSpec(requested, c, bs, teardown, Crashed(DeliverBatch(requested, current, bs[i]).fatal), current, i + 1)
  {
    assert RunningAt(requested, c, bs, i);
  }

  /** The loop's outcome is decided by the batches alone: it closes exactly
      when some prefix of the batches brings the flag to `Closing` without a
      panic, and then after the shortest such prefix. */
  lemma ClosesExactlyWhenAsked(requested: Size, c: Client, bs: seq<seq<Event>>, teardown: seq<Event>,
                               exit: Exit, final: Client, n: nat)
    requires LoopSpec(requested, c, bs, teardown, exit, final, n)
    ensures exit.SawClosing() <==> exists k :: 0 <= k <= |bs| && ClosingAt(requested, c, bs, k)
    ensures exit.SawClosing() ==> forall k :: 0 <= k <= |bs| && ClosingAt(requested, c, bs, k) ==> n <= k
  {
    forall k | 0 <= k < n
      ensures !ClosingAt(requested, c, bs, k)
    {
      assert RunningAt(requested, c, bs, k);
    }
    forall k | n <= k <= |bs| && ClosingAt(requested, c, bs, k)
      ensures exit.SawClosing()
    {
      match exit
      case TornDown =>
      case TeardownCrashed(_) =>
      case Stalled =>
      case Crashed(f) =>
        PanicPersists(requested, c, bs, n, k);
    }
  }

  /** A `Closed` from the compositor, or escape pressed on a held keyboard,
      in batch `j` while the loop was still running ends the loop right
      after that batch (unless a handler panics first). */
  lemma ClosedEventEndsLoop(requested: Size, c: Client, bs: seq<seq<Event>>, j: nat)
    requires j < |bs| && RunningAt(requested, c, bs, j)
    requires AsksToClose(AfterBatches(requested, c, bs, j).value.keyboardCreated, bs[j])
    requires AfterBatches(requested, c, bs, j + 1).Return?
    ensures ClosingAt(requested, c, bs, j + 1)
  {
    DeliverBatchCloses(requested, AfterBatches(requested, c, bs, j).value, bs[j]);
  }

  // ----- start-up ---------------------------------------------------------------

  datatype Drawer = Drawer(window: Window)

  /** What start-up leaves behind: the drawer (or the panic), the shutdown
      flag and the actions taken. */
  datatype Started = Started(drawer: Panicking<Drawer>, status: Status, log: seq<Action>)

  /** `Drawer::initialize`: a 500x500 window 100 below the top edge, whose
      error is unwrapped. The GPU session is not created here. */
  function Initialize(server: Server): Started {
    var s := Spawn(500, 500, 100, 0, server, Initial);
    match s.result
    case Ok(w) => Started(Return(Drawer(w)), s.status, s.log)
    case Err(_) => Started(Panic(SpawnFailed), s.status, s.log)
    case Abort(f) => Started(Panic(f), s.status, s.log)
  }

  /** Start-up panics instead of returning when the compositor cannot be
      reached; when it succeeds the window asked for is 500x500 with a top
      margin of 100, and the flag is still `Running` unless the compositor
      already closed the surface. The margin conjunct follows from the setup
      prefix; it is spelled out because it is the start-up argument a reader
      looks for. */
  lemma InitializeOutcome(server: Server)
    ensures !server.accepts ==> Initialize(server).drawer == Panic(SpawnFailed)
    ensures Initialize(server).drawer.Return? ==>
      && Initialize(server).drawer.value.window.requested == Size(500, 500)
      && Initialize(server).log[..|SetupActions(500, 500, 100, 0)|] == SetupActions(500, 500, 100, 0)
      && SetMargin(100, 0, 0, 0) in Initialize(server).log
      && (Initialize(server).status == Closing <==> HasClosed(server.configureBatch + server.commitBatch))
  {
    SpawnSucceeds(500, 500, 100, 0, server, Initial);
    if Initialize(server).drawer.Return? {
      var setup := SetupActions(500, 500, 100, 0);
      assert setup[9] == SetMargin(100, 0, 0, 0);
      assert Initialize(server).log[9] == SetMargin(100, 0, 0, 0);
    }
  }
}
