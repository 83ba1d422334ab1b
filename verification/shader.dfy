/** The fixed interface of the two shader stages (src/draw/shader/mod.rs):
    four exact-size iterators, each a `u16` counter, hand out the entries a
    stage consumes or produces; two pipeline layouts declare no resources;
    `Vertex` is the per-vertex record fed to the vertex stage. */
module Shader {
  import opened Base

  /** The three image formats the interfaces use: 2, 3 or 4 components of a
      32-bit signed float. */
  datatype Format = R32G32Sfloat | R32G32B32Sfloat | R32G32B32A32Sfloat

  function Components(f: Format): nat {
    match f
    case R32G32Sfloat => 2
    case R32G32B32Sfloat => 3
    case R32G32B32A32Sfloat => 4
  }

  const ComponentBits: nat := 32

  function Bits(f: Format): nat {
    Components(f) * ComponentBits
  }

  /** The largest format an interface entry may have. */
  const MaxEntryBits: nat := 128

  /** A half-open range `start..end` of shader locations. */
  datatype Locations = Locations(start: nat, end: nat) {
    predicate Contains(l: nat) {
      start <= l < end
    }
  }

  /** The two ranges have no location in common. */
  predicate Disjoint(a: Locations, b: Locations) {
    a.end <= a.start || b.end <= b.start || a.end <= b.start || b.end <= a.start
  }

  lemma DisjointMeansNoSharedLocation(a: Locations, b: Locations)
    ensures Disjoint(a, b) <==> forall l: nat :: !(a.Contains(l) && b.Contains(l))
  {
    if !Disjoint(a, b) {
      var l: nat := if a.start < b.start then b.start else a.start;
      assert a.Contains(l) && b.Contains(l);
    }
  }

  /** `ShaderInterfaceDefEntry`: the name is always present in this program. */
  datatype Entry = Entry(location: Locations, format: Format, name: string)

  /** The contract the comments of `VertInputIter::next` impose on a list of
      entries: no two entries share or overlap a location, and no format is
      wider than 128 bits. That every entry takes exactly one location is an
      extra fact about the entries of this program, checked alongside. */
  predicate WellFormedInterface(es: seq<Entry>) {
    && (forall i, j :: 0 <= i < j < |es| ==> Disjoint(es[i].location, es[j].location))
    && (forall i :: 0 <= i < |es| ==> es[i].location.end == es[i].location.start + 1)
    && (forall i :: 0 <= i < |es| ==> Bits(es[i].format) <= MaxEntryBits)
  }

  datatype Interface = VertInput | VertOutput | FragInput | FragOutput

  const Color := Entry(Locations(1, 2), R32G32B32Sfloat, "color")
  const Position := Entry(Locations(0, 1), R32G32Sfloat, "position")
  const VColor := Entry(Locations(0, 1), R32G32B32Sfloat, "v_color")
  const FColor := Entry(Locations(0, 1), R32G32B32A32Sfloat, "f_color")

  /** The entries each interface declares, in the order its iterator hands
      them out. This is the reference list the counter machines are checked
      against. */
  function Declared(i: Interface): seq<Entry> {
    match i
    case VertInput => [Color, Position]
    case VertOutput => [VColor]
    case FragInput => [VColor]
    case FragOutput => [FColor]
  }

  /** `VertInputIter(u16)` and its three siblings: which interface, and how
      many entries have been handed out. */
  datatype Iter = Iter(interface: Interface, counter: u16)

  /** The counter states `next` can reach from `elements()`. */
  predicate Reachable(it: Iter) {
    it.counter <= |Declared(it.interface)|
  }

  /** `ShaderInterfaceDef::elements`: a fresh iterator. */
  function Elements(i: Interface): (it: Iter)
    ensures it.interface == i && Reachable(it)
    ensures it.counter == 0
  {
    Iter(i, 0)
  }

  /** `Iterator::next` of the four iterators, branch by branch. While entries
      remain it hands out the next declared one and advances the counter;
      afterwards it answers `None` and leaves the counter alone. */
  function Next(it: Iter): (r: (Option<Entry>, Iter))
    ensures r.1.interface == it.interface
    ensures it.counter < |Declared(it.interface)| ==>
      r.0 == Some(Declared(it.interface)[it.counter]) && r.1.counter == it.counter + 1
    ensures |Declared(it.interface)| <= it.counter ==> r == (None, it)
    ensures Reachable(it) ==> Reachable(r.1)
  {
    match it.interface
    case VertInput =>
      if it.counter == 0 then (Some(Color), it.(counter := it.counter + 1))
      else if it.counter == 1 then (Some(Position), it.(counter := it.counter + 1))
      else (None, it)
    case VertOutput =>
      if it.counter == 0 then (Some(VColor), it.(counter := it.counter + 1)) else (None, it)
    case FragInput =>
      if it.counter == 0 then (Some(VColor), it.(counter := it.counter + 1)) else (None, it)
    case FragOutput =>
      if it.counter == 0 then (Some(FColor), it.(counter := it.counter + 1)) else (None, it)
  }

  /** The literal each `size_hint` subtracts the counter from. */
  function Total(i: Interface): u16 {
    if i == VertInput then 2 else 1
  }

  /** `Iterator::size_hint`: `(n - self.0) as usize`, computed in `u16`.
      In every reachable state the subtraction does not wrap and the hint is
      exact: it is the number of declared entries not yet handed out. */
  function SizeHint(it: Iter): (r: (usize, Option<usize>))
    ensures r.1 == Some(r.0)
    ensures Reachable(it) ==> it.counter <= Total(it.interface)
    ensures Reachable(it) ==> r.0 == |Declared(it.interface)| - it.counter
  {
    var len := WrappingSub16(Total(it.interface), it.counter);
    (len, Some(len))
  }

  /** The entries `n` successive calls of `next` produce (the `Some` values,
      in order), and the iterator after those calls. */
  function Take(it: Iter, n: nat): (r: (seq<Entry>, Iter))
    decreases n
  {
    if n == 0 then ([], it)
    else
      var step := Next(it);
      var rest := Take(step.1, n - 1);
      (if step.0.Some? then [step.0.value] + rest.0 else rest.0, rest.1)
  }

  /** The exact-size contract of `ExactSizeIterator`, first half: from any
      reachable state, `n` calls of `next` with `n` at most the size hint
      yield the next `n` declared entries. */
  lemma {:induction false} TakeWithinHint(it: Iter, n: nat)
    requires Reachable(it) && n <= SizeHint(it).0
    ensures Take(it, n).0 == Declared(it.interface)[it.counter .. it.counter + n]
    decreases n
  {
    if n > 0 {
      var d := Declared(it.interface);
      var it' := Next(it).1;
      TakeWithinHint(it', n - 1);
      assert d[it.counter .. it.counter + n] == [d[it.counter]] + d[it'.counter .. it'.counter + (n - 1)];
    }
  }

  /** An exhausted iterator stays where it is and yields nothing more. */
  lemma {:induction false} TakeExhausted(it: Iter, n: nat)
    requires it.counter == |Declared(it.interface)|
    ensures Take(it, n) == ([], it)
    decreases n
  {
    if n > 0 {
      assert Next(it) == (None, it);
      TakeExhausted(it, n - 1);
    }
  }

  /** One call of `next` that hands out an entry, seen from `Take`. */
  lemma TakeStep(it: Iter, n: nat)
    requires it.counter < |Declared(it.interface)| && 0 < n
    ensures var rest := Take(Next(it).1, n - 1);
      Take(it, n) == ([Declared(it.interface)[it.counter]] + rest.0, rest.1)
  {
  }

  /** Second half: `n` calls with `n` at least the size hint yield every
      remaining declared entry and leave the iterator exhausted, where `next`
      answers `None` without moving (`TakeExhausted`). */
  lemma {:induction false} TakeBeyondHint(it: Iter, n: nat)
    requires Reachable(it) && SizeHint(it).0 <= n
    ensures Take(it, n) == (Declared(it.interface)[it.counter ..], Iter(it.interface, |Declared(it.interface)|))
    decreases n
  {
    var d := Declared(it.interface);
    if it.counter == |d| {
      TakeExhausted(it, n);
    } else {
      var it' := Next(it).1;
      TakeStep(it, n);
      TakeBeyondHint(it', n - 1);
      assert d[it.counter ..] == [d[it.counter]] + d[it'.counter ..];
    }
  }

  /** Everything an interface's iterator hands out, collected the way an
      exact-size consumer does: `size_hint` calls of `next`. */
  function Collect(i: Interface): seq<Entry> {
    var it := Elements(i);
    Take(it, SizeHint(it).0).0
  }

  /** Draining a fresh iterator yields exactly the declared entries, and
      `None` from then on. */
  lemma CollectYieldsDeclared(i: Interface, n: nat)
    requires |Declared(i)| <= n
    ensures Collect(i) == Declared(i)
    ensures Take(Elements(i), n).0 == Declared(i)
    ensures Next(Take(Elements(i), n).1).0 == None
  {
    TakeBeyondHint(Elements(i), SizeHint(Elements(i)).0);
    TakeBeyondHint(Elements(i), n);
    assert Next(Iter(i, |Declared(i)|)).0 == None;
  }

  /** `VertInputIter` yields `color` at 1..2 then `position` at 0..1, and
      nothing after that, however many more times it is asked. */
  lemma VertInputSequence(n: nat)
    requires 2 <= n
    ensures Take(Elements(VertInput), n).0 == [
      Entry(Locations(1, 2), R32G32B32Sfloat, "color"),
      Entry(Locations(0, 1), R32G32Sfloat, "position")]
    ensures Next(Take(Elements(VertInput), n).1).0 == None
  {
    CollectYieldsDeclared(VertInput, n);
  }

  /** Every interface satisfies the contract its iterator's comments state,
      and the widest format in use is exactly 128 bits. */
  lemma InterfacesWellFormed(i: Interface)
    ensures WellFormedInterface(Collect(i))
    ensures Bits(Collect(FragOutput)[0].format) == MaxEntryBits
  {
    CollectYieldsDeclared(i, |Declared(i)|);
    CollectYieldsDeclared(FragOutput, 1);
    DeclaredWellFormed(i);
  }

  lemma DeclaredWellFormed(i: Interface)
    ensures WellFormedInterface(Declared(i))
  {
    match i
    case VertInput =>
      assert Disjoint(Color.location, Position.location);
    case _ =>
  }

  /** What the vertex stage produces is exactly what the fragment stage
      consumes: one `v_color` at location 0 of format R32G32B32Sfloat. */
  lemma StageInterfacesMatch()
    ensures Collect(VertOutput) == Collect(FragInput)
    ensures Collect(VertOutput) == [Entry(Locations(0, 1), R32G32B32Sfloat, "v_color")]
  {
    CollectYieldsDeclared(VertOutput, 1);
    CollectYieldsDeclared(FragInput, 1);
  }

  // ----- pipeline layouts -------------------------------------------------

  datatype Stage = VertexStage | FragmentStage

  datatype DescriptorDesc = DescriptorDesc(arrayCount: nat, stages: set<Stage>, readonly: bool)
  datatype PcRange = PcRange(offset: nat, size: nat, stages: set<Stage>)

  /** `VertLayout` and `FragLayout`: a stage set and nothing else. */
  datatype Layout = VertLayout(stages: set<Stage>) | FragLayout(stages: set<Stage>)

  function NumSets(l: Layout): nat {
    0
  }

  function NumBindingsInSet(l: Layout, s: nat): Option<nat> {
    None
  }

  function Descriptor(l: Layout, s: nat, binding: nat): Option<DescriptorDesc> {
    None
  }

  function NumPushConstantsRanges(l: Layout): nat {
    0
  }

  function PushConstantsRange(l: Layout, num: nat): Option<PcRange> {
    None
  }

  /** What `PipelineLayoutDesc` asks of an implementation: the sets that
      exist are exactly those below `num_sets`, descriptors exist only for
      bindings of existing sets, and push-constant ranges exist exactly below
      `num_push_constants_ranges`. */
  ghost predicate ConsistentLayout(l: Layout) {
    && (forall s: nat :: NumBindingsInSet(l, s).Some? <==> s < NumSets(l))
    && (forall s: nat, b: nat :: Descriptor(l, s, b).Some? ==>
          s < NumSets(l) && NumBindingsInSet(l, s).Some? && b < NumBindingsInSet(l, s).value)
    && (forall n: nat :: PushConstantsRange(l, n).Some? <==> n < NumPushConstantsRanges(l))
  }

  /** Both layouts are consistent and empty: no descriptor set, no binding,
      no descriptor, no push-constant range. */
  lemma LayoutsDeclareNothing(l: Layout)
    ensures ConsistentLayout(l)
    ensures NumSets(l) == 0 && NumPushConstantsRanges(l) == 0
    ensures forall s: nat, b: nat :: NumBindingsInSet(l, s) == None && Descriptor(l, s, b) == None
    ensures forall n: nat :: PushConstantsRange(l, n) == None
  {
  }

  // ----- entry points ------------------------------------------------------

  datatype ShaderType = VertexShader | FragmentShader

  datatype EntryPoint = EntryPoint(
    name: string, input: Interface, output: Interface, layout: Layout, kind: ShaderType)

  /** `get_entry_vertex`: a vertex shader whose inputs are the `color` and
      `position` attributes a `Vertex` supplies, whose interfaces both keep
      the location contract, and whose outputs are what the fragment entry
      point consumes. */
  function EntryVertex(): (e: EntryPoint)
    ensures e.kind == VertexShader && e.layout.stages == {VertexStage}
    ensures Collect(e.input) == [Color, Position]
    ensures WellFormedInterface(Collect(e.input)) && WellFormedInterface(Collect(e.output))
    ensures Collect(e.output) == Collect(EntryFragment().input)
  {
    CollectYieldsDeclared(VertInput, 2);
    InterfacesWellFormed(VertInput);
    InterfacesWellFormed(VertOutput);
    StageInterfacesMatch();
    EntryPoint("main", VertInput, VertOutput, VertLayout({VertexStage}), VertexShader)
  }

  /** `get_entry_fragment`: a fragment shader that consumes the single
      `v_color` the vertex stage produces and writes one 128-bit colour, both
      interfaces keeping the location contract. */
  function EntryFragment(): (e: EntryPoint)
    ensures e.kind == FragmentShader && e.layout.stages == {FragmentStage}
    ensures Collect(e.input) == [VColor] && Collect(e.output) == [FColor]
    ensures Bits(Collect(e.output)[0].format) == MaxEntryBits
    ensures WellFormedInterface(Collect(e.input)) && WellFormedInterface(Collect(e.output))
  {
    CollectYieldsDeclared(FragInput, 1);
    CollectYieldsDeclared(FragOutput, 1);
    InterfacesWellFormed(FragInput);
    InterfacesWellFormed(FragOutput);
    EntryPoint("main", FragInput, FragOutput, FragLayout({FragmentStage}), FragmentShader)
  }

  /** The two entry points link: the vertex entry's outputs are the fragment
      entry's inputs, both are `main`, and each layout names only its own stage. */
  lemma EntryPointsLink()
    ensures Collect(EntryVertex().output) == Collect(EntryFragment().input)
    ensures EntryVertex().name == "main" == EntryFragment().name
    ensures EntryVertex().layout.stages == {VertexStage}
    ensures EntryFragment().layout.stages == {FragmentStage}
  {
    StageInterfacesMatch();
  }

  // ----- the vertex record ---------------------------------------------------

  /** An `f32`, kept as its bit pattern: the model does no float arithmetic. */
  datatype F32 = F32(bits: bv32)

  /** `Vertex { position: [f32; 2], color: [f32; 3] }`. */
  datatype Vertex = Vertex(position: seq<F32>, color: seq<F32>)

  predicate ValidVertex(v: Vertex) {
    |v.position| == 2 && |v.color| == 3
  }

  /** A vertex attribute as `impl_vertex!` exposes it: field name, number of
      components and bits per component. */
  datatype Member = Member(name: string, components: nat, componentBits: nat)

  /** `impl_vertex!(Vertex, position, color)`. */
  function Members(v: Vertex): seq<Member> {
    [Member("position", |v.position|, 32), Member("color", |v.color|, 32)]
  }

  predicate Feeds(m: Member, e: Entry) {
    m.name == e.name && m.components == Components(e.format) && m.componentBits == ComponentBits
  }

  /** The fields of `Vertex` and the vertex-input entries correspond one to
      one: every input entry is fed by exactly one field of matching name and
      shape, and every field feeds exactly one input entry. */
  lemma VertexFeedsVertInput(v: Vertex)
    requires ValidVertex(v)
    ensures var es, ms := Collect(VertInput), Members(v);
      && |es| == |ms|
      && (forall i :: 0 <= i < |es| ==> exists j :: 0 <= j < |ms| && Feeds(ms[j], es[i]))
      && (forall j, k, i :: 0 <= j < k < |ms| && 0 <= i < |es| ==> !(Feeds(ms[j], es[i]) && Feeds(ms[k], es[i])))
      && (forall j :: 0 <= j < |ms| ==> exists i :: 0 <= i < |es| && Feeds(ms[j], es[i]))
  {
    CollectYieldsDeclared(VertInput, 2);
    var es, ms := Collect(VertInput), Members(v);
    assert Feeds(ms[0], es[1]);
    assert Feeds(ms[1], es[0]);
  }
}
