/** The GPU session of src/draw/vulkan.rs: the choices `VkSession::initialize`
    makes about device, queue family, extent, format and composite alpha, and
    `new_framebuffers`. The Vulkan driver is a value that lists what it
    offers and which creation calls it lets succeed; the objects it creates
    are handles the model only names. */
module Vulkan {
  import opened Base

  /** The extent used when the surface reports none. */
  const Width: u32 := 500
  const Height: u32 := 500

  datatype InstanceExtension = KhrSurface | KhrWaylandSurface
  datatype DeviceExtension = KhrSwapchain

  /** A queue family of a physical device; its id is its position in the
      device's list, as vulkano numbers them. */
  datatype QueueFamily = QueueFamily(graphics: bool)

  /** An image format or colour space as the driver names it. */
  datatype ImageFormat = ImageFormat(code: nat)
  datatype ColorSpace = SrgbNonLinear | OtherColorSpace(code: nat)

  datatype CompositeAlpha = Opaque | PreMultiplied | PostMultiplied | Inherit

  /** The position of a mode in the order vulkano's `SupportedCompositeAlpha::iter` visits them. */
  function AlphaRank(a: CompositeAlpha): nat {
    match a
    case Opaque => 0
    case PreMultiplied => 1
    case PostMultiplied => 2
    case Inherit => 3
  }

  datatype Extent = Extent(width: u32, height: u32)

  /** The image usage flags the surface supports; passed through untouched. */
  datatype Usage = Usage(flags: nat)

  /** What `Surface::capabilities` reports for a physical device. */
  datatype Capabilities = Capabilities(
    minImageCount: u32,
    currentExtent: Option<Extent>,
    supportedCompositeAlpha: set<CompositeAlpha>,
    supportedFormats: seq<(ImageFormat, ColorSpace)>,
    supportedUsage: Usage)

  datatype PhysicalDevice = PhysicalDevice(
    queueFamilies: seq<QueueFamily>,
    acceptsDevice: bool,                   // `Device::new` succeeds
    capabilities: Option<Capabilities>)    // `capabilities(physical)` succeeds

  datatype Image = Image(handle: nat)

  /** The driver `initialize` talks to. */
  datatype Driver = Driver(
    acceptsInstance: bool,                 // `Instance::new` succeeds
    devices: seq<PhysicalDevice>,
    acceptsSurface: bool,                  // `Surface::from_wayland` succeeds
    swapchainImages: Option<seq<Image>>)   // what `Swapchain::new` returns, if it succeeds

  datatype SurfaceTransform = Identity | Rotate90 | Rotate180 | Rotate270
  datatype PresentMode = Immediate | Mailbox | Fifo | Relaxed

  /** The arguments of `Swapchain::new`, apart from the device, surface and queue. */
  datatype SwapchainRequest = SwapchainRequest(
    numImages: u32,
    format: ImageFormat,
    dimensions: Extent,
    layers: nat,
    usage: Usage,
    transform: SurfaceTransform,
    alpha: CompositeAlpha,
    mode: PresentMode,
    clipped: bool,
    colorSpace: ColorSpace)

  /** A viewport. Its fields are `f32` in the source; every value the program
      uses is a whole number, so they are kept as integers. */
  datatype Viewport = Viewport(originX: int, originY: int, width: int, height: int, depthMin: int, depthMax: int)

  /** The part of `DynamicState` the program sets: line width and scissors
      stay unset throughout. */
  datatype DynamicState = DynamicState(viewports: Option<seq<Viewport>>)

  /** The Vulkan objects `initialize` creates, in order. */
  datatype Step =
    | CreateInstance(instanceExtensions: set<InstanceExtension>)
    | CreateDevice(physical: nat, family: nat, deviceExtensions: set<DeviceExtension>)
    | CreateSurface
    | CreateSwapchain(request: SwapchainRequest)

  datatype VkSession = VkSession(
    physical: nat,
    queueFamily: nat,
    swapchain: SwapchainRequest,
    images: seq<Image>,
    dynamicState: DynamicState)

  datatype Cause = InstanceCreationError

  datatype VkSessionError = PhysicalDeviceIdNotFound(id: usize) | Todo(cause: Cause)

  datatype Initialized = Initialized(result: Outcome<VkSession, VkSessionError>, steps: seq<Step>)

  /** `queue_families().find(|q| q.supports_graphics())`: the position of
      the first family with graphics support, if there is one. */
  function FirstGraphics(families: seq<QueueFamily>): (r: Option<nat>)
    ensures r.Some? ==> r.value < |families| && families[r.value].graphics
    ensures r.Some? ==> forall i :: 0 <= i < r.value ==> !families[i].graphics
    ensures r.None? ==> forall i :: 0 <= i < |families| ==> !families[i].graphics
    decreases |families|
  {
    if |families| == 0 then None
    else if families[0].graphics then Some(0)
    else
      match FirstGraphics(families[1..])
      case None => None
      case Some(i) => Some(i + 1)
  }

  /** `supported_composite_alpha.iter().next()`: the first supported mode in
      iteration order. */
  function FirstAlpha(supported: set<CompositeAlpha>): (r: Option<CompositeAlpha>)
    ensures r.None? <==> supported == {}
    ensures r.Some? ==> r.value in supported
    ensures r.Some? ==> forall a :: a in supported ==> AlphaRank(r.value) <= AlphaRank(a)
  {
    if Opaque in supported then Some(Opaque)
    else if PreMultiplied in supported then Some(PreMultiplied)
    else if PostMultiplied in supported then Some(PostMultiplied)
    else if Inherit in supported then Some(Inherit)
    else
      NoneOfTheFour(supported);
      None
  }

  lemma NoneOfTheFour(supported: set<CompositeAlpha>)
    requires Opaque !in supported && PreMultiplied !in supported
    requires PostMultiplied !in supported && Inherit !in supported
    ensures supported == {}
  {
    if a :| a in supported {
      match a
      case Opaque =>
      case PreMultiplied =>
      case PostMultiplied =>
      case Inherit =>
    }
  }

  /** `VkSession::initialize(physical_device_id, window)`. */
  function Initialize(id: usize, driver: Driver): Initialized {
    if !driver.acceptsInstance then Initialized(Err(Todo(InstanceCreationError)), [])
    else
      var created := [CreateInstance({KhrSurface, KhrWaylandSurface})];
      if id >= |driver.devices| then Initialized(Err(PhysicalDeviceIdNotFound(id)), created)
      else
        var physical := driver.devices[id];
        match FirstGraphics(physical.queueFamilies)
        case None => Initialized(Abort(NoGraphicsQueue), created)
        case Some(family) =>
          if !physical.acceptsDevice then Initialized(Abort(DeviceCreationFailed), created)
          else
            var created := created + [CreateDevice(id, family, {KhrSwapchain})];
            if !driver.acceptsSurface then Initialized(Abort(SurfaceCreationFailed), created)
            else
              var created := created + [CreateSurface];
              match physical.capabilities
              case None => Initialized(Abort(CapabilitiesUnavailable), created)
              case Some(caps) =>
                var dimensions := match caps.currentExtent
                  case Some(e) => e
                  case None => Extent(Width, Height);
                match FirstAlpha(caps.supportedCompositeAlpha)
                case None => Initialized(Abort(NoCompositeAlpha), created)
                case Some(alpha) =>
                  if |caps.supportedFormats| == 0 then Initialized(Abort(NoSurfaceFormat), created)
                  else
                    var request := SwapchainRequest(
                      caps.minImageCount, caps.supportedFormats[0].0, dimensions, 1,
                      caps.supportedUsage, Identity, alpha, Fifo, true, SrgbNonLinear);
                    match driver.swapchainImages
                    case None => Initialized(Abort(SwapchainCreationFailed), created)
                    case Some(images) =>
                      Initialized(
                        Ok(VkSession(id, family, request, images, DynamicState(None))),
                        created + [CreateSwapchain(request)])
  }

  /** A device index at or beyond the number of devices is reported as an
      error carrying that index, after the instance and before any device,
      surface or swapchain exists. */
  lemma DeviceIndexOutOfRange(id: usize, driver: Driver)
    requires driver.acceptsInstance && |driver.devices| <= id
    ensures Initialize(id, driver).result == Err(PhysicalDeviceIdNotFound(id))
    ensures Initialize(id, driver).steps == [CreateInstance({KhrSurface, KhrWaylandSurface})]
    ensures forall s :: s in Initialize(id, driver).steps ==> s.CreateInstance?
  {
  }

  /** A device whose queue families all lack graphics support aborts the
      session before a logical device is created. */
  lemma NoGraphicsFamilyAborts(id: usize, driver: Driver)
    requires driver.acceptsInstance && id < |driver.devices|
    requires forall i :: 0 <= i < |driver.devices[id].queueFamilies| ==> !driver.devices[id].queueFamilies[i].graphics
    ensures Initialize(id, driver).result == Abort(NoGraphicsQueue)
    ensures forall s :: s in Initialize(id, driver).steps ==> s.CreateInstance?
  {
  }

  /** The choices a successful `initialize` makes: the device asked for; the
      first queue family with graphics; the surface's current extent, or
      500x500 when it reports none; the first supported format and the first
      supported composite alpha; `min_image_count` images of one layer,
      identity transform, FIFO presentation, clipped, sRGB non-linear; the
      instance with the surface and Wayland-surface extensions and the
      device with the swapchain extension, created in that order. */
  lemma InitializeChoices(id: usize, driver: Driver)
    requires Initialize(id, driver).result.Ok?
    ensures id < |driver.devices|
    ensures var session := Initialize(id, driver).result.value;
      var physical := driver.devices[id];
      var caps := physical.capabilities.value;
      var req := session.swapchain;
      && session.physical == id
      && physical.capabilities.Some?
      && session.queueFamily < |physical.queueFamilies|
      && physical.queueFamilies[session.queueFamily].graphics
      && (forall i :: 0 <= i < session.queueFamily ==> !physical.queueFamilies[i].graphics)
      && (caps.currentExtent.Some? ==> req.dimensions == caps.currentExtent.value)
      && (caps.currentExtent.None? ==> req.dimensions == Extent(Width, Height))
      && |caps.supportedFormats| > 0 && req.format == caps.supportedFormats[0].0
      && req.alpha in caps.supportedCompositeAlpha
      && (forall a :: a in caps.supportedCompositeAlpha ==> AlphaRank(req.alpha) <= AlphaRank(a))
      && req.numImages == caps.minImageCount && req.layers == 1 && req.usage == caps.supportedUsage
      && req.transform == Identity && req.mode == Fifo && req.clipped && req.colorSpace == SrgbNonLinear
      && Some(session.images) == driver.swapchainImages
      && session.dynamicState.viewports.None?
      && Initialize(id, driver).steps == [
           CreateInstance({KhrSurface, KhrWaylandSurface}),
           CreateDevice(id, session.queueFamily, {KhrSwapchain}),
           CreateSurface,
           CreateSwapchain(req)]
  {
  }

  // ----- framebuffers ----------------------------------------------------------

  datatype LoadOp = Load | Clear | DontCareLoad
  datatype StoreOp = Store | DontCareStore

  /** `single_pass_renderpass!` with one colour attachment and one subpass
      writing it. */
  datatype RenderPass = RenderPass(format: ImageFormat, load: LoadOp, store: StoreOp, samples: nat)

  datatype Framebuffer = Framebuffer(renderPass: RenderPass, attachment: Image)

  /** The viewport `new_framebuffers` installs: origin (0, 0), 500x500,
      depth 0 to 1. */
  const FixedViewport := Viewport(0, 0, 500, 500, 0, 1)

  /** `VkSession::new_framebuffers`: one render pass whose colour attachment
      has the swapchain's format and is cleared on load and stored; one
      framebuffer per swapchain image, in image order, each built on that
      render pass; and exactly one dynamic viewport. */
  method NewFramebuffers(session: VkSession) returns (updated: VkSession, framebuffers: seq<Framebuffer>, renderPass: RenderPass)
    ensures updated == session.(dynamicState := DynamicState(Some([Viewport(0, 0, 500, 500, 0, 1)])))
    ensures renderPass == RenderPass(session.swapchain.format, Clear, Store, 1)
    ensures |framebuffers| == |session.images|
    ensures forall k :: 0 <= k < |framebuffers| ==>
      framebuffers[k].renderPass == renderPass && framebuffers[k].attachment == session.images[k]
  {
    updated := session.(dynamicState := DynamicState(Some([FixedViewport])));
    renderPass := RenderPass(session.swapchain.format, Clear, Store, 1);
    framebuffers := [];
    var k := 0;
    while k < |session.images|
      invariant k <= |session.images|
      invariant |framebuffers| == k
      invariant forall j :: 0 <= j < k ==>
        framebuffers[j].renderPass == renderPass && framebuffers[j].attachment == session.images[j]
    {
      framebuffers := framebuffers + [Framebuffer(renderPass, session.images[k])];
      k := k + 1;
    }
  }

  /** The images attached to a list of framebuffers, in order. */
  function Attachments(fbs: seq<Framebuffer>): (r: seq<Image>)
    ensures |r| == |fbs|
  {
    seq(|fbs|, k requires 0 <= k < |fbs| => fbs[k].attachment)
  }

  /** `initialize` followed by `new_framebuffers` on the session it returns:
      there are framebuffers exactly when `initialize` succeeds, and then
      they attach exactly the images `Swapchain::new` returned, in order, so
      there are as many framebuffers as swapchain images. */
  method FramebuffersMatchSwapchain(id: usize, driver: Driver) returns (framebuffers: Option<seq<Framebuffer>>)
    ensures framebuffers.Some? <==> Initialize(id, driver).result.Ok?
    ensures framebuffers.Some? ==> Some(Attachments(framebuffers.value)) == driver.swapchainImages
    ensures framebuffers.Some? ==> |framebuffers.value| == |driver.swapchainImages.value|
  {
    var initialized := Initialize(id, driver);
    if !initialized.result.Ok? {
      return None;
    }
    InitializeChoices(id, driver);
    var session := initialized.result.value;
    var _, fbs, _ := NewFramebuffers(session);
    assert Attachments(fbs) == session.images;
    return Some(fbs);
  }
}
