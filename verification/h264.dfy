/** The request sequences of openmax/h264.cpp -- init_component,
    load_camera_drivers, the port and codec configuration, change_state and
    the port enable/disable handshakes, omx_h264_init, omx_h264_deinit and
    fill_frame_buffer -- as lists of `Omx.Step`, with what they do to the
    pipeline and the order in which they talk to the driver. */
module H264 {
  import opened Events
  import opened Config
  import opened Omx

  // ---------------------------------------------------------------------
  // Port layouts and init_component.

  /** A port range one OMX_IndexParam{Audio,Video,Image,Other}Init query
      reports: nStartPortNumber and nPorts. */
  datatype PortRange = PortRange(start: nat, count: nat)

  /** The four ranges a component reports, in the order they are queried. */
  datatype Layout = Layout(audio: PortRange, video: PortRange, image: PortRange, other: PortRange)

  /** What the three components report; the source does not fix it. */
  datatype Layouts = Layouts(camera: Layout, encoder: Layout, sink: Layout)

  function Range(r: PortRange): (ports: set<nat>)
    ensures forall n: nat :: n in ports <==> r.start <= n < r.start + r.count
    decreases r.count
  {
    if r.count == 0 then {} else Range(PortRange(r.start, r.count - 1)) + {r.start + r.count - 1}
  }

  /** Every port a component has. */
  function Ports(l: Layout): set<nat> {
    Range(l.audio) + Range(l.video) + Range(l.image) + Range(l.other)
  }

  /** The disable request and its wait for each port of a range, in
      increasing port order. */
  function DisableRange(c: Comp, r: PortRange): (s: seq<Step>)
    ensures |s| == 2 * r.count
    ensures forall j :: 0 <= j < |s| ==>
              s[j] == if j % 2 == 0 then Send(DisablePort(c, r.start + j / 2)) else Await(c, PortDisable)
    decreases r.count
  {
    if r.count == 0 then []
    else
      var s := DisableRange(c, PortRange(r.start, r.count - 1));
      s + [Send(DisablePort(c, r.start + r.count - 1)), Await(c, PortDisable)]
  }

  /** The domain query followed by its disables. */
  function DisableDomain(c: Comp, d: Domain, r: PortRange): seq<Step> {
    [Send(QueryPorts(c, d))] + DisableRange(c, r)
  }

  /** init_component: create the flags, get the handle (every port comes up
      enabled), then query each domain and disable its ports one by one. */
  function InitComponent(c: Comp, l: Layout): seq<Step> {
    [Send(CreateFlags(c)), Send(GetHandle(c, Ports(l)))]
      + DisableDomain(c, Audio, l.audio) + DisableDomain(c, Video, l.video)
      + DisableDomain(c, Image, l.image) + DisableDomain(c, Other, l.other)
  }

  /** deinit_component: delete the flags, then free the handle. */
  function DeinitComponent(c: Comp): seq<Step> {
    [Send(DeleteFlags(c)), Send(FreeHandle(c))]
  }

  // ---------------------------------------------------------------------
  // The handshakes.

  /** change_state followed by the wait for EVENT_STATE_SET. */
  function ChangeState(c: Comp, s: OmxState): seq<Step> {
    [Send(SetState(c, s)), Await(c, StateSet)]
  }

  /** The three components moved to one state, camera first, null_sink last. */
  function AllToState(s: OmxState): seq<Step> {
    ChangeState(Camera, s) + ChangeState(Encoder, s) + ChangeState(NullSink, s)
  }

  /** enable_port followed by the wait for EVENT_PORT_ENABLE. */
  function EnableAndWait(c: Comp, port: nat): seq<Step> {
    [Send(EnablePort(c, port)), Await(c, PortEnable)]
  }

  /** disable_port followed by the wait for EVENT_PORT_DISABLE. */
  function DisableAndWait(c: Comp, port: nat): seq<Step> {
    [Send(DisablePort(c, port)), Await(c, PortDisable)]
  }

  /** enable_encoder_output_port: the port is enabled only once its buffer
      is allocated, so the wait comes after the allocation. */
  function EnableEncoderOutput(): seq<Step> {
    [Send(EnablePort(Encoder, 201)), Send(Query(Encoder, 201)), Send(AllocateBuffer), Await(Encoder, PortEnable)]
  }

  /** disable_encoder_output_port: the port is disabled only once its buffer
      is released. */
  function DisableEncoderOutput(): seq<Step> {
    [Send(DisablePort(Encoder, 201)), Send(FreeBuffer), Await(Encoder, PortDisable)]
  }

  // ---------------------------------------------------------------------
  // omx_h264_init.

  /** load_camera_drivers: request the callback, set the device number, and
      wait until the drivers announce themselves. */
  function LoadCameraDrivers(): seq<Step> {
    [ Send(Configure(Camera, CameraCallbackRequest)),
      Send(Configure(Camera, CameraDeviceNumber(0))),
      Await(Camera, ParamOrConfigChanged) ]
  }

  /** The camera's capture and preview port definitions and frame rates. */
  function CameraPorts(): seq<Step> {
    var rate := Q16(VideoFramerate);
    [ Send(Query(Camera, 71)),
      Send(Configure(Camera, CameraPortDefinition(71, CamWidth, CamHeight, CamWidth, rate))),
      Send(Configure(Camera, CameraPortDefinition(70, CamWidth, CamHeight, CamWidth, rate))),
      Send(Configure(Camera, Framerate(71, rate))),
      Send(Configure(Camera, Framerate(70, rate))) ]
  }

  /** Parameter writes to one component, in order. */
  function Configures(c: Comp, settings: seq<Setting>): (s: seq<Step>)
    ensures |s| == |settings|
    ensures forall i :: 0 <= i < |s| ==> s[i] == Send(Configure(c, settings[i]))
    ensures AllConfigSteps(s)
  {
    seq(|settings|, i requires 0 <= i < |settings| => Send(Configure(c, settings[i])))
  }

  /** set_camera_settings. */
  function CameraSettingSteps(): seq<Step> {
    Configures(Camera, CameraSettings(CamWhiteBalance))
  }

  /** The encoder's output port definition. */
  function EncoderPort(): seq<Step> {
    [ Send(Query(Encoder, 201)),
      Send(Configure(Encoder, EncoderPortDefinition(201, CamWidth, CamHeight, CamWidth,
                                                    Q16(VideoFramerate), EncoderPortBitrate(VideoQp)))) ]
  }

  /** set_h264_settings; the IDR period and the AVC profile are read before
      they are written. */
  function H264Settings(): seq<Step> {
    [ Send(Configure(Encoder, RateControl(VideoQp))),
      Send(Configure(Encoder, PortFormat(201))),
      Send(Query(Encoder, 201)),
      Send(Configure(Encoder, IntraPeriod(201, VideoIdrPeriod))),
      Send(Configure(Encoder, SeiEnable(201, VideoSei))),
      Send(Configure(Encoder, EedeEnable(201, VideoEede))),
      Send(Configure(Encoder, EedeLossRate(201, VideoEedeLossRate))),
      Send(Query(Encoder, 201)),
      Send(Configure(Encoder, AvcProfile(201))),
      Send(Configure(Encoder, InlineHeaders(201, VideoInlineHeaders))) ]
  }

  const VideoTunnel := Tunnel(Camera, 71, Encoder, 200)
  const PreviewTunnel := Tunnel(Camera, 70, NullSink, 240)

  function SetupTunnels(): seq<Step> {
    [Send(SetupTunnel(VideoTunnel)), Send(SetupTunnel(PreviewTunnel))]
  }

  /** The tunnel ports, enabled one at a time. */
  function EnableTunnelPorts(): seq<Step> {
    EnableAndWait(Camera, 71) + EnableAndWait(Camera, 70) + EnableAndWait(NullSink, 240)
      + EnableAndWait(Encoder, 200)
  }

  /** Executing, camera first; the encoder must also report its output port
      settings before null_sink is started. */
  function ToExecuting(): seq<Step> {
    ChangeState(Camera, Executing) + ChangeState(Encoder, Executing)
      + [Await(Encoder, PortSettingsChanged)] + ChangeState(NullSink, Executing)
  }

  /** Everything omx_h264_init does before the components leave Loaded. */
  function Configuration(): seq<Step> {
    LoadCameraDrivers() + CameraPorts() + CameraSettingSteps() + EncoderPort() + H264Settings()
  }

  /** The tunnel ports, then the encoder's output port. */
  function EnablePorts(): seq<Step> {
    EnableTunnelPorts() + EnableEncoderOutput()
  }

  /** From Loaded to capturing. */
  function Startup(): seq<Step> {
    SetupTunnels() + AllToState(Idle) + EnablePorts() + ToExecuting() + [Send(SetCapturing(true))]
  }

  /** The part of omx_h264_init that runs while every component is Loaded. */
  function Preamble(ls: Layouts): seq<Step> {
    [Send(IlInit)] + InitComponent(Camera, ls.camera) + InitComponent(Encoder, ls.encoder)
      + InitComponent(NullSink, ls.sink) + Configuration()
  }

  /** omx_h264_init. */
  function InitSteps(ls: Layouts): seq<Step> {
    Preamble(ls) + Startup()
  }

  // ---------------------------------------------------------------------
  // omx_h264_deinit and fill_frame_buffer.

  function DisableTunnelPorts(): seq<Step> {
    DisableAndWait(Camera, 71) + DisableAndWait(Camera, 70) + DisableAndWait(NullSink, 240)
      + DisableAndWait(Encoder, 200)
  }

  /** The tunnel ports, then the encoder's output port, in the order they
      were enabled. */
  function DisablePorts(): seq<Step> {
    DisableTunnelPorts() + DisableEncoderOutput()
  }

  function DeinitComponents(): seq<Step> {
    DeinitComponent(Camera) + DeinitComponent(Encoder) + DeinitComponent(NullSink)
  }

  /** omx_h264_deinit. */
  function DeinitSteps(): seq<Step> {
    [Send(SetCapturing(false))] + AllToState(Idle) + DisablePorts() + AllToState(Loaded)
      + DeinitComponents() + [Send(IlDeinit)]
  }

  /** fill_frame_buffer: hand the buffer to the encoder and wait for it. */
  function FillSteps(): seq<Step> {
    [Send(FillBuffer), Await(Encoder, FillBufferDone)]
  }

  /** `n` calls of fill_frame_buffer: each hands the buffer over and waits
      for it to come back before the next begins. */
  function Fills(n: nat): (s: seq<Step>)
    ensures |s| == 2 * n
    ensures forall j :: 0 <= j < |s| ==>
      s[j] == if j % 2 == 0 then Send(FillBuffer) else Await(Encoder, FillBufferDone)
  {
    if n == 0 then [] else FillSteps() + Fills(n - 1)
  }

  // ---------------------------------------------------------------------
  // What the sequences do to the pipeline.

  /** A step that changes no modelled state: a read, a parameter write, or
      a wait other than the one that returns the encoder's buffer. */
  predicate Inert(s: Step) {
    match s
    case Send(r) => r.QueryPorts? || r.Query? || r.Configure?
    case Await(c, e) => !(c == Encoder && e == FillBufferDone)
  }

  lemma {:induction false} ReplayInert(p: Pipeline, s: seq<Step>)
    requires forall i :: 0 <= i < |s| ==> Inert(s[i])
    ensures Replay(p, s) == p
    decreases |s|
  {
    if |s| > 0 {
      assert Apply(p, s[0]) == p;
      ReplayInert(p, s[1..]);
    }
  }

  /** Disabling one port removes it from the component's enabled set. */
  lemma ReplayDisableOne(p: Pipeline, c: Comp, n: nat)
    ensures Replay(p, [Send(DisablePort(c, n)), Await(c, PortDisable)]) ==
              Put(p, c, Get(p, c).(enabled := Get(p, c).enabled - {n}))
  {
    ReplayPair(p, Send(DisablePort(c, n)), Await(c, PortDisable));
  }

  /** The effect ReplayDisableRange states: the ports of `r` disabled on `c`. */
  function Disabled(p: Pipeline, c: Comp, r: PortRange): Pipeline {
    Put(p, c, Get(p, c).(enabled := Get(p, c).enabled - Range(r)))
  }

  /** Disabling one more port after a range extends the range by that port. */
  lemma DisabledExtend(p: Pipeline, c: Comp, r: PortRange)
    requires r.count > 0
    ensures Replay(Disabled(p, c, PortRange(r.start, r.count - 1)),
                   [Send(DisablePort(c, r.start + r.count - 1)), Await(c, PortDisable)]) == Disabled(p, c, r)
  {
    var r', n, x := PortRange(r.start, r.count - 1), r.start + r.count - 1, Get(p, c);
    var y := x.(enabled := x.enabled - Range(r'));
    ReplayDisableOne(Put(p, c, y), c, n);
    assert y.(enabled := y.enabled - {n}) == x.(enabled := x.enabled - Range(r));
    PutGetPut(p, c, y, x.(enabled := x.enabled - Range(r)));
  }

  /** Disabling a range of ports removes exactly those ports from the
      component's enabled set. */
  lemma {:induction false} ReplayDisableRange(p: Pipeline, c: Comp, r: PortRange)
    ensures Replay(p, DisableRange(c, r)) == Put(p, c, Get(p, c).(enabled := Get(p, c).enabled - Range(r)))
    decreases r.count
  {
    var x := Get(p, c);
    if r.count == 0 {
      PutGetPut(p, c, x, x);
      assert x.(enabled := x.enabled - {}) == x;
    } else {
      var r' := PortRange(r.start, r.count - 1);
      var tail := [Send(DisablePort(c, r.start + r.count - 1)), Await(c, PortDisable)];
      ReplayAppend(p, DisableRange(c, r'), tail);
      ReplayDisableRange(p, c, r');
      DisabledExtend(p, c, r);
    }
  }

  lemma ReplayDisableDomain(p: Pipeline, c: Comp, d: Domain, r: PortRange)
    ensures Replay(p, DisableDomain(c, d, r)) == Put(p, c, Get(p, c).(enabled := Get(p, c).enabled - Range(r)))
  {
    ReplayAppend(p, [Send(QueryPorts(c, d))], DisableRange(c, r));
    ReplayDisableRange(p, c, r);
  }

  /** init_component leaves the component with live flags, a handle, and
      every port it reported disabled. */
  lemma ReplayInitComponent(p: Pipeline, c: Comp, l: Layout)
    ensures Replay(p, InitComponent(c, l)) ==
              Put(p, c, Get(p, c).(flagsLive := true, flags := {}, handle := true, enabled := {}))
  {
    var x := Get(p, c);
    var head := [Send(CreateFlags(c)), Send(GetHandle(c, Ports(l)))];
    var a := DisableDomain(c, Audio, l.audio);
    var v := DisableDomain(c, Video, l.video);
    var i := DisableDomain(c, Image, l.image);
    var o := DisableDomain(c, Other, l.other);
    ReplayAppend(p, head + a + v + i, o);
    ReplayAppend(p, head + a + v, i);
    ReplayAppend(p, head + a, v);
    ReplayAppend(p, head, a);
    var y := x.(flagsLive := true, flags := {}, handle := true);
    var p0 := Put(p, c, y.(enabled := Ports(l)));
    PutGetPut(p, c, x.(flagsLive := true, flags := {}), y.(enabled := Ports(l)));
    ReplayPair(p, head[0], head[1]);
    assert Replay(p, head) == p0;
    ReplayDisableDomain(p0, c, Audio, l.audio);
    var p1 := Put(p, c, y.(enabled := Ports(l) - Range(l.audio)));
    PutGetPut(p, c, y.(enabled := Ports(l)), y.(enabled := Ports(l) - Range(l.audio)));
    ReplayDisableDomain(p1, c, Video, l.video);
    var p2 := Put(p, c, y.(enabled := Ports(l) - Range(l.audio) - Range(l.video)));
    PutGetPut(p, c, y.(enabled := Ports(l) - Range(l.audio)), y.(enabled := Ports(l) - Range(l.audio) - Range(l.video)));
    ReplayDisableDomain(p2, c, Image, l.image);
    var p3 := Put(p, c, y.(enabled := Ports(l) - Range(l.audio) - Range(l.video) - Range(l.image)));
    PutGetPut(p, c, y.(enabled := Ports(l) - Range(l.audio) - Range(l.video)),
              y.(enabled := Ports(l) - Range(l.audio) - Range(l.video) - Range(l.image)));
    ReplayDisableDomain(p3, c, Other, l.other);
    PutGetPut(p, c, y.(enabled := Ports(l) - Range(l.audio) - Range(l.video) - Range(l.image)),
              y.(enabled := {}));
    assert Ports(l) - Range(l.audio) - Range(l.video) - Range(l.image) - Range(l.other) == {};
  }

  lemma ReplayChangeState(p: Pipeline, c: Comp, s: OmxState)
    ensures Replay(p, ChangeState(c, s)) == Put(p, c, Get(p, c).(state := s))
  {
    ReplayPair(p, Send(SetState(c, s)), Await(c, StateSet));
  }

  /** All three components end in the requested state; nothing else moves. */
  lemma ReplayAllToState(p: Pipeline, s: OmxState)
    ensures Replay(p, AllToState(s)) ==
              p.(camera := p.camera.(state := s), encoder := p.encoder.(state := s), sink := p.sink.(state := s))
  {
    ReplayAppend(p, ChangeState(Camera, s) + ChangeState(Encoder, s), ChangeState(NullSink, s));
    ReplayAppend(p, ChangeState(Camera, s), ChangeState(Encoder, s));
    ReplayChangeState(p, Camera, s);
    var p1 := p.(camera := p.camera.(state := s));
    ReplayChangeState(p1, Encoder, s);
    var p2 := p1.(encoder := p.encoder.(state := s));
    ReplayChangeState(p2, NullSink, s);
  }

  lemma ReplayEnableAndWait(p: Pipeline, c: Comp, port: nat)
    ensures Replay(p, EnableAndWait(c, port)) == Put(p, c, Get(p, c).(enabled := Get(p, c).enabled + {port}))
  {
    ReplayPair(p, Send(EnablePort(c, port)), Await(c, PortEnable));
  }

  lemma ReplayDisableAndWait(p: Pipeline, c: Comp, port: nat)
    ensures Replay(p, DisableAndWait(c, port)) == Put(p, c, Get(p, c).(enabled := Get(p, c).enabled - {port}))
  {
    ReplayPair(p, Send(DisablePort(c, port)), Await(c, PortDisable));
  }

  /** The tunnel ports end up enabled on both sides of each tunnel. */
  lemma ReplayEnableTunnelPorts(p: Pipeline)
    ensures Replay(p, EnableTunnelPorts()) ==
              p.(camera := p.camera.(enabled := p.camera.enabled + {71} + {70}),
                 sink := p.sink.(enabled := p.sink.enabled + {240}),
                 encoder := p.encoder.(enabled := p.encoder.enabled + {200}))
  {
    var a, b, c, d := EnableAndWait(Camera, 71), EnableAndWait(Camera, 70),
                      EnableAndWait(NullSink, 240), EnableAndWait(Encoder, 200);
    ReplayAppend(p, a + b + c, d);
    ReplayAppend(p, a + b, c);
    ReplayAppend(p, a, b);
    ReplayEnableAndWait(p, Camera, 71);
    var p1 := p.(camera := p.camera.(enabled := p.camera.enabled + {71}));
    ReplayEnableAndWait(p1, Camera, 70);
    var p2 := p.(camera := p.camera.(enabled := p.camera.enabled + {71} + {70}));
    ReplayEnableAndWait(p2, NullSink, 240);
    var p3 := p2.(sink := p.sink.(enabled := p.sink.enabled + {240}));
    ReplayEnableAndWait(p3, Encoder, 200);
  }

  /** The mirror image of `ReplayEnableTunnelPorts`. */
  lemma ReplayDisableTunnelPorts(p: Pipeline)
    ensures Replay(p, DisableTunnelPorts()) ==
              p.(camera := p.camera.(enabled := p.camera.enabled - {71} - {70}),
                 sink := p.sink.(enabled := p.sink.enabled - {240}),
                 encoder := p.encoder.(enabled := p.encoder.enabled - {200}))
  {
    var a, b, c, d := DisableAndWait(Camera, 71), DisableAndWait(Camera, 70),
                      DisableAndWait(NullSink, 240), DisableAndWait(Encoder, 200);
    ReplayAppend(p, a + b + c, d);
    ReplayAppend(p, a + b, c);
    ReplayAppend(p, a, b);
    ReplayDisableAndWait(p, Camera, 71);
    var p1 := p.(camera := p.camera.(enabled := p.camera.enabled - {71}));
    ReplayDisableAndWait(p1, Camera, 70);
    var p2 := p.(camera := p.camera.(enabled := p.camera.enabled - {71} - {70}));
    ReplayDisableAndWait(p2, NullSink, 240);
    var p3 := p2.(sink := p.sink.(enabled := p.sink.enabled - {240}));
    ReplayDisableAndWait(p3, Encoder, 200);
  }

  /** Port 201 is enabled and the buffer allocated together ... */
  lemma ReplayEnableEncoderOutput(p: Pipeline)
    ensures Replay(p, EnableEncoderOutput()) ==
              p.(encoder := p.encoder.(enabled := p.encoder.enabled + {201}), buffer := Held)
  {
    var a, b, c, d := Send(EnablePort(Encoder, 201)), Send(Query(Encoder, 201)), Send(AllocateBuffer),
                      Await(Encoder, PortEnable);
    var p1 := p.(encoder := p.encoder.(enabled := p.encoder.enabled + {201}));
    assert Replay(p, [a, b]) == p1 by { ReplayPair(p, a, b); }
    assert Replay(p1, [c, d]) == p1.(buffer := Held) by { ReplayPair(p1, c, d); }
    assert EnableEncoderOutput() == [a, b] + [c, d];
    ReplayAppend(p, [a, b], [c, d]);
  }

  /** ... and disabled and the buffer released together. */
  lemma ReplayDisableEncoderOutput(p: Pipeline)
    ensures Replay(p, DisableEncoderOutput()) ==
              p.(encoder := p.encoder.(enabled := p.encoder.enabled - {201}), buffer := NoBuffer)
  {
    var a, b, c := Send(DisablePort(Encoder, 201)), Send(FreeBuffer), Await(Encoder, PortDisable);
    var p1 := p.(encoder := p.encoder.(enabled := p.encoder.enabled - {201}), buffer := NoBuffer);
    assert Replay(p, [a, b]) == p1 by { ReplayPair(p, a, b); }
    assert Replay(p1, [c]) == p1 by { ReplayPair(p1, c, c); }
    assert DisableEncoderOutput() == [a, b] + [c];
    ReplayAppend(p, [a, b], [c]);
  }

  lemma ReplayToExecuting(p: Pipeline)
    ensures Replay(p, ToExecuting()) ==
              p.(camera := p.camera.(state := Executing), encoder := p.encoder.(state := Executing),
                 sink := p.sink.(state := Executing))
  {
    var a, b, w, c := ChangeState(Camera, Executing), ChangeState(Encoder, Executing),
                      [Await(Encoder, PortSettingsChanged)], ChangeState(NullSink, Executing);
    ReplayAppend(p, a + b + w, c);
    ReplayAppend(p, a + b, w);
    ReplayAppend(p, a, b);
    ReplayChangeState(p, Camera, Executing);
    var p1 := p.(camera := p.camera.(state := Executing));
    ReplayChangeState(p1, Encoder, Executing);
    var p2 := p1.(encoder := p.encoder.(state := Executing));
    ReplayPair(p2, Await(Encoder, PortSettingsChanged), Await(Encoder, PortSettingsChanged));
    ReplayChangeState(p2, NullSink, Executing);
  }

  // ---------------------------------------------------------------------
  // The pipeline before, during and after a session.

  /** A component before init_component and after deinit_component. */
  const Unloaded := Component(false, {}, false, Loaded, {})

  /** A component init_component has set up: flags, handle, no port enabled. */
  const Created := Component(true, {}, true, Loaded, {})

  function Running(ports: set<nat>): Component {
    Component(true, {}, true, Executing, ports)
  }

  /** Nothing initialised. */
  const Initial := Pipeline(false, Unloaded, Unloaded, Unloaded, NoBuffer, false, {})

  /** After the three init_component calls. */
  const Configured := Pipeline(true, Created, Created, Created, NoBuffer, false, {})

  /** After omx_h264_init: everything executing and tunnelled, the buffer
      held by the application, the camera capturing. */
  const Ready := Pipeline(true, Running({70, 71}), Running({200, 201}), Running({240}), Held, true,
                          {VideoTunnel, PreviewTunnel})

  lemma ReplayComponents(ls: Layouts)
    ensures Replay(Initial, [Send(IlInit)] + InitComponent(Camera, ls.camera)
                              + InitComponent(Encoder, ls.encoder) + InitComponent(NullSink, ls.sink))
            == Configured
  {
    var a, b, c := InitComponent(Camera, ls.camera), InitComponent(Encoder, ls.encoder),
                   InitComponent(NullSink, ls.sink);
    ReplayAppend(Initial, [Send(IlInit)] + a + b, c);
    ReplayAppend(Initial, [Send(IlInit)] + a, b);
    ReplayAppend(Initial, [Send(IlInit)], a);
    ReplayPair(Initial, Send(IlInit), Send(IlInit));
    var p0 := Initial.(ilUp := true);
    ReplayInitComponent(p0, Camera, ls.camera);
    var p1 := p0.(camera := Created);
    ReplayInitComponent(p1, Encoder, ls.encoder);
    var p2 := p1.(encoder := Created);
    ReplayInitComponent(p2, NullSink, ls.sink);
  }

  /** A step of the configuration phase: a parameter read or write, or the
      wait for the camera drivers. */
  predicate ConfigStep(s: Step) {
    Inert(s) && (s.Await? ==> s == Await(Camera, ParamOrConfigChanged))
  }

  predicate AllConfigSteps(s: seq<Step>) {
    forall i :: 0 <= i < |s| ==> ConfigStep(s[i])
  }

  lemma AllConfigStepsAppend(a: seq<Step>, b: seq<Step>)
    requires AllConfigSteps(a) && AllConfigSteps(b)
    ensures AllConfigSteps(a + b)
  {
    assert forall i :: 0 <= i < |a + b| ==> (a + b)[i] == if i < |a| then a[i] else b[i - |a|];
  }

  lemma ConfigureSteps(c: Comp, settings: seq<Setting>)
    ensures AllConfigSteps(Configures(c, settings))
  {
  }

  /** The configuration phase only reads and writes parameters, apart from
      the wait for the camera drivers. */
  lemma ConfigurationInert()
    ensures AllConfigSteps(Configuration())
  {
    var l, c, s, e, h := LoadCameraDrivers(), CameraPorts(), CameraSettingSteps(), EncoderPort(), H264Settings();
    assert AllConfigSteps(l) && AllConfigSteps(c) && AllConfigSteps(e) && AllConfigSteps(h);
    assert AllConfigSteps(s) by { ConfigureSteps(Camera, CameraSettings(CamWhiteBalance)); }
    AllConfigStepsAppend(l, c);
    AllConfigStepsAppend(l + c, s);
    AllConfigStepsAppend(l + c + s, e);
    AllConfigStepsAppend(l + c + s + e, h);
  }

  /** Configuration steps leave the pipeline alone and await only events a
      driver announces. */
  lemma ConfigStepsHarmless(s: seq<Step>)
    requires AllConfigSteps(s)
    ensures forall i :: 0 <= i < |s| ==> Inert(s[i])
    ensures NominalSteps(s)
  {
  }

  lemma ReplayEnablePorts(p: Pipeline)
    ensures Replay(p, EnablePorts()) ==
              p.(camera := p.camera.(enabled := p.camera.enabled + {71} + {70}),
                 sink := p.sink.(enabled := p.sink.enabled + {240}),
                 encoder := p.encoder.(enabled := p.encoder.enabled + {200} + {201}), buffer := Held)
  {
    ReplayAppend(p, EnableTunnelPorts(), EnableEncoderOutput());
    ReplayEnableTunnelPorts(p);
    ReplayEnableEncoderOutput(Replay(p, EnableTunnelPorts()));
  }

  lemma ReplayStartupIdle(p: Pipeline)
    ensures Replay(p, SetupTunnels() + AllToState(Idle)) ==
              p.(tunnels := p.tunnels + {VideoTunnel} + {PreviewTunnel}, camera := p.camera.(state := Idle),
                 encoder := p.encoder.(state := Idle), sink := p.sink.(state := Idle))
  {
    var p1 := p.(tunnels := p.tunnels + {VideoTunnel} + {PreviewTunnel});
    assert Replay(p, SetupTunnels()) == p1 by {
      ReplayPair(p, Send(SetupTunnel(VideoTunnel)), Send(SetupTunnel(PreviewTunnel)));
    }
    assert Replay(p1, AllToState(Idle)) ==
             p1.(camera := p.camera.(state := Idle), encoder := p.encoder.(state := Idle),
                 sink := p.sink.(state := Idle)) by {
      ReplayAllToState(p1, Idle);
    }
    ReplayAppend(p, SetupTunnels(), AllToState(Idle));
  }

  lemma ReplayStartupPorts(p: Pipeline)
    ensures Replay(p, SetupTunnels() + AllToState(Idle) + EnablePorts()) ==
              p.(tunnels := p.tunnels + {VideoTunnel} + {PreviewTunnel},
                 camera := p.camera.(state := Idle, enabled := p.camera.enabled + {71} + {70}),
                 encoder := p.encoder.(state := Idle, enabled := p.encoder.enabled + {200} + {201}),
                 sink := p.sink.(state := Idle, enabled := p.sink.enabled + {240}), buffer := Held)
  {
    ReplayAppend(p, SetupTunnels() + AllToState(Idle), EnablePorts());
    ReplayStartupIdle(p);
    ReplayEnablePorts(Replay(p, SetupTunnels() + AllToState(Idle)));
  }

  /** The capture switch alone: it sets the capturing flag and nothing else. */
  lemma ReplayCapturing(p: Pipeline, on: bool)
    ensures Replay(p, [Send(SetCapturing(on))]) == p.(capturing := on)
  {
    assert [Send(SetCapturing(on))][1..] == [];
  }

  lemma ReplayStartupExecuting(p: Pipeline)
    ensures Replay(p, SetupTunnels() + AllToState(Idle) + EnablePorts() + ToExecuting()) ==
              p.(tunnels := p.tunnels + {VideoTunnel} + {PreviewTunnel},
                 camera := p.camera.(state := Executing, enabled := p.camera.enabled + {71} + {70}),
                 encoder := p.encoder.(state := Executing, enabled := p.encoder.enabled + {200} + {201}),
                 sink := p.sink.(state := Executing, enabled := p.sink.enabled + {240}), buffer := Held)
  {
    var a := SetupTunnels() + AllToState(Idle) + EnablePorts();
    ReplayAppend(p, a, ToExecuting());
    ReplayStartupPorts(p);
    ReplayToExecuting(Replay(p, a));
  }

  /** From Loaded to capturing: the tunnels are set up, the five tunnel and
      output ports enabled, the buffer allocated, all three components
      executing. */
  lemma ReplayStartup(p: Pipeline)
    ensures Replay(p, Startup()) ==
              p.(tunnels := p.tunnels + {VideoTunnel} + {PreviewTunnel},
                 camera := p.camera.(state := Executing, enabled := p.camera.enabled + {71} + {70}),
                 encoder := p.encoder.(state := Executing, enabled := p.encoder.enabled + {200} + {201}),
                 sink := p.sink.(state := Executing, enabled := p.sink.enabled + {240}),
                 buffer := Held, capturing := true)
  {
    var a := SetupTunnels() + AllToState(Idle) + EnablePorts() + ToExecuting();
    ReplayAppend(p, a, [Send(SetCapturing(true))]);
    ReplayStartupExecuting(p);
    ReplayCapturing(Replay(p, a), true);
  }

  /** Before the tunnels, omx_h264_init creates the three components and
      configures them without changing anything else. */
  lemma ReplayPreamble(ls: Layouts)
    ensures Replay(Initial, Preamble(ls)) == Configured
  {
    var head := [Send(IlInit)] + InitComponent(Camera, ls.camera) + InitComponent(Encoder, ls.encoder)
                  + InitComponent(NullSink, ls.sink);
    assert Replay(Initial, head) == Configured by { ReplayComponents(ls); }
    assert Replay(Configured, Configuration()) == Configured by {
      ConfigurationInert();
      ConfigStepsHarmless(Configuration());
      ReplayInert(Configured, Configuration());
    }
    ReplayAppend(Initial, head, Configuration());
  }

  lemma ReplayReady()
    ensures Replay(Configured, Startup()) == Ready
  {
    ReplayStartup(Configured);
    assert Created.(state := Executing, enabled := {} + {71} + {70}) == Running({70, 71});
    assert Created.(state := Executing, enabled := {} + {200} + {201}) == Running({200, 201});
    assert Created.(state := Executing, enabled := {} + {240}) == Running({240});
  }

  /** omx_h264_init takes the pipeline from nothing to capturing, whatever
      port layout the components report. */
  lemma InitReachesReady(ls: Layouts)
    ensures Replay(Initial, InitSteps(ls)) == Ready
  {
    ReplayPreamble(ls);
    ReplayReady();
    ReplayAppend(Initial, Preamble(ls), Startup());
  }

  /** fill_frame_buffer hands the buffer out and gets it back. */
  lemma ReplayFill(p: Pipeline)
    ensures Replay(p, FillSteps()) == p.(buffer := Held)
  {
    ReplayPair(p, Send(FillBuffer), Await(Encoder, FillBufferDone));
  }

  lemma {:induction false} ReplayFills(n: nat)
    ensures Replay(Ready, Fills(n)) == Ready
  {
    if n > 0 {
      ReplayAppend(Ready, FillSteps(), Fills(n - 1));
      ReplayFill(Ready);
      ReplayFills(n - 1);
    }
  }

  lemma ReplayDisablePorts(p: Pipeline)
    ensures Replay(p, DisablePorts()) ==
              p.(camera := p.camera.(enabled := p.camera.enabled - {71} - {70}),
                 sink := p.sink.(enabled := p.sink.enabled - {240}),
                 encoder := p.encoder.(enabled := p.encoder.enabled - {200} - {201}), buffer := NoBuffer)
  {
    ReplayAppend(p, DisableTunnelPorts(), DisableEncoderOutput());
    ReplayDisableTunnelPorts(p);
    ReplayDisableEncoderOutput(Replay(p, DisableTunnelPorts()));
  }

  /** Releasing the three components removes every tunnel, since each one
      has a released component at one end. */
  lemma ReplayDeinitComponents(p: Pipeline)
    ensures Replay(p, DeinitComponents()) ==
              p.(camera := p.camera.(flagsLive := false, flags := {}, handle := false),
                 encoder := p.encoder.(flagsLive := false, flags := {}, handle := false),
                 sink := p.sink.(flagsLive := false, flags := {}, handle := false),
                 tunnels := {})
  {
    var dc, de, dn := DeinitComponent(Camera), DeinitComponent(Encoder), DeinitComponent(NullSink);
    ReplayAppend(p, dc + de, dn);
    ReplayAppend(p, dc, de);
    ReplayPair(p, Send(DeleteFlags(Camera)), Send(FreeHandle(Camera)));
    var p1 := Replay(p, dc);
    ReplayPair(p1, Send(DeleteFlags(Encoder)), Send(FreeHandle(Encoder)));
    var p2 := Replay(p1, de);
    ReplayPair(p2, Send(DeleteFlags(NullSink)), Send(FreeHandle(NullSink)));
    assert Replay(p2, dn).tunnels == {};
  }

  lemma ReplayStopCapture(p: Pipeline)
    ensures Replay(p, [Send(SetCapturing(false))] + AllToState(Idle)) ==
              p.(capturing := false, camera := p.camera.(state := Idle), encoder := p.encoder.(state := Idle),
                 sink := p.sink.(state := Idle))
  {
    var c := [Send(SetCapturing(false))];
    var p1 := p.(capturing := false);
    assert Replay(p, c) == p1 by { ReplayPair(p, Send(SetCapturing(false)), Send(SetCapturing(false))); }
    assert Replay(p1, AllToState(Idle)) ==
             p1.(camera := p.camera.(state := Idle), encoder := p.encoder.(state := Idle),
                 sink := p.sink.(state := Idle)) by {
      ReplayAllToState(p1, Idle);
    }
    ReplayAppend(p, c, AllToState(Idle));
  }

  lemma ReplayShutdownPorts(p: Pipeline)
    ensures Replay(p, [Send(SetCapturing(false))] + AllToState(Idle) + DisablePorts()) ==
              p.(capturing := false, buffer := NoBuffer,
                 camera := p.camera.(state := Idle, enabled := p.camera.enabled - {71} - {70}),
                 encoder := p.encoder.(state := Idle, enabled := p.encoder.enabled - {200} - {201}),
                 sink := p.sink.(state := Idle, enabled := p.sink.enabled - {240}))
  {
    var a := [Send(SetCapturing(false))] + AllToState(Idle);
    var p2 := p.(capturing := false, camera := p.camera.(state := Idle), encoder := p.encoder.(state := Idle),
                 sink := p.sink.(state := Idle));
    assert Replay(p, a) == p2 by { ReplayStopCapture(p); }
    ReplayDisablePorts(p2);
    ReplayAppend(p, a, DisablePorts());
  }

  /** omx_h264_deinit: capture stops, all five ports are disabled, the
      buffer released, every component back in Loaded with its flags and
      handle gone (and the tunnels with them), OpenMAX IL shut down. */
  lemma ReplayDeinit(p: Pipeline)
    ensures Replay(p, DeinitSteps()) ==
              p.(ilUp := false, capturing := false, buffer := NoBuffer, tunnels := {},
                 camera := p.camera.(flagsLive := false, flags := {}, handle := false, state := Loaded,
                                     enabled := p.camera.enabled - {71} - {70}),
                 encoder := p.encoder.(flagsLive := false, flags := {}, handle := false, state := Loaded,
                                       enabled := p.encoder.enabled - {200} - {201}),
                 sink := p.sink.(flagsLive := false, flags := {}, handle := false, state := Loaded,
                                 enabled := p.sink.enabled - {240}))
  {
    var a := [Send(SetCapturing(false))] + AllToState(Idle) + DisablePorts();
    var b := a + AllToState(Loaded);
    ReplayAppend(p, b + DeinitComponents(), [Send(IlDeinit)]);
    ReplayAppend(p, b, DeinitComponents());
    ReplayAppend(p, a, AllToState(Loaded));
    ReplayShutdownPorts(p);
    ReplayAllToState(Replay(p, a), Loaded);
    ReplayDeinitComponents(Replay(p, b));
    ReplayPair(Replay(p, b + DeinitComponents()), Send(IlDeinit), Send(IlDeinit));
  }

  /** omx_h264_deinit undoes omx_h264_init. */
  lemma DeinitRestoresInitial()
    ensures Replay(Ready, DeinitSteps()) == Initial
  {
    ReplayDeinit(Ready);
  }

  // ---------------------------------------------------------------------
  // A whole streaming session.

  /** One stream_thread lifetime: init, `n` frames, deinit. */
  function Session(ls: Layouts, n: nat): seq<Step> {
    InitSteps(ls) + Fills(n) + DeinitSteps()
  }

  /** A session leaves the pipeline exactly as it found it: every component
      Loaded with no flags, no handle and no port enabled, no buffer, no
      tunnel, capture off and OpenMAX IL shut down. */
  lemma SessionRoundTrip(ls: Layouts, n: nat)
    ensures Replay(Initial, Session(ls, n)) == Initial
  {
    ReplayAppend(Initial, InitSteps(ls) + Fills(n), DeinitSteps());
    ReplayAppend(Initial, InitSteps(ls), Fills(n));
    InitReachesReady(ls);
    ReplayFills(n);
    DeinitRestoresInitial();
  }

  lemma NominalInitComponent(c: Comp, l: Layout)
    ensures NominalSteps(InitComponent(c, l))
  {
    var a, v, i, o := DisableRange(c, l.audio), DisableRange(c, l.video), DisableRange(c, l.image),
                      DisableRange(c, l.other);
    assert NominalSteps(a) && NominalSteps(v) && NominalSteps(i) && NominalSteps(o);
    var head := [Send(CreateFlags(c)), Send(GetHandle(c, Ports(l)))];
    NominalStepsAppend(head, DisableDomain(c, Audio, l.audio));
    NominalStepsAppend([Send(QueryPorts(c, Audio))], a);
    NominalStepsAppend(head + DisableDomain(c, Audio, l.audio), DisableDomain(c, Video, l.video));
    NominalStepsAppend([Send(QueryPorts(c, Video))], v);
    NominalStepsAppend(head + DisableDomain(c, Audio, l.audio) + DisableDomain(c, Video, l.video),
                  DisableDomain(c, Image, l.image));
    NominalStepsAppend([Send(QueryPorts(c, Image))], i);
    NominalStepsAppend(head + DisableDomain(c, Audio, l.audio) + DisableDomain(c, Video, l.video)
                    + DisableDomain(c, Image, l.image), DisableDomain(c, Other, l.other));
    NominalStepsAppend([Send(QueryPorts(c, Other))], o);
  }

  lemma {:induction false} NominalFills(n: nat)
    ensures NominalSteps(Fills(n))
  {
    if n > 0 {
      NominalFills(n - 1);
      NominalStepsAppend(FillSteps(), Fills(n - 1));
    }
  }

  lemma NominalAllToState(s: OmxState)
    ensures NominalSteps(AllToState(s))
  {
    NominalStepsAppend(ChangeState(Camera, s), ChangeState(Encoder, s));
    NominalStepsAppend(ChangeState(Camera, s) + ChangeState(Encoder, s), ChangeState(NullSink, s));
  }

  lemma NominalStartup()
    ensures NominalSteps(Startup())
  {
    var t, i, e, x, c := SetupTunnels(), AllToState(Idle), EnablePorts(), ToExecuting(),
                         [Send(SetCapturing(true))];
    NominalAllToState(Idle);
    assert NominalSteps(e) by {
      NominalStepsAppend(EnableAndWait(Camera, 71), EnableAndWait(Camera, 70));
      NominalStepsAppend(EnableAndWait(Camera, 71) + EnableAndWait(Camera, 70), EnableAndWait(NullSink, 240));
      NominalStepsAppend(EnableAndWait(Camera, 71) + EnableAndWait(Camera, 70) + EnableAndWait(NullSink, 240),
                    EnableAndWait(Encoder, 200));
      NominalStepsAppend(EnableTunnelPorts(), EnableEncoderOutput());
    }
    assert NominalSteps(x) by {
      NominalStepsAppend(ChangeState(Camera, Executing), ChangeState(Encoder, Executing));
      NominalStepsAppend(ChangeState(Camera, Executing) + ChangeState(Encoder, Executing),
                    [Await(Encoder, PortSettingsChanged)]);
      NominalStepsAppend(ChangeState(Camera, Executing) + ChangeState(Encoder, Executing)
                      + [Await(Encoder, PortSettingsChanged)], ChangeState(NullSink, Executing));
    }
    NominalStepsAppend(t, i);
    NominalStepsAppend(t + i, e);
    NominalStepsAppend(t + i + e, x);
    NominalStepsAppend(t + i + e + x, c);
  }

  lemma NominalDeinit()
    ensures NominalSteps(DeinitSteps())
  {
    var c, i, d, l, r, il := [Send(SetCapturing(false))], AllToState(Idle), DisablePorts(), AllToState(Loaded),
                             DeinitComponents(), [Send(IlDeinit)];
    NominalAllToState(Idle);
    NominalAllToState(Loaded);
    assert NominalSteps(d) by {
      NominalStepsAppend(DisableAndWait(Camera, 71), DisableAndWait(Camera, 70));
      NominalStepsAppend(DisableAndWait(Camera, 71) + DisableAndWait(Camera, 70), DisableAndWait(NullSink, 240));
      NominalStepsAppend(DisableAndWait(Camera, 71) + DisableAndWait(Camera, 70) + DisableAndWait(NullSink, 240),
                    DisableAndWait(Encoder, 200));
      NominalStepsAppend(DisableTunnelPorts(), DisableEncoderOutput());
    }
    assert NominalSteps(r) by {
      NominalStepsAppend(DeinitComponent(Camera), DeinitComponent(Encoder));
      NominalStepsAppend(DeinitComponent(Camera) + DeinitComponent(Encoder), DeinitComponent(NullSink));
    }
    NominalStepsAppend(c, i);
    NominalStepsAppend(c + i, d);
    NominalStepsAppend(c + i + d, l);
    NominalStepsAppend(c + i + d + l, r);
    NominalStepsAppend(c + i + d + l + r, il);
  }

  lemma NominalComponents(ls: Layouts)
    ensures NominalSteps([Send(IlInit)] + InitComponent(Camera, ls.camera) + InitComponent(Encoder, ls.encoder)
                           + InitComponent(NullSink, ls.sink))
  {
    var a := [Send(IlInit)] + InitComponent(Camera, ls.camera);
    var b := a + InitComponent(Encoder, ls.encoder);
    NominalInitComponent(Camera, ls.camera);
    NominalInitComponent(Encoder, ls.encoder);
    NominalInitComponent(NullSink, ls.sink);
    NominalStepsAppend([Send(IlInit)], InitComponent(Camera, ls.camera));
    NominalStepsAppend(a, InitComponent(Encoder, ls.encoder));
    NominalStepsAppend(b, InitComponent(NullSink, ls.sink));
  }

  lemma NominalPreamble(ls: Layouts)
    ensures NominalSteps(Preamble(ls))
  {
    var c := [Send(IlInit)] + InitComponent(Camera, ls.camera) + InitComponent(Encoder, ls.encoder)
               + InitComponent(NullSink, ls.sink);
    NominalComponents(ls);
    assert NominalSteps(Configuration()) by {
      ConfigurationInert();
      ConfigStepsHarmless(Configuration());
    }
    NominalStepsAppend(c, Configuration());
  }

  lemma NominalInit(ls: Layouts)
    ensures NominalSteps(InitSteps(ls))
  {
    NominalPreamble(ls);
    NominalStartup();
    NominalStepsAppend(Preamble(ls), Startup());
  }

  lemma NominalSessionSteps(ls: Layouts, n: nat)
    ensures NominalSteps(Session(ls, n))
  {
    NominalInit(ls);
    NominalFills(n);
    NominalStepsAppend(InitSteps(ls), Fills(n));
    NominalDeinit();
    NominalStepsAppend(InitSteps(ls) + Fills(n), DeinitSteps());
  }

  /** Against a driver that accepts every request and announces each awaited
      event, a whole session runs to completion and ends in `Initial`. */
  lemma NominalSession(ls: Layouts, n: nat)
    ensures Run(Initial, Nominal(Session(ls, n)), 0) == Completed(Initial)
  {
    NominalSessionSteps(ls, n);
    NominalRun(Initial, Session(ls, n), 0);
    SessionRoundTrip(ls, n);
  }
}
