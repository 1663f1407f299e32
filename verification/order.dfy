/** The order in which openmax/h264.cpp talks to the driver: every
    asynchronous request is followed by the wait for its acknowledgement
    before the next asynchronous request is made, and omx_h264_deinit undoes
    the transitions and port enables of omx_h264_init in the same order. */
module Order {
  import opened Events
  import opened Config
  import opened Omx
  import opened H264

  /** The flag that acknowledges a request on a component. */
  datatype Ack = Ack(c: Comp, e: Event)

  /** The acknowledgement an asynchronous request is owed: the completion of
      a state change, a port enable or disable, the driver load that setting
      the camera device number starts, or a filled buffer. Everything else
      completes when the call returns. */
  function AckOf(r: Request): (a: Option<Ack>)
    ensures a.Some? <==> r.SetState? || r.EnablePort? || r.DisablePort? || r.FillBuffer? ||
                         (r.Configure? && r.setting.CameraDeviceNumber?)
    ensures a.Some? ==> Awaitable(a.value.e)
  {
    match r
    case SetState(c, _) => Some(Ack(c, StateSet))
    case EnablePort(c, _) => Some(Ack(c, PortEnable))
    case DisablePort(c, _) => Some(Ack(c, PortDisable))
    case Configure(c, setting) =>
      if setting.CameraDeviceNumber? then Some(Ack(c, ParamOrConfigChanged)) else None
    case FillBuffer => Some(Ack(Encoder, FillBufferDone))
    case _ => None
  }

  predicate IsRequest(s: Step) {
    s.Send? && AckOf(s.req).Some?
  }

  /** A step that synchronises with the driver: an asynchronous request or a
      wait. */
  predicate IsSync(s: Step) {
    IsRequest(s) || s.Await?
  }

  /** Scan the steps with `pending` the acknowledgement still owed: a request
      while one is owed, or a wait for something other than what is owed,
      fails, and so does ending with one owed. A wait with nothing owed is
      allowed (the encoder's port-settings report is such a wait). */
  function Scan(s: seq<Step>, pending: Option<Ack>): bool
    decreases |s|
  {
    if |s| == 0 then pending.None?
    else
      match s[0]
      case Send(r) =>
        if AckOf(r).Some? then pending.None? && Scan(s[1..], AckOf(r)) else Scan(s[1..], pending)
      case Await(c, e) => (pending.None? || pending == Some(Ack(c, e))) && Scan(s[1..], None)
  }

  predicate Gated(s: seq<Step>) {
    Scan(s, None)
  }

  lemma {:induction false} ScanAppend(a: seq<Step>, b: seq<Step>, pending: Option<Ack>)
    requires Scan(a, pending) && Gated(b)
    ensures Scan(a + b, pending)
    decreases |a|
  {
    if |a| == 0 {
      assert a + b == b;
    } else {
      assert (a + b)[0] == a[0];
      assert (a + b)[1..] == a[1..] + b;
      match a[0]
      case Send(r) =>
        ScanAppend(a[1..], b, if AckOf(r).Some? then AckOf(r) else pending);
      case Await(c, e) =>
        ScanAppend(a[1..], b, None);
    }
  }

  /** With `k` owed, the first synchronising step is the wait for `k`. */
  lemma {:induction false} FirstSync(t: seq<Step>, k: Ack)
    requires Scan(t, Some(k))
    ensures exists j :: 0 <= j < |t| && t[j] == Await(k.c, k.e) && forall m :: 0 <= m < j ==> !IsSync(t[m])
    decreases |t|
  {
    match t[0]
    case Await(c, e) =>
      assert t[0] == Await(k.c, k.e);
    case Send(r) =>
      FirstSync(t[1..], k);
      var j :| 0 <= j < |t[1..]| && t[1..][j] == Await(k.c, k.e) && forall m :: 0 <= m < j ==> !IsSync(t[1..][m]);
      assert t[j + 1] == Await(k.c, k.e);
      forall m | 0 <= m < j + 1 ensures !IsSync(t[m]) {
        if m > 0 {
          assert t[m] == t[1..][m - 1];
        }
      }
  }

  /** In a gated sequence, every asynchronous request is followed by the
      wait for its acknowledgement, with no other request or wait in
      between. */
  lemma {:induction false} GatedAcknowledged(s: seq<Step>, pending: Option<Ack>, i: nat)
    requires Scan(s, pending) && i < |s| && IsRequest(s[i])
    ensures exists j :: i < j < |s| && s[j] == Await(AckOf(s[i].req).value.c, AckOf(s[i].req).value.e) &&
                        forall m :: i < m < j ==> !IsSync(s[m])
    decreases |s|
  {
    var k := AckOf(s[i].req).value;
    if i == 0 {
      FirstSync(s[1..], k);
      var j :| 0 <= j < |s[1..]| && s[1..][j] == Await(k.c, k.e) && forall m :: 0 <= m < j ==> !IsSync(s[1..][m]);
      assert s[j + 1] == Await(k.c, k.e);
      forall m | 0 < m < j + 1 ensures !IsSync(s[m]) {
        assert s[m] == s[1..][m - 1];
      }
    } else {
      var next := match s[0]
                  case Send(r) => if AckOf(r).Some? then AckOf(r) else pending
                  case Await(_, _) => None;
      assert Scan(s[1..], next);
      assert s[1..][i - 1] == s[i];
      GatedAcknowledged(s[1..], next, i - 1);
      var j :| i - 1 < j < |s[1..]| && s[1..][j] == Await(k.c, k.e) &&
               forall m :: i - 1 < m < j ==> !IsSync(s[1..][m]);
      assert s[j + 1] == Await(k.c, k.e);
      forall m | i < m < j + 1 ensures !IsSync(s[m]) {
        assert s[m] == s[1..][m - 1];
      }
    }
  }

  /** A request followed directly by its acknowledgement. */
  lemma GatedHandshake(r: Request, a: Ack)
    requires AckOf(r) == Some(a)
    ensures Gated([Send(r), Await(a.c, a.e)])
  {
    assert [Send(r), Await(a.c, a.e)][1..] == [Await(a.c, a.e)];
    assert [Await(a.c, a.e)][1..] == [];
  }

  /** Steps that do not synchronise pass through the scanner untouched. */
  lemma {:induction false} ScanQuiet(s: seq<Step>, pending: Option<Ack>)
    requires forall i :: 0 <= i < |s| ==> !IsSync(s[i])
    ensures Scan(s, pending) == pending.None?
    decreases |s|
  {
    if |s| > 0 {
      assert !IsSync(s[0]);
      ScanQuiet(s[1..], pending);
    }
  }

  lemma {:induction false} GatedDisableRange(c: Comp, r: PortRange)
    ensures Gated(DisableRange(c, r))
    decreases r.count
  {
    if r.count > 0 {
      var r' := PortRange(r.start, r.count - 1);
      GatedDisableRange(c, r');
      GatedHandshake(DisablePort(c, r.start + r.count - 1), Ack(c, PortDisable));
      ScanAppend(DisableRange(c, r'), [Send(DisablePort(c, r.start + r.count - 1)), Await(c, PortDisable)], None);
    }
  }

  lemma GatedDisableDomain(c: Comp, d: Domain, r: PortRange)
    ensures Gated(DisableDomain(c, d, r))
  {
    GatedDisableRange(c, r);
    assert [Send(QueryPorts(c, d))][1..] == [];
    ScanAppend([Send(QueryPorts(c, d))], DisableRange(c, r), None);
  }

  lemma GatedInitComponent(c: Comp, l: Layout)
    ensures Gated(InitComponent(c, l))
  {
    var head := [Send(CreateFlags(c)), Send(GetHandle(c, Ports(l)))];
    assert head[1..][1..] == [];
    var a, v, i, o := DisableDomain(c, Audio, l.audio), DisableDomain(c, Video, l.video),
                      DisableDomain(c, Image, l.image), DisableDomain(c, Other, l.other);
    GatedDisableDomain(c, Audio, l.audio);
    GatedDisableDomain(c, Video, l.video);
    GatedDisableDomain(c, Image, l.image);
    GatedDisableDomain(c, Other, l.other);
    ScanAppend(head, a, None);
    ScanAppend(head + a, v, None);
    ScanAppend(head + a + v, i, None);
    ScanAppend(head + a + v + i, o, None);
  }

  /** set_camera_settings makes no asynchronous request. */
  lemma GatedCameraSettings()
    ensures Gated(CameraSettingSteps())
  {
    var settings := CameraSettings(CamWhiteBalance);
    assert forall i :: 0 <= i < |settings| ==> !settings[i].CameraDeviceNumber?;
    ScanQuiet(CameraSettingSteps(), None);
  }

  /** Five gated blocks in a row are gated. */
  lemma GatedFive(a: seq<Step>, b: seq<Step>, c: seq<Step>, d: seq<Step>, e: seq<Step>)
    requires Gated(a) && Gated(b) && Gated(c) && Gated(d) && Gated(e)
    ensures Gated(a + b + c + d + e)
  {
    ScanAppend(a, b, None);
    ScanAppend(a + b, c, None);
    ScanAppend(a + b + c, d, None);
    ScanAppend(a + b + c + d, e, None);
  }

  lemma GatedLoadCameraDrivers()
    ensures Gated(LoadCameraDrivers())
  {
    var l := LoadCameraDrivers();
    assert l[1..][1..][1..] == [];
  }

  lemma GatedCameraPorts()
    ensures Gated(CameraPorts())
  {
    ScanQuiet(CameraPorts(), None);
  }

  lemma GatedEncoderSettings()
    ensures Gated(EncoderPort()) && Gated(H264Settings())
  {
    ScanQuiet(EncoderPort(), None);
    ScanQuiet(H264Settings(), None);
  }

  /** The driver load is the only handshake of the configuration phase. */
  lemma GatedConfiguration()
    ensures Gated(Configuration())
  {
    GatedLoadCameraDrivers();
    GatedCameraPorts();
    GatedCameraSettings();
    GatedEncoderSettings();
    GatedFive(LoadCameraDrivers(), CameraPorts(), CameraSettingSteps(), EncoderPort(), H264Settings());
  }

  lemma GatedAllToState(s: OmxState)
    ensures Gated(AllToState(s))
  {
    GatedHandshake(SetState(Camera, s), Ack(Camera, StateSet));
    GatedHandshake(SetState(Encoder, s), Ack(Encoder, StateSet));
    GatedHandshake(SetState(NullSink, s), Ack(NullSink, StateSet));
    ScanAppend(ChangeState(Camera, s), ChangeState(Encoder, s), None);
    ScanAppend(ChangeState(Camera, s) + ChangeState(Encoder, s), ChangeState(NullSink, s), None);
  }

  lemma GatedEnablePorts()
    ensures Gated(EnablePorts())
  {
    var a, b, d, f := EnableAndWait(Camera, 71), EnableAndWait(Camera, 70), EnableAndWait(NullSink, 240),
                      EnableAndWait(Encoder, 200);
    GatedHandshake(EnablePort(Camera, 71), Ack(Camera, PortEnable));
    GatedHandshake(EnablePort(Camera, 70), Ack(Camera, PortEnable));
    GatedHandshake(EnablePort(NullSink, 240), Ack(NullSink, PortEnable));
    GatedHandshake(EnablePort(Encoder, 200), Ack(Encoder, PortEnable));
    assert Gated(EnableEncoderOutput());
    ScanAppend(a, b, None);
    ScanAppend(a + b, d, None);
    ScanAppend(a + b + d, f, None);
    ScanAppend(EnableTunnelPorts(), EnableEncoderOutput(), None);
  }

  lemma GatedToExecuting()
    ensures Gated(ToExecuting())
  {
    var a, b, w, d := ChangeState(Camera, Executing), ChangeState(Encoder, Executing),
                      [Await(Encoder, PortSettingsChanged)], ChangeState(NullSink, Executing);
    GatedHandshake(SetState(Camera, Executing), Ack(Camera, StateSet));
    GatedHandshake(SetState(Encoder, Executing), Ack(Encoder, StateSet));
    GatedHandshake(SetState(NullSink, Executing), Ack(NullSink, StateSet));
    assert Gated(w);
    ScanAppend(a, b, None);
    ScanAppend(a + b, w, None);
    ScanAppend(a + b + w, d, None);
  }

  lemma GatedStartup()
    ensures Gated(Startup())
  {
    var t, i, e, x, c := SetupTunnels(), AllToState(Idle), EnablePorts(), ToExecuting(),
                         [Send(SetCapturing(true))];
    assert Gated(t) && Gated(c);
    GatedAllToState(Idle);
    GatedEnablePorts();
    GatedToExecuting();
    ScanAppend(t, i, None);
    ScanAppend(t + i, e, None);
    ScanAppend(t + i + e, x, None);
    ScanAppend(t + i + e + x, c, None);
  }

  /** omx_h264_init never has two asynchronous requests outstanding. */
  lemma GatedInit(ls: Layouts)
    ensures Gated(InitSteps(ls))
  {
    var a := [Send(IlInit)] + InitComponent(Camera, ls.camera);
    var b := a + InitComponent(Encoder, ls.encoder);
    var c := b + InitComponent(NullSink, ls.sink);
    assert Gated(c) by {
      assert Gated([Send(IlInit)]);
      GatedInitComponent(Camera, ls.camera);
      GatedInitComponent(Encoder, ls.encoder);
      GatedInitComponent(NullSink, ls.sink);
      ScanAppend([Send(IlInit)], InitComponent(Camera, ls.camera), None);
      ScanAppend(a, InitComponent(Encoder, ls.encoder), None);
      ScanAppend(b, InitComponent(NullSink, ls.sink), None);
    }
    GatedConfiguration();
    GatedStartup();
    ScanAppend(c, Configuration(), None);
    ScanAppend(c + Configuration(), Startup(), None);
  }

  lemma GatedDisablePorts()
    ensures Gated(DisablePorts())
  {
    var a, b, e, f := DisableAndWait(Camera, 71), DisableAndWait(Camera, 70), DisableAndWait(NullSink, 240),
                      DisableAndWait(Encoder, 200);
    GatedHandshake(DisablePort(Camera, 71), Ack(Camera, PortDisable));
    GatedHandshake(DisablePort(Camera, 70), Ack(Camera, PortDisable));
    GatedHandshake(DisablePort(NullSink, 240), Ack(NullSink, PortDisable));
    GatedHandshake(DisablePort(Encoder, 200), Ack(Encoder, PortDisable));
    assert Gated(DisableEncoderOutput());
    ScanAppend(a, b, None);
    ScanAppend(a + b, e, None);
    ScanAppend(a + b + e, f, None);
    ScanAppend(DisableTunnelPorts(), DisableEncoderOutput(), None);
  }

  /** omx_h264_deinit never has two asynchronous requests outstanding. */
  lemma GatedDeinit()
    ensures Gated(DeinitSteps())
  {
    var c, i, d, l, r, il := [Send(SetCapturing(false))], AllToState(Idle), DisablePorts(), AllToState(Loaded),
                             DeinitComponents(), [Send(IlDeinit)];
    assert Gated(c) && Gated(il) && Gated(r);
    GatedAllToState(Idle);
    GatedAllToState(Loaded);
    GatedDisablePorts();
    ScanAppend(c, i, None);
    ScanAppend(c + i, d, None);
    ScanAppend(c + i + d, l, None);
    ScanAppend(c + i + d + l, r, None);
    ScanAppend(c + i + d + l + r, il, None);
  }

  lemma {:induction false} GatedFills(n: nat)
    ensures Gated(Fills(n))
  {
    if n > 0 {
      GatedFills(n - 1);
      GatedHandshake(FillBuffer, Ack(Encoder, FillBufferDone));
      ScanAppend(FillSteps(), Fills(n - 1), None);
    }
  }

  /** A whole session is gated, so (by GatedAcknowledged) each of its
      requests is acknowledged before the next one is made. */
  lemma GatedSession(ls: Layouts, n: nat)
    ensures Gated(Session(ls, n))
  {
    GatedInit(ls);
    GatedFills(n);
    GatedDeinit();
    ScanAppend(InitSteps(ls), Fills(n), None);
    ScanAppend(InitSteps(ls) + Fills(n), DeinitSteps(), None);
  }

  // ---------------------------------------------------------------------
  // Init and deinit mirror each other.

  /** The values `f` picks out of a sequence of steps, in order. */
  function Pick<T>(s: seq<Step>, f: Step -> Option<T>): (r: seq<T>)
    ensures |r| <= |s|
    decreases |s|
  {
    if |s| == 0 then []
    else (if f(s[0]).Some? then [f(s[0]).value] else []) + Pick(s[1..], f)
  }

  lemma {:induction false} PickAppend<T>(a: seq<Step>, b: seq<Step>, f: Step -> Option<T>)
    ensures Pick(a + b, f) == Pick(a, f) + Pick(b, f)
    decreases |a|
  {
    if |a| == 0 {
      assert a + b == b;
    } else {
      var h := if f(a[0]).Some? then [f(a[0]).value] else [];
      assert Pick(a, f) == h + Pick(a[1..], f);
      assert (a + b)[0] == a[0];
      assert (a + b)[1..] == a[1..] + b;
      assert Pick(a + b, f) == h + Pick(a[1..] + b, f);
      PickAppend(a[1..], b, f);
      assert h + (Pick(a[1..], f) + Pick(b, f)) == (h + Pick(a[1..], f)) + Pick(b, f);
    }
  }

  lemma {:induction false} PickNone<T>(s: seq<Step>, f: Step -> Option<T>)
    requires forall i :: 0 <= i < |s| ==> f(s[i]).None?
    ensures Pick(s, f) == []
    decreases |s|
  {
    if |s| > 0 {
      assert f(s[0]).None?;
      PickNone(s[1..], f);
    }
  }

  /** A state change request: the component and its target state. */
  function Transition(s: Step): Option<(Comp, OmxState)> {
    if s.Send? && s.req.SetState? then Some((s.req.c, s.req.target)) else None
  }

  /** A port enable request. */
  function Enabling(s: Step): Option<(Comp, nat)> {
    if s.Send? && s.req.EnablePort? then Some((s.req.c, s.req.port)) else None
  }

  /** A port disable request. */
  function Disabling(s: Step): Option<(Comp, nat)> {
    if s.Send? && s.req.DisablePort? then Some((s.req.c, s.req.port)) else None
  }

  lemma PickOne<T>(x: Step, f: Step -> Option<T>)
    ensures Pick([x], f) == if f(x).Some? then [f(x).value] else []
  {
    assert [x][1..] == [];
  }

  /** Steps that neither change a state nor enable a port. */
  predicate Silent(s: seq<Step>) {
    forall i :: 0 <= i < |s| ==> Transition(s[i]).None? && Enabling(s[i]).None?
  }

  lemma SilentAppend(a: seq<Step>, b: seq<Step>)
    requires Silent(a) && Silent(b)
    ensures Silent(a + b)
  {
    assert forall i :: 0 <= i < |a + b| ==> (a + b)[i] == if i < |a| then a[i] else b[i - |a|];
  }

  lemma SilentPicksNothing(s: seq<Step>)
    requires Silent(s)
    ensures Pick(s, Transition) == [] && Pick(s, Enabling) == []
  {
    PickNone(s, Transition);
    PickNone(s, Enabling);
  }

  lemma SilentDisableDomain(c: Comp, d: Domain, r: PortRange)
    ensures Silent(DisableDomain(c, d, r))
  {
    assert Silent(DisableRange(c, r));
    SilentAppend([Send(QueryPorts(c, d))], DisableRange(c, r));
  }

  /** The steps of init_component change no state and enable no port. */
  lemma SilentInitComponent(c: Comp, l: Layout)
    ensures Silent(InitComponent(c, l))
  {
    var head := [Send(CreateFlags(c)), Send(GetHandle(c, Ports(l)))];
    var a, v, im, o := DisableDomain(c, Audio, l.audio), DisableDomain(c, Video, l.video),
                       DisableDomain(c, Image, l.image), DisableDomain(c, Other, l.other);
    SilentDisableDomain(c, Audio, l.audio);
    SilentDisableDomain(c, Video, l.video);
    SilentDisableDomain(c, Image, l.image);
    SilentDisableDomain(c, Other, l.other);
    SilentAppend(head, a);
    SilentAppend(head + a, v);
    SilentAppend(head + a + v, im);
    SilentAppend(head + a + v + im, o);
  }

  /** Nor does the configuration phase. */
  lemma SilentConfiguration()
    ensures Silent(Configuration())
  {
    ConfigurationInert();
    SilentConfigSteps(Configuration());
  }

  lemma SilentConfigSteps(s: seq<Step>)
    requires AllConfigSteps(s)
    ensures Silent(s)
  {
  }

  /** Before the tunnels, omx_h264_init changes no state and enables no port. */
  lemma SilentPreamble(ls: Layouts)
    ensures Silent(Preamble(ls))
    ensures Pick(Preamble(ls), Transition) == [] && Pick(Preamble(ls), Enabling) == []
  {
    var x, a, b, c, d := [Send(IlInit)], InitComponent(Camera, ls.camera), InitComponent(Encoder, ls.encoder),
                         InitComponent(NullSink, ls.sink), Configuration();
    SilentInitComponent(Camera, ls.camera);
    SilentInitComponent(Encoder, ls.encoder);
    SilentInitComponent(NullSink, ls.sink);
    SilentConfiguration();
    SilentAppend(x, a);
    SilentAppend(x + a, b);
    SilentAppend(x + a + b, c);
    SilentAppend(x + a + b + c, d);
    SilentPicksNothing(Preamble(ls));
  }

  lemma PickTwo<T>(x: Step, y: Step, f: Step -> Option<T>)
    ensures Pick([x, y], f) == Pick([x], f) + Pick([y], f)
  {
    assert [x, y] == [x] + [y];
    PickAppend([x], [y], f);
  }

  lemma PickChangeState(c: Comp, st: OmxState)
    ensures Pick(ChangeState(c, st), Transition) == [(c, st)]
    ensures Pick(ChangeState(c, st), Enabling) == []
    ensures Pick(ChangeState(c, st), Disabling) == []
  {
    var x, y := Send(SetState(c, st)), Await(c, StateSet);
    PickTwo(x, y, Transition); PickOne(x, Transition); PickOne(y, Transition);
    PickNone(ChangeState(c, st), Enabling);
    PickNone(ChangeState(c, st), Disabling);
  }

  /** The states the three components are moved to. */
  function AllStates(st: OmxState): seq<(Comp, OmxState)> {
    [(Camera, st), (Encoder, st), (NullSink, st)]
  }

  lemma PickAllToState(st: OmxState)
    ensures Pick(AllToState(st), Transition) == AllStates(st)
    ensures Pick(AllToState(st), Enabling) == []
    ensures Pick(AllToState(st), Disabling) == []
  {
    PickChangeState(Camera, st); PickChangeState(Encoder, st); PickChangeState(NullSink, st);
    var a, b, c := ChangeState(Camera, st), ChangeState(Encoder, st), ChangeState(NullSink, st);
    PickAppend(a, b, Transition); PickAppend(a + b, c, Transition);
    PickAppend(a, b, Enabling); PickAppend(a + b, c, Enabling);
    PickAppend(a, b, Disabling); PickAppend(a + b, c, Disabling);
  }

  /** The ports omx_h264_init enables and omx_h264_deinit disables, in order. */
  const PortOrder: seq<(Comp, nat)> := TunnelPorts + [(Encoder, 201)]

  /** The tunnel ports among them. */
  const TunnelPorts: seq<(Comp, nat)> := [(Camera, 71), (Camera, 70), (NullSink, 240), (Encoder, 200)]

  /** What two blocks contribute, joined. */
  lemma PickJoin<T>(a: seq<Step>, b: seq<Step>, f: Step -> Option<T>, x: seq<T>, y: seq<T>)
    requires Pick(a, f) == x && Pick(b, f) == y
    ensures Pick(a + b, f) == x + y
  {
    PickAppend(a, b, f);
  }

  lemma PickEnableAndWait(c: Comp, port: nat)
    ensures Pick(EnableAndWait(c, port), Enabling) == [(c, port)]
    ensures Pick(EnableAndWait(c, port), Transition) == []
  {
    var x, y := Send(EnablePort(c, port)), Await(c, PortEnable);
    PickTwo(x, y, Enabling); PickOne(x, Enabling); PickOne(y, Enabling);
    PickNone(EnableAndWait(c, port), Transition);
  }

  lemma PickDisableAndWait(c: Comp, port: nat)
    ensures Pick(DisableAndWait(c, port), Disabling) == [(c, port)]
    ensures Pick(DisableAndWait(c, port), Transition) == []
  {
    var x, y := Send(DisablePort(c, port)), Await(c, PortDisable);
    PickTwo(x, y, Disabling); PickOne(x, Disabling); PickOne(y, Disabling);
    PickNone(DisableAndWait(c, port), Transition);
  }

  lemma PickEnableEncoderOutput()
    ensures Pick(EnableEncoderOutput(), Enabling) == [(Encoder, 201)]
    ensures Pick(EnableEncoderOutput(), Transition) == []
  {
    var x, rest := Send(EnablePort(Encoder, 201)), [Send(Query(Encoder, 201)), Send(AllocateBuffer), Await(Encoder, PortEnable)];
    assert EnableEncoderOutput() == [x] + rest;
    PickOne(x, Enabling);
    PickNone(rest, Enabling);
    PickAppend([x], rest, Enabling);
    PickNone(EnableEncoderOutput(), Transition);
  }

  lemma PickDisableEncoderOutput()
    ensures Pick(DisableEncoderOutput(), Disabling) == [(Encoder, 201)]
    ensures Pick(DisableEncoderOutput(), Transition) == []
  {
    var x, rest := Send(DisablePort(Encoder, 201)), [Send(FreeBuffer), Await(Encoder, PortDisable)];
    assert DisableEncoderOutput() == [x] + rest;
    PickOne(x, Disabling);
    PickNone(rest, Disabling);
    PickAppend([x], rest, Disabling);
    PickNone(DisableEncoderOutput(), Transition);
  }

  /** Four handshakes picked out, given what each contributes. */
  lemma PickFour<T>(a: seq<Step>, b: seq<Step>, c: seq<Step>, d: seq<Step>, f: Step -> Option<T>)
    ensures Pick(a + b + c + d, f) == Pick(a, f) + Pick(b, f) + Pick(c, f) + Pick(d, f)
  {
    PickAppend(a, b, f); PickAppend(a + b, c, f); PickAppend(a + b + c, d, f);
  }

  /** Four enable handshakes enable four ports, in order. */
  lemma PickEnables(c1: Comp, n1: nat, c2: Comp, n2: nat, c3: Comp, n3: nat, c4: Comp, n4: nat)
    ensures Pick(EnableAndWait(c1, n1) + EnableAndWait(c2, n2) + EnableAndWait(c3, n3) + EnableAndWait(c4, n4),
                 Enabling) == [(c1, n1), (c2, n2), (c3, n3), (c4, n4)]
    ensures Pick(EnableAndWait(c1, n1) + EnableAndWait(c2, n2) + EnableAndWait(c3, n3) + EnableAndWait(c4, n4),
                 Transition) == []
  {
    PickEnableAndWait(c1, n1); PickEnableAndWait(c2, n2); PickEnableAndWait(c3, n3); PickEnableAndWait(c4, n4);
    var a, b, c, d := EnableAndWait(c1, n1), EnableAndWait(c2, n2), EnableAndWait(c3, n3), EnableAndWait(c4, n4);
    PickFour(a, b, c, d, Enabling);
    PickFour(a, b, c, d, Transition);
  }

  lemma PickEnableTunnelPorts()
    ensures Pick(EnableTunnelPorts(), Enabling) == TunnelPorts
    ensures Pick(EnableTunnelPorts(), Transition) == []
  {
    PickEnables(Camera, 71, Camera, 70, NullSink, 240, Encoder, 200);
  }

  lemma PickEnablePorts()
    ensures Pick(EnablePorts(), Enabling) == PortOrder
    ensures Pick(EnablePorts(), Transition) == []
  {
    PickEnableTunnelPorts();
    PickEnableEncoderOutput();
    PickJoin(EnableTunnelPorts(), EnableEncoderOutput(), Enabling, TunnelPorts, [(Encoder, 201)]);
    PickJoin(EnableTunnelPorts(), EnableEncoderOutput(), Transition, [], []);
  }

  /** Four disable handshakes disable four ports, in order. */
  lemma PickDisables(c1: Comp, n1: nat, c2: Comp, n2: nat, c3: Comp, n3: nat, c4: Comp, n4: nat)
    ensures Pick(DisableAndWait(c1, n1) + DisableAndWait(c2, n2) + DisableAndWait(c3, n3) + DisableAndWait(c4, n4),
                 Disabling) == [(c1, n1), (c2, n2), (c3, n3), (c4, n4)]
    ensures Pick(DisableAndWait(c1, n1) + DisableAndWait(c2, n2) + DisableAndWait(c3, n3) + DisableAndWait(c4, n4),
                 Transition) == []
  {
    PickDisableAndWait(c1, n1); PickDisableAndWait(c2, n2); PickDisableAndWait(c3, n3); PickDisableAndWait(c4, n4);
    var a, b, c, d := DisableAndWait(c1, n1), DisableAndWait(c2, n2), DisableAndWait(c3, n3), DisableAndWait(c4, n4);
    PickFour(a, b, c, d, Disabling);
    PickFour(a, b, c, d, Transition);
  }

  lemma PickDisableTunnelPorts()
    ensures Pick(DisableTunnelPorts(), Disabling) == TunnelPorts
    ensures Pick(DisableTunnelPorts(), Transition) == []
  {
    PickDisables(Camera, 71, Camera, 70, NullSink, 240, Encoder, 200);
  }

  lemma PickDisablePorts()
    ensures Pick(DisablePorts(), Disabling) == PortOrder
    ensures Pick(DisablePorts(), Transition) == []
  {
    PickDisableTunnelPorts();
    PickDisableEncoderOutput();
    PickJoin(DisableTunnelPorts(), DisableEncoderOutput(), Disabling, TunnelPorts, [(Encoder, 201)]);
    PickJoin(DisableTunnelPorts(), DisableEncoderOutput(), Transition, [], []);
  }

  /** Three state changes with a wait before the last. */
  lemma PickStates(st: OmxState, w: Step)
    requires w.Await?
    ensures Pick(ChangeState(Camera, st) + ChangeState(Encoder, st) + [w] + ChangeState(NullSink, st), Transition)
              == AllStates(st)
    ensures Pick(ChangeState(Camera, st) + ChangeState(Encoder, st) + [w] + ChangeState(NullSink, st), Enabling)
              == []
  {
    var a, b, c := ChangeState(Camera, st), ChangeState(Encoder, st), ChangeState(NullSink, st);
    assert Pick(a + b + [w] + c, Transition) == AllStates(st) by {
      assert Pick(a, Transition) == [(Camera, st)] by { PickChangeState(Camera, st); }
      assert Pick(b, Transition) == [(Encoder, st)] by { PickChangeState(Encoder, st); }
      assert Pick(c, Transition) == [(NullSink, st)] by { PickChangeState(NullSink, st); }
      assert Pick([w], Transition) == [] by { PickOne(w, Transition); }
      PickFour(a, b, [w], c, Transition);
      assert [(Camera, st)] + [(Encoder, st)] + [] + [(NullSink, st)] == AllStates(st);
    }
    assert Pick(a + b + [w] + c, Enabling) == [] by {
      PickChangeState(Camera, st); PickChangeState(Encoder, st); PickChangeState(NullSink, st);
      PickOne(w, Enabling);
      PickFour(a, b, [w], c, Enabling);
    }
  }

  lemma PickToExecuting()
    ensures Pick(ToExecuting(), Transition) == AllStates(Executing)
    ensures Pick(ToExecuting(), Enabling) == []
  {
    PickStates(Executing, Await(Encoder, PortSettingsChanged));
  }

  lemma PickFive<T>(a: seq<Step>, b: seq<Step>, c: seq<Step>, d: seq<Step>, e: seq<Step>, f: Step -> Option<T>)
    ensures Pick(a + b + c + d + e, f) == Pick(a, f) + Pick(b, f) + Pick(c, f) + Pick(d, f) + Pick(e, f)
  {
    PickFour(a, b, c, d, f);
    PickAppend(a + b + c + d, e, f);
  }

  /** Picking from blocks that contribute nothing, between ones that do. */
  lemma PickSkipping<T>(a: seq<Step>, b: seq<Step>, c: seq<Step>, d: seq<Step>, e: seq<Step>, f: Step -> Option<T>)
    requires Pick(a, f) == [] && Pick(c, f) == [] && Pick(e, f) == []
    ensures Pick(a + b + c + d + e, f) == Pick(b, f) + Pick(d, f)
  {
    PickFive(a, b, c, d, e, f);
  }

  /** Picking from a block that alone contributes. */
  lemma PickOnly<T>(a: seq<Step>, b: seq<Step>, c: seq<Step>, d: seq<Step>, e: seq<Step>, f: Step -> Option<T>)
    requires Pick(a, f) == [] && Pick(b, f) == [] && Pick(d, f) == [] && Pick(e, f) == []
    ensures Pick(a + b + c + d + e, f) == Pick(c, f)
  {
    PickFive(a, b, c, d, e, f);
  }

  lemma PickStartupTransitions()
    ensures Pick(Startup(), Transition) == AllStates(Idle) + AllStates(Executing)
  {
    var t, i, e, x, c := SetupTunnels(), AllToState(Idle), EnablePorts(), ToExecuting(), [Send(SetCapturing(true))];
    assert Pick(t, Transition) == [] by { PickNone(t, Transition); }
    assert Pick(c, Transition) == [] by { PickNone(c, Transition); }
    assert Pick(e, Transition) == [] by { PickEnablePorts(); }
    PickSkipping(t, i, e, x, c, Transition);
    PickAllToState(Idle);
    PickToExecuting();
  }

  lemma PickStartupEnables()
    ensures Pick(Startup(), Enabling) == PortOrder
  {
    var t, i, e, x, c := SetupTunnels(), AllToState(Idle), EnablePorts(), ToExecuting(), [Send(SetCapturing(true))];
    assert Pick(t, Enabling) == [] by { PickNone(t, Enabling); }
    assert Pick(c, Enabling) == [] by { PickNone(c, Enabling); }
    assert Pick(i, Enabling) == [] by { PickAllToState(Idle); }
    assert Pick(x, Enabling) == [] by { PickToExecuting(); }
    PickOnly(t, i, e, x, c, Enabling);
    PickEnablePorts();
  }

  lemma PickShutdownTransitions()
    ensures Pick(DeinitSteps(), Transition) == AllStates(Idle) + AllStates(Loaded)
  {
    var h, i, d, l, z := [Send(SetCapturing(false))], AllToState(Idle), DisablePorts(), AllToState(Loaded),
                         DeinitComponents() + [Send(IlDeinit)];
    assert DeinitSteps() == h + i + d + l + z;
    assert Pick(h, Transition) == [] by { PickNone(h, Transition); }
    assert Pick(z, Transition) == [] by { PickNone(z, Transition); }
    assert Pick(d, Transition) == [] by { PickDisablePorts(); }
    PickSkipping(h, i, d, l, z, Transition);
    PickAllToState(Idle);
    PickAllToState(Loaded);
  }

  lemma PickShutdownDisables()
    ensures Pick(DeinitSteps(), Disabling) == PortOrder
  {
    var h, i, d, l, z := [Send(SetCapturing(false))], AllToState(Idle), DisablePorts(), AllToState(Loaded),
                         DeinitComponents() + [Send(IlDeinit)];
    assert DeinitSteps() == h + i + d + l + z;
    assert Pick(h, Disabling) == [] by { PickNone(h, Disabling); }
    assert Pick(z, Disabling) == [] by { PickNone(z, Disabling); }
    assert Pick(i, Disabling) == [] by { PickAllToState(Idle); }
    assert Pick(l, Disabling) == [] by { PickAllToState(Loaded); }
    PickOnly(h, i, d, l, z, Disabling);
    PickDisablePorts();
  }

  /** omx_h264_init enables the tunnel ports and then the encoder's output,
      and walks every component through Idle to Executing. */
  lemma PickInit(ls: Layouts)
    ensures Pick(InitSteps(ls), Enabling) == PortOrder
    ensures Pick(InitSteps(ls), Transition) == AllStates(Idle) + AllStates(Executing)
  {
    SilentPreamble(ls);
    assert Pick(Startup(), Enabling) == PortOrder by { PickStartupEnables(); }
    PickJoin(Preamble(ls), Startup(), Enabling, [], PortOrder);
    assert Pick(Startup(), Transition) == AllStates(Idle) + AllStates(Executing) by { PickStartupTransitions(); }
    PickJoin(Preamble(ls), Startup(), Transition, [], AllStates(Idle) + AllStates(Executing));
  }

  /** omx_h264_deinit undoes omx_h264_init in the same order: it disables
      exactly the ports init enabled, in the order they were enabled, and
      walks every component back through Idle to Loaded after init walked
      them through Idle to Executing, camera first and null_sink last. */
  lemma DeinitMirrorsInit(ls: Layouts)
    ensures Pick(InitSteps(ls), Enabling) == PortOrder
    ensures Pick(DeinitSteps(), Disabling) == Pick(InitSteps(ls), Enabling)
    ensures Pick(InitSteps(ls), Transition) == AllStates(Idle) + AllStates(Executing)
    ensures Pick(DeinitSteps(), Transition) == AllStates(Idle) + AllStates(Loaded)
  {
    PickInit(ls);
    PickShutdownTransitions();
    PickShutdownDisables();
  }

  // ---------------------------------------------------------------------
  // null_sink waits for the encoder's output port.

  /** Nothing picked means no step is picked. */
  lemma {:induction false} PickEmpty<T>(s: seq<Step>, f: Step -> Option<T>)
    requires Pick(s, f) == []
    ensures forall i :: 0 <= i < |s| ==> f(s[i]).None?
    decreases |s|
  {
    if |s| > 0 {
      PickEmpty(s[1..], f);
      assert forall i :: 1 <= i < |s| ==> s[i] == s[1..][i - 1];
    }
  }

  const SinkStart := Send(SetState(NullSink, Executing))
  const EncoderSettled := Await(Encoder, PortSettingsChanged)

  predicate Without(s: seq<Step>, x: Step) {
    forall i :: 0 <= i < |s| ==> s[i] != x
  }

  /** Every occurrence of `x` comes directly after a `y`. */
  ghost predicate PrecededBy(s: seq<Step>, x: Step, y: Step) {
    (|s| > 0 ==> s[0] != x) &&
    forall j, k :: 0 <= j < k < |s| && k == j + 1 && s[k] == x ==> s[j] == y
  }

  /** Blocks without `x` around one block in which `x` occurs once, right
      after `y`. */
  lemma PrecededAround(a: seq<Step>, b: seq<Step>, c: seq<Step>, d: seq<Step>, e: seq<Step>, f: seq<Step>,
                       at: nat, x: Step, y: Step)
    requires Without(a, x) && Without(b, x) && Without(c, x) && Without(d, x) && Without(f, x)
    requires 0 < at < |e| && e[at] == x && e[at - 1] == y
    requires forall i :: 0 <= i < |e| && i != at ==> e[i] != x
    ensures PrecededBy(a + (b + c + d + e + f), x, y)
    ensures x in a + (b + c + d + e + f)
  {
    var s, t := a + (b + c + d + e + f), a + b + c + d;
    var n := |t|;
    assert s == t + e + f;
    assert Without(t, x) by {
      forall i | 0 <= i < |t| ensures t[i] != x {
        if i < |a| { assert t[i] == a[i]; }
        else if i < |a| + |b| { assert t[i] == b[i - |a|]; }
        else if i < |a| + |b| + |c| { assert t[i] == c[i - |a| - |b|]; }
        else { assert t[i] == d[i - |a| - |b| - |c|]; }
      }
    }
    assert forall i :: 0 <= i < n ==> s[i] == t[i];
    assert forall i :: n <= i < n + |e| ==> s[i] == e[i - n];
    assert forall i :: n + |e| <= i < |s| ==> s[i] == f[i - n - |e|];
    forall j, k | 0 <= j < k < |s| && k == j + 1 && s[k] == x ensures s[j] == y {
      assert n <= k < n + |e|;
      assert k - n == at;
      assert s[j] == e[at - 1];
    }
    assert s[n + at] == x;
  }

  lemma NoSinkStartInAllToState(st: OmxState)
    requires st != Executing
    ensures Without(AllToState(st), SinkStart)
  {
    assert AllToState(st) == [Send(SetState(Camera, st)), Await(Camera, StateSet),
                              Send(SetState(Encoder, st)), Await(Encoder, StateSet),
                              Send(SetState(NullSink, st)), Await(NullSink, StateSet)];
  }

  lemma SinkStartInToExecuting()
    ensures ToExecuting()[5] == SinkStart && ToExecuting()[4] == EncoderSettled
    ensures |ToExecuting()| == 7
    ensures forall i :: 0 <= i < |ToExecuting()| && i != 5 ==> ToExecuting()[i] != SinkStart
  {
    assert ToExecuting() == [Send(SetState(Camera, Executing)), Await(Camera, StateSet),
                             Send(SetState(Encoder, Executing)), Await(Encoder, StateSet),
                             EncoderSettled, SinkStart, Await(NullSink, StateSet)];
  }

  lemma NoSinkStartInPreamble(ls: Layouts)
    ensures Without(Preamble(ls), SinkStart)
  {
    SilentPreamble(ls);
  }

  lemma NoSinkStartInEnablePorts()
    ensures Without(EnablePorts(), SinkStart)
  {
    assert EnablePorts() == EnableAndWait(Camera, 71) + EnableAndWait(Camera, 70) + EnableAndWait(NullSink, 240)
                            + EnableAndWait(Encoder, 200) + EnableEncoderOutput();
    assert forall i :: 0 <= i < |EnablePorts()| ==> !EnablePorts()[i].Send? || !EnablePorts()[i].req.SetState?;
  }

  /** The blocks of the start-up around ToExecuting never start null_sink. */
  lemma NoSinkStartAroundToExecuting()
    ensures Without(SetupTunnels(), SinkStart) && Without(AllToState(Idle), SinkStart)
    ensures Without(EnablePorts(), SinkStart) && Without([Send(SetCapturing(true))], SinkStart)
  {
    NoSinkStartInAllToState(Idle);
    NoSinkStartInEnablePorts();
  }

  /** omx_h264_init puts null_sink in Executing, and only ever directly
      after the encoder has reported its output port settings. */
  lemma SinkStartsAfterPortSettings(ls: Layouts)
    ensures PrecededBy(InitSteps(ls), SinkStart, EncoderSettled)
    ensures SinkStart in InitSteps(ls)
  {
    NoSinkStartInPreamble(ls);
    NoSinkStartAroundToExecuting();
    SinkStartInToExecuting();
    PrecededAround(Preamble(ls), SetupTunnels(), AllToState(Idle), EnablePorts(), ToExecuting(),
                   [Send(SetCapturing(true))], 5, SinkStart, EncoderSettled);
  }

  // ---------------------------------------------------------------------
  // The encoder's output buffer sits inside its port handshake.

  /** A call that allocates or frees the encoder's output buffer. */
  predicate BufferCall(s: Step) {
    s == Send(AllocateBuffer) || s == Send(FreeBuffer)
  }

  predicate Unbuffered(s: seq<Step>) {
    forall i :: 0 <= i < |s| ==> !BufferCall(s[i])
  }

  lemma UnbufferedAppend(a: seq<Step>, b: seq<Step>)
    requires Unbuffered(a) && Unbuffered(b)
    ensures Unbuffered(a + b)
  {
    assert forall i :: 0 <= i < |a + b| ==> (a + b)[i] == if i < |a| then a[i] else b[i - |a|];
  }

  lemma UnbufferedInitComponent(c: Comp, l: Layout)
    ensures Unbuffered(InitComponent(c, l))
  {
    var head := [Send(CreateFlags(c)), Send(GetHandle(c, Ports(l)))];
    var a, v, im, o := DisableDomain(c, Audio, l.audio), DisableDomain(c, Video, l.video),
                       DisableDomain(c, Image, l.image), DisableDomain(c, Other, l.other);
    assert Unbuffered(DisableRange(c, l.audio)) && Unbuffered(DisableRange(c, l.video));
    assert Unbuffered(DisableRange(c, l.image)) && Unbuffered(DisableRange(c, l.other));
    UnbufferedAppend([Send(QueryPorts(c, Audio))], DisableRange(c, l.audio));
    UnbufferedAppend([Send(QueryPorts(c, Video))], DisableRange(c, l.video));
    UnbufferedAppend([Send(QueryPorts(c, Image))], DisableRange(c, l.image));
    UnbufferedAppend([Send(QueryPorts(c, Other))], DisableRange(c, l.other));
    UnbufferedAppend(head, a);
    UnbufferedAppend(head + a, v);
    UnbufferedAppend(head + a + v, im);
    UnbufferedAppend(head + a + v + im, o);
  }

  lemma UnbufferedConfigSteps(s: seq<Step>)
    requires AllConfigSteps(s)
    ensures Unbuffered(s)
  {
  }

  /** No buffer is touched before the tunnels are set up. */
  lemma UnbufferedPreamble(ls: Layouts)
    ensures Unbuffered(Preamble(ls))
  {
    var x, a, b, c, d := [Send(IlInit)], InitComponent(Camera, ls.camera), InitComponent(Encoder, ls.encoder),
                         InitComponent(NullSink, ls.sink), Configuration();
    UnbufferedInitComponent(Camera, ls.camera);
    UnbufferedInitComponent(Encoder, ls.encoder);
    UnbufferedInitComponent(NullSink, ls.sink);
    ConfigurationInert();
    UnbufferedConfigSteps(d);
    UnbufferedAppend(x, a);
    UnbufferedAppend(x + a, b);
    UnbufferedAppend(x + a + b, c);
    UnbufferedAppend(x + a + b + c, d);
  }

  lemma UnbufferedAllToState(st: OmxState)
    ensures Unbuffered(AllToState(st))
  {
    assert AllToState(st) == [Send(SetState(Camera, st)), Await(Camera, StateSet),
                              Send(SetState(Encoder, st)), Await(Encoder, StateSet),
                              Send(SetState(NullSink, st)), Await(NullSink, StateSet)];
  }

  /** The buffer call `call` sits at `k`: the port request `req` comes
      directly before it, or two steps before it with nothing synchronising
      in between; the acknowledgement `ack` comes directly after it; and the
      call occurs nowhere else in `s`. */
  predicate BufferCallAt(s: seq<Step>, k: nat, req: Step, call: Step, ack: Step) {
    0 < k < |s| - 1 && s[k] == call && s[k + 1] == ack &&
    (s[k - 1] == req || (1 < k && s[k - 2] == req && !IsSync(s[k - 1]))) &&
    forall i :: 0 <= i < |s| && s[i] == call ==> i == k
  }

  /** A block holding the call once, between blocks without it. */
  lemma BufferCallAround(t: seq<Step>, e: seq<Step>, f: seq<Step>, at: nat, req: Step, call: Step, ack: Step)
    requires BufferCall(call)
    requires Unbuffered(t) && Unbuffered(f)
    requires 0 < at < |e| - 1 && e[at] == call && e[at + 1] == ack
    requires e[at - 1] == req || (1 < at && e[at - 2] == req && !IsSync(e[at - 1]))
    requires forall i :: 0 <= i < |e| && i != at ==> e[i] != call
    ensures BufferCallAt(t + e + f, |t| + at, req, call, ack)
  {
    var s, n := t + e + f, |t|;
    assert forall i :: 0 <= i < n ==> s[i] == t[i];
    assert forall i :: n <= i < n + |e| ==> s[i] == e[i - n];
    assert forall i :: n + |e| <= i < |s| ==> s[i] == f[i - n - |e|];
    forall i | 0 <= i < |s| && s[i] == call ensures i == n + at {
      assert n <= i < n + |e|;
    }
  }

  lemma UnbufferedFour(a: seq<Step>, b: seq<Step>, c: seq<Step>, d: seq<Step>)
    requires Unbuffered(a) && Unbuffered(b) && Unbuffered(c) && Unbuffered(d)
    ensures Unbuffered(a + b + c + d)
  {
    UnbufferedAppend(a, b);
    UnbufferedAppend(a + b, c);
    UnbufferedAppend(a + b + c, d);
  }

  lemma UnbufferedTunnelPorts()
    ensures Unbuffered(SetupTunnels()) && Unbuffered(EnableTunnelPorts()) && Unbuffered(DisableTunnelPorts())
    ensures Unbuffered(DeinitComponents())
  {
  }

  lemma UnbufferedBeforeEncoderOutput(ls: Layouts)
    ensures Unbuffered(Preamble(ls) + SetupTunnels() + AllToState(Idle) + EnableTunnelPorts())
  {
    UnbufferedPreamble(ls);
    UnbufferedAllToState(Idle);
    UnbufferedTunnelPorts();
    UnbufferedFour(Preamble(ls), SetupTunnels(), AllToState(Idle), EnableTunnelPorts());
  }

  lemma UnbufferedAroundDisableEncoderOutput()
    ensures Unbuffered([Send(SetCapturing(false))] + AllToState(Idle) + DisableTunnelPorts())
    ensures Unbuffered(AllToState(Loaded) + DeinitComponents() + [Send(IlDeinit)])
  {
    UnbufferedAllToState(Idle);
    UnbufferedAllToState(Loaded);
    UnbufferedTunnelPorts();
    UnbufferedAppend([Send(SetCapturing(false))], AllToState(Idle));
    UnbufferedAppend([Send(SetCapturing(false))] + AllToState(Idle), DisableTunnelPorts());
    UnbufferedAppend(AllToState(Loaded), DeinitComponents());
    UnbufferedAppend(AllToState(Loaded) + DeinitComponents(), [Send(IlDeinit)]);
  }

  lemma Regroup(p: seq<Step>, a: seq<Step>, b: seq<Step>, t: seq<Step>, e: seq<Step>, x: seq<Step>, y: seq<Step>)
    ensures p + (a + b + (t + e) + x + y) == (p + a + b + t) + e + (x + y)
  {
  }

  lemma UnbufferedAfterEncoderOutput()
    ensures Unbuffered(ToExecuting() + [Send(SetCapturing(true))])
  {
    assert ToExecuting() + [Send(SetCapturing(true))] ==
      [Send(SetState(Camera, Executing)), Await(Camera, StateSet), Send(SetState(Encoder, Executing)),
       Await(Encoder, StateSet), Await(Encoder, PortSettingsChanged), Send(SetState(NullSink, Executing)),
       Await(NullSink, StateSet), Send(SetCapturing(true))];
  }

  /** Where the buffer call of a handshake sits, once the step list is cut
      around the handshake. */
  lemma BufferCallIn(s: seq<Step>, t: seq<Step>, e: seq<Step>, f: seq<Step>, at: nat, req: Step, call: Step, ack: Step)
    requires s == t + e + f
    requires BufferCall(call)
    requires Unbuffered(t) && Unbuffered(f)
    requires 0 < at < |e| - 1 && e[at] == call && e[at + 1] == ack
    requires e[at - 1] == req || (1 < at && e[at - 2] == req && !IsSync(e[at - 1]))
    requires forall i :: 0 <= i < |e| && i != at ==> e[i] != call
    ensures exists k :: BufferCallAt(s, k, req, call, ack)
  {
    BufferCallAround(t, e, f, at, req, call, ack);
  }

  /** omx_h264_init cut around enable_encoder_output_port. */
  lemma InitAroundEncoderOutput(ls: Layouts)
    ensures InitSteps(ls) == (Preamble(ls) + SetupTunnels() + AllToState(Idle) + EnableTunnelPorts())
                             + EnableEncoderOutput() + (ToExecuting() + [Send(SetCapturing(true))])
  {
    Regroup(Preamble(ls), SetupTunnels(), AllToState(Idle), EnableTunnelPorts(), EnableEncoderOutput(),
            ToExecuting(), [Send(SetCapturing(true))]);
  }

  lemma EncoderOutputShapes()
    ensures var e := EnableEncoderOutput();
      |e| == 4 && e[0] == Send(EnablePort(Encoder, 201)) && !IsSync(e[1]) &&
      e[2] == Send(AllocateBuffer) && e[3] == Await(Encoder, PortEnable) &&
      forall i :: 0 <= i < |e| && i != 2 ==> e[i] != Send(AllocateBuffer)
    ensures var d := DisableEncoderOutput();
      |d| == 3 && d[0] == Send(DisablePort(Encoder, 201)) &&
      d[1] == Send(FreeBuffer) && d[2] == Await(Encoder, PortDisable) &&
      forall i :: 0 <= i < |d| && i != 1 ==> d[i] != Send(FreeBuffer)
  {
  }

  /** enable_encoder_output_port: in omx_h264_init the buffer is allocated
      exactly once, after port 201's enable request and before its enable is
      awaited. */
  lemma AllocateInsideEnable(ls: Layouts)
    ensures exists k :: BufferCallAt(InitSteps(ls), k, Send(EnablePort(Encoder, 201)),
                                     Send(AllocateBuffer), Await(Encoder, PortEnable))
  {
    UnbufferedBeforeEncoderOutput(ls);
    UnbufferedAfterEncoderOutput();
    InitAroundEncoderOutput(ls);
    EncoderOutputShapes();
    BufferCallIn(InitSteps(ls), Preamble(ls) + SetupTunnels() + AllToState(Idle) + EnableTunnelPorts(),
                 EnableEncoderOutput(), ToExecuting() + [Send(SetCapturing(true))], 2,
                 Send(EnablePort(Encoder, 201)), Send(AllocateBuffer), Await(Encoder, PortEnable));
  }

  /** disable_encoder_output_port: in omx_h264_deinit the buffer is freed
      exactly once, after port 201's disable request and before its disable
      is awaited. */
  lemma FreeInsideDisable()
    ensures exists k :: BufferCallAt(DeinitSteps(), k, Send(DisablePort(Encoder, 201)),
                                     Send(FreeBuffer), Await(Encoder, PortDisable)) &&
                        DeinitSteps()[k - 1] == Send(DisablePort(Encoder, 201))
  {
    var head := [Send(SetCapturing(false))] + AllToState(Idle) + DisableTunnelPorts();
    var tail := AllToState(Loaded) + DeinitComponents() + [Send(IlDeinit)];
    UnbufferedAroundDisableEncoderOutput();
    BufferCallAround(head, DisableEncoderOutput(), tail, 1, Send(DisablePort(Encoder, 201)),
                     Send(FreeBuffer), Await(Encoder, PortDisable));
    assert DeinitSteps() == head + DisableEncoderOutput() + tail;
  }
}
