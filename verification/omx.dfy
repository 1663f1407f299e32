/** The abstract OpenMAX IL pipeline of openmax/h264.cpp: three components
    (camera, video_encode, null_sink), each with its event-flag word, handle,
    OMX_STATETYPE and port enable flags; the encoder's single output buffer;
    the camera's capturing flag; and the two tunnels. Every driver call is a
    `Step`; the driver answers each one with a `Reply`. A rejected request, or
    a wait that finds only the error flag, is fatal (the source calls
    exit(1)); a wait that finds nothing it asked for never returns. */
module Omx {
  import opened Events
  import Config

  datatype Comp = Camera | Encoder | NullSink

  /** The OMX_STATETYPE values the pipeline moves through. */
  datatype OmxState = Loaded | Idle | Executing

  /** The four port domains init_component queries. */
  datatype Domain = Audio | Video | Image | Other

  datatype Component = Component(
    flagsLive: bool,     // vcos_event_flags_create has run, delete has not
    flags: Flags,
    handle: bool,        // OMX_GetHandle has run, OMX_FreeHandle has not
    state: OmxState,
    enabled: set<nat>)   // ports currently enabled

  /** Who holds the encoder's output buffer. */
  datatype Buffer = NoBuffer | Held | WithEncoder

  datatype Tunnel = Tunnel(source: Comp, sourcePort: nat, sink: Comp, sinkPort: nat)

  datatype Pipeline = Pipeline(
    ilUp: bool,          // bcm_host_init + OMX_Init have run, the deinit pair has not
    camera: Component,
    encoder: Component,
    sink: Component,
    buffer: Buffer,
    capturing: bool,     // OMX_IndexConfigPortCapturing on port 71
    tunnels: set<Tunnel>)

  function Get(p: Pipeline, c: Comp): Component {
    match c
    case Camera => p.camera
    case Encoder => p.encoder
    case NullSink => p.sink
  }

  function Put(p: Pipeline, c: Comp, x: Component): (q: Pipeline)
    ensures Get(q, c) == x
    ensures forall c' :: c' != c ==> Get(q, c') == Get(p, c')
    ensures q.ilUp == p.ilUp && q.buffer == p.buffer && q.capturing == p.capturing
    ensures q.tunnels == p.tunnels
  {
    match c
    case Camera => p.(camera := x)
    case Encoder => p.(encoder := x)
    case NullSink => p.(sink := x)
  }

  /** Overwriting a component and then restoring its old value gives back
      the pipeline. */
  lemma PutRestores(p: Pipeline, c: Comp, x: Component)
    ensures Put(Put(p, c, x), c, Get(p, c)) == p
  {
  }

  /** Writing back what is there changes nothing; of two writes the later
      wins. */
  lemma PutGetPut(p: Pipeline, c: Comp, x: Component, y: Component)
    ensures Put(p, c, Get(p, c)) == p
    ensures Put(Put(p, c, x), c, y) == Put(p, c, y)
  {
  }

  /** The driver calls the pipeline code makes. */
  datatype Request =
    | IlInit                           // bcm_host_init, OMX_Init
    | IlDeinit                         // OMX_Deinit, bcm_host_deinit
    | CreateFlags(c: Comp)             // vcos_event_flags_create
    | DeleteFlags(c: Comp)             // vcos_event_flags_delete
    | GetHandle(c: Comp, ports: set<nat>)  // OMX_GetHandle; the component's ports come up enabled
    | FreeHandle(c: Comp)              // OMX_FreeHandle
    | QueryPorts(c: Comp, d: Domain)   // OMX_GetParameter of a domain's port range
    | Query(c: Comp, port: nat)        // OMX_GetParameter / OMX_GetConfig read before a write
    | Configure(c: Comp, setting: Config.Setting)  // OMX_SetParameter / OMX_SetConfig
    | SetState(c: Comp, target: OmxState)    // OMX_SendCommand(OMX_CommandStateSet)
    | EnablePort(c: Comp, port: nat)   // OMX_SendCommand(OMX_CommandPortEnable)
    | DisablePort(c: Comp, port: nat)  // OMX_SendCommand(OMX_CommandPortDisable)
    | SetupTunnel(t: Tunnel)           // OMX_SetupTunnel
    | AllocateBuffer                   // OMX_AllocateBuffer on port 201
    | FreeBuffer                       // OMX_FreeBuffer on port 201
    | FillBuffer                       // OMX_FillThisBuffer
    | SetCapturing(on: bool)           // OMX_SetConfig(OMX_IndexConfigPortCapturing)

  datatype Step = Send(req: Request) | Await(c: Comp, e: Event)

  /** A callback the driver thread makes on one component. */
  datatype Delivery = Delivery(target: Comp, cb: Callback)

  /** The driver's side of one step: the callbacks it makes before the step
      completes, and the status it returns (for an await, the status of the
      flags primitive itself). */
  datatype Reply = Reply(before: seq<Delivery>, status: OmxError)

  datatype Exchange = Exchange(step: Step, reply: Reply)

  /** Where a run of exchanges ends: all done, exit(1) at step `at`, or
      blocked for ever in the wait at step `at`. */
  datatype Outcome = Completed(p: Pipeline) | Aborted(at: nat) | Hung(at: nat)

  /** The ports a tunnel or handle release leaves behind. */
  function Untunnel(ts: set<Tunnel>, c: Comp): (r: set<Tunnel>)
    ensures forall t :: t in r <==> t in ts && t.source != c && t.sink != c
  {
    set t | t in ts && t.source != c && t.sink != c
  }

  /** What an accepted request changes. Reads and parameter writes change no
      modelled state. */
  function Effect(p: Pipeline, r: Request): Pipeline {
    match r
    case IlInit => p.(ilUp := true)
    case IlDeinit => p.(ilUp := false)
    case CreateFlags(c) => Put(p, c, Get(p, c).(flagsLive := true, flags := {}))
    case DeleteFlags(c) => Put(p, c, Get(p, c).(flagsLive := false, flags := {}))
    case GetHandle(c, ports) => Put(p, c, Get(p, c).(handle := true, enabled := ports))
    case FreeHandle(c) => Put(p, c, Get(p, c).(handle := false)).(tunnels := Untunnel(p.tunnels, c))
    case QueryPorts(_, _) => p
    case Query(_, _) => p
    case Configure(_, _) => p
    case SetState(c, s) => Put(p, c, Get(p, c).(state := s))
    case EnablePort(c, n) => Put(p, c, Get(p, c).(enabled := Get(p, c).enabled + {n}))
    case DisablePort(c, n) => Put(p, c, Get(p, c).(enabled := Get(p, c).enabled - {n}))
    case SetupTunnel(t) => p.(tunnels := p.tunnels + {t})
    case AllocateBuffer => p.(buffer := Held)
    case FreeBuffer => p.(buffer := NoBuffer)
    case FillBuffer => p.(buffer := WithEncoder)
    case SetCapturing(on) => p.(capturing := on)
  }

  /** A completed wait for EVENT_FILL_BUFFER_DONE hands the buffer back. */
  function Complete(p: Pipeline, c: Comp, e: Event): Pipeline {
    if c == Encoder && e == FillBufferDone && p.buffer == WithEncoder then p.(buffer := Held) else p
  }

  /** Apply the driver's callbacks to the components they target. */
  function Deliveries(p: Pipeline, ds: seq<Delivery>): (q: Pipeline)
    ensures q.ilUp == p.ilUp && q.buffer == p.buffer && q.capturing == p.capturing
    ensures q.tunnels == p.tunnels
    ensures forall c :: Get(q, c) == Get(p, c).(flags := Get(q, c).flags)
    decreases |ds|
  {
    if |ds| == 0 then p
    else
      var d := ds[0];
      var x := Get(p, d.target);
      Deliveries(Put(p, d.target, x.(flags := Handle(x.flags, d.cb))), ds[1..])
  }

  /** A wait on component `c` for flag `e`, once the callbacks are in. */
  function AwaitStep(p: Pipeline, c: Comp, e: Event, at: nat): (o: Outcome)
    ensures o.Hung? <==> forall f :: f in Get(p, c).flags ==> f != e && f != Error
    ensures o.Aborted? <==> Get(p, c).flags == {Error}
    ensures o.Aborted? ==> o.at == at
    ensures o.Hung? ==> o.at == at
  {
    var comp := Get(p, c);
    match Wait(comp.flags, {e})
    case Blocked => Hung(at)
    case Fatal => Aborted(at)
    case Returned(_, rest) => Completed(Complete(Put(p, c, comp.(flags := rest)), c, e))
  }

  /** Whether the code inspects the request's status. vcos_event_flags_delete
      reports nothing, so deinit_component carries on whatever happens. */
  predicate Checked(r: Request) {
    !r.DeleteFlags?
  }

  /** One step against the driver's reply; `at` is the step's position. A
      failure status of a checked request or of the flags primitive is fatal. */
  function Exec(p: Pipeline, x: Exchange, at: nat): (o: Outcome)
    ensures x.reply.status != ErrorNone && (x.step.Await? || Checked(x.step.req)) ==> o == Aborted(at)
    ensures x.step.Send? && (x.reply.status == ErrorNone || !Checked(x.step.req)) ==>
              o == Completed(Effect(Deliveries(p, x.reply.before), x.step.req))
    ensures x.step.Await? && x.reply.status == ErrorNone ==>
              o == AwaitStep(Deliveries(p, x.reply.before), x.step.c, x.step.e, at)
  {
    var p1 := Deliveries(p, x.reply.before);
    match x.step
    case Send(r) =>
      if x.reply.status != ErrorNone && Checked(r) then Aborted(at) else Completed(Effect(p1, r))
    case Await(c, e) =>
      if x.reply.status != ErrorNone then Aborted(at) else AwaitStep(p1, c, e, at)
  }

  /** Run exchanges in order with a given step function, starting at
      position `at`; the first step that does not complete ends the run. */
  function Fold(exec: (Pipeline, Exchange, nat) -> Outcome, p: Pipeline, t: seq<Exchange>, at: nat): Outcome
    decreases |t|
  {
    if |t| == 0 then Completed(p)
    else
      var o := exec(p, t[0], at);
      if o.Completed? then Fold(exec, o.p, t[1..], at + 1) else o
  }

  lemma {:induction false} FoldAppend(exec: (Pipeline, Exchange, nat) -> Outcome, p: Pipeline,
                                      a: seq<Exchange>, b: seq<Exchange>, at: nat)
    ensures Fold(exec, p, a, at).Completed? ==>
              Fold(exec, p, a + b, at) == Fold(exec, Fold(exec, p, a, at).p, b, at + |a|)
    ensures !Fold(exec, p, a, at).Completed? ==> Fold(exec, p, a + b, at) == Fold(exec, p, a, at)
    decreases |a|
  {
    if |a| == 0 {
      assert a + b == b;
    } else {
      assert (a + b)[0] == a[0];
      assert (a + b)[1..] == a[1..] + b;
      var o := exec(p, a[0], at);
      if o.Completed? {
        FoldAppend(exec, o.p, a[1..], b, at + 1);
      }
    }
  }

  /** Run exchanges against the pipeline code, starting at position `at`. */
  function Run(p: Pipeline, t: seq<Exchange>, at: nat): Outcome {
    Fold(Exec, p, t, at)
  }

  /** Running two traces back to back is running their concatenation. */
  lemma RunAppend(p: Pipeline, a: seq<Exchange>, b: seq<Exchange>, at: nat)
    ensures Run(p, a, at).Completed? ==> Run(p, a + b, at) == Run(Run(p, a, at).p, b, at + |a|)
    ensures !Run(p, a, at).Completed? ==> Run(p, a + b, at) == Run(p, a, at)
  {
    FoldAppend(Exec, p, a, b, at);
  }

  /** Fail-fast: a request the driver rejects ends the run at that request,
      so nothing after it is issued. */
  lemma FailFast(p: Pipeline, t: seq<Exchange>, k: nat)
    requires k < |t| && t[k].reply.status != ErrorNone
    requires t[k].step.Await? || Checked(t[k].step.req)
    requires Run(p, t[..k], 0).Completed?
    ensures Run(p, t, 0) == Aborted(k)
  {
    assert t == t[..k] + t[k..];
    RunAppend(p, t[..k], t[k..], 0);
    var q := Run(p, t[..k], 0).p;
    assert Exec(q, t[k], k) == Aborted(k);
    assert Fold(Exec, q, t[k..], k) == Exec(q, t[k..][0], k) by {
      assert t[k..][0] == t[k];
    }
  }

  /** A completed run had every wait and every checked request accepted. */
  lemma {:induction false} CompletedMeansAccepted(p: Pipeline, t: seq<Exchange>, at: nat)
    requires Run(p, t, at).Completed?
    ensures forall i :: 0 <= i < |t| && (t[i].step.Await? || Checked(t[i].step.req)) ==>
                          t[i].reply.status == ErrorNone
    decreases |t|
  {
    if |t| > 0 {
      var q := Exec(p, t[0], at).p;
      CompletedMeansAccepted(q, t[1..], at + 1);
      forall i | 0 <= i < |t| && (t[i].step.Await? || Checked(t[i].step.req))
        ensures t[i].reply.status == ErrorNone
      {
        if i > 0 {
          assert t[i] == t[1..][i - 1];
        }
      }
    }
  }

  // ---------------------------------------------------------------------
  // The nominal driver: it accepts every request and, before each wait,
  // makes exactly the callback that announces the awaited flag.

  /** A flag the nominal driver can deliver and a wait can consume without
      being fatal. */
  predicate Awaitable(e: Event) {
    e != Error && e != EmptyBufferDone
  }

  predicate NominalSteps(s: seq<Step>) {
    forall i :: 0 <= i < |s| && s[i].Await? ==> Awaitable(s[i].e)
  }

  function NominalReply(s: Step): Reply {
    match s
    case Send(_) => Reply([], ErrorNone)
    case Await(c, e) =>
      Reply(if Notifier(e).Some? then [Delivery(c, Notifier(e).value)] else [], ErrorNone)
  }

  function Nominal(s: seq<Step>): (t: seq<Exchange>)
    ensures |t| == |s|
    ensures forall i :: 0 <= i < |s| ==> t[i] == Exchange(s[i], NominalReply(s[i]))
  {
    seq(|s|, i requires 0 <= i < |s| => Exchange(s[i], NominalReply(s[i])))
  }

  /** The pure effect of a step once the driver has done its part. */
  function Apply(p: Pipeline, s: Step): Pipeline {
    match s
    case Send(r) => Effect(p, r)
    case Await(c, e) => Complete(p, c, e)
  }

  function Replay(p: Pipeline, s: seq<Step>): Pipeline
    decreases |s|
  {
    if |s| == 0 then p else Replay(Apply(p, s[0]), s[1..])
  }

  lemma {:induction false} ReplayAppend(p: Pipeline, a: seq<Step>, b: seq<Step>)
    ensures Replay(p, a + b) == Replay(Replay(p, a), b)
    decreases |a|
  {
    if |a| == 0 {
      assert a + b == b;
    } else {
      assert (a + b)[0] == a[0];
      assert (a + b)[1..] == a[1..] + b;
      ReplayAppend(Apply(p, a[0]), a[1..], b);
    }
  }

  lemma ReplayPair(p: Pipeline, a: Step, b: Step)
    ensures Replay(p, [a]) == Apply(p, a)
    ensures Replay(p, [a, b]) == Apply(Apply(p, a), b)
  {
    assert [a][1..] == [] && [b][1..] == [];
    assert Replay(Apply(p, a), [b]) == Apply(Apply(p, a), b);
    assert [a, b][1..] == [b];
  }

  /** No component has a pending flag. */
  predicate Quiet(p: Pipeline) {
    p.camera.flags == {} && p.encoder.flags == {} && p.sink.flags == {}
  }

  lemma QuietGet(p: Pipeline, c: Comp)
    requires Quiet(p)
    ensures Get(p, c).flags == {}
  {
  }

  lemma EffectKeepsQuiet(p: Pipeline, r: Request)
    requires Quiet(p)
    ensures Quiet(Effect(p, r))
  {
  }

  /** The announcing callback, delivered to a quiet component, wakes exactly
      the flag it announces. */
  lemma NotifierWakes(p: Pipeline, c: Comp, e: Event)
    requires Get(p, c).flags == {} && Notifier(e).Some?
    ensures Deliveries(p, [Delivery(c, Notifier(e).value)]) == Put(p, c, Get(p, c).(flags := {e}))
  {
    var cb := Notifier(e).value;
    NotifierInvertsSignal(e, cb);
    assert Handle({}, cb) == {e};
    assert [Delivery(c, cb)][1..] == [];
  }

  /** A wait that finds exactly its flag pending consumes it and completes. */
  lemma AwaitWoken(p: Pipeline, c: Comp, e: Event, at: nat)
    requires Get(p, c).flags == {e} && e != Error
    ensures AwaitStep(p, c, e, at) == Completed(Complete(Put(p, c, Get(p, c).(flags := {})), c, e))
  {
    WakeThenWait({}, e);
    assert Wait({e}, {e}) == Returned({e}, {});
  }

  /** The nominal wait: the announcing callback wakes the flag and the wait
      consumes it again, leaving the pipeline as it was apart from the
      returned buffer. */
  lemma NominalAwait(p: Pipeline, c: Comp, e: Event, at: nat)
    requires Quiet(p) && Awaitable(e)
    ensures Exec(p, Exchange(Await(c, e), NominalReply(Await(c, e))), at) == Completed(Complete(p, c, e))
  {
    QuietGet(p, c);
    var ds := [Delivery(c, Notifier(e).value)];
    var x := Exchange(Await(c, e), Reply(ds, ErrorNone));
    assert NominalReply(Await(c, e)) == x.reply;
    NotifierWakes(p, c, e);
    var p1 := Put(p, c, Get(p, c).(flags := {e}));
    assert Exec(p, x, at) == AwaitStep(p1, c, e, at);
    AwaitWoken(p1, c, e, at);
    PutRestores(p, c, Get(p, c).(flags := {e}));
    assert Get(p1, c).(flags := {}) == Get(p, c);
  }

  /** One nominal step does exactly what `Apply` says and leaves the pipeline
      quiet. */
  lemma NominalStep(p: Pipeline, s: Step, at: nat)
    requires Quiet(p)
    requires s.Await? ==> Awaitable(s.e)
    ensures Exec(p, Exchange(s, NominalReply(s)), at) == Completed(Apply(p, s))
    ensures Quiet(Apply(p, s))
  {
    match s
    case Send(r) =>
      EffectKeepsQuiet(p, r);
      assert Deliveries(p, []) == p;
    case Await(c, e) =>
      NominalAwait(p, c, e, at);
  }

  /** A nominal run completes, in the state `Replay` predicts. */
  lemma {:induction false} NominalRun(p: Pipeline, s: seq<Step>, at: nat)
    requires Quiet(p) && NominalSteps(s)
    ensures Run(p, Nominal(s), at) == Completed(Replay(p, s))
    ensures Quiet(Replay(p, s))
    decreases |s|
  {
    if |s| > 0 {
      NominalStep(p, s[0], at);
      var q := Apply(p, s[0]);
      assert Nominal(s)[1..] == Nominal(s[1..]);
      assert NominalSteps(s[1..]) by {
        forall i | 0 <= i < |s[1..]| && s[1..][i].Await? ensures Awaitable(s[1..][i].e) {
          assert s[1..][i] == s[i + 1];
        }
      }
      NominalRun(q, s[1..], at + 1);
    }
  }

  lemma NominalStepsAppend(a: seq<Step>, b: seq<Step>)
    requires NominalSteps(a) && NominalSteps(b)
    ensures NominalSteps(a + b)
  {
    assert forall i :: 0 <= i < |a + b| ==> (a + b)[i] == if i < |a| then a[i] else b[i - |a|];
  }
}
