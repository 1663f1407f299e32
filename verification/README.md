# rpi-udp-stream-server, modelled in Dafny

This project models the core of a Raspberry Pi camera streaming server. A
command thread receives UDP commands: `VIDEO_REQUEST`, `SET_TIMEOUT` and
`QUIT_SERVER`. On `VIDEO_REQUEST` it starts a stream thread. That thread
builds an OpenMAX IL pipeline: `OMX.broadcom.camera` tunnelled into
`OMX.broadcom.video_encode`, with the preview port tunnelled into
`OMX.broadcom.null_sink`. It then fills the encoder's single output buffer
frame by frame and sends each frame over UDP. It stops on quit or when the
deadline passes, and then tears the pipeline down.

Modules:

- `Events`: the per-component event-flag word of `openmax/h264.h`, plus
  `wake`, `wait`, `event_handler` and `fill_buffer_done`.
- `Config`: the build-time constants of `openmax/h264.h`, the Q16
  fixed-point conversions applied to them, and the parameter lists that
  `set_camera_settings` and `set_h264_settings` write.
- `Omx`: the abstract pipeline.
  - The state is three components (flags, handle, `OMX_STATETYPE`, enabled
    ports), the output buffer, the capture flag and the tunnels.
  - Every driver call is a step.
  - An interpreter runs a sequence of steps against the driver's replies.
    A rejected request or an error-only wait aborts (the source's
    `exit(1)`); a wait that is never woken hangs.
- `H264`: `init_component`, `deinit_component`, `load_camera_drivers`, the
  port and state handshakes, `omx_h264_init`, `omx_h264_deinit` and
  `fill_frame_buffer`, written as step lists. The module proves what they do
  to the pipeline.
- `Order`: the order in which those lists talk to the driver.
  - Every asynchronous request is acknowledged before the next one is made.
  - The teardown mirrors the start-up.
  - `null_sink` is started only after the encoder reports its port settings.
- `Deadline`: `set_timeout` and `is_timeout` of `app/app_timeout.cpp`.
- `Udp`: the command buffer, `udp_receive_command` and
  `udp_check_command` of `udp_setup/udp_setup.cpp`.
- `Server`: `main` and `stream_thread` of `app/main.cpp`, as a state
  machine.
  - It has two threads: the command loop and the stream thread.
  - Each move is one received datagram, the join, or one pass of the stream
    loop.
  - It proves an invariant over every trace.
  - It proves that an orderly shutdown has issued exactly one complete
    pipeline session to the driver.

Behaviour of the code worth knowing:

- `wait` retrieves the whole pending word. It is fatal only when the error
  flag is the only flag pending. An error that is already pending when
  `wait` is called, together with the awaited flag or with any other
  pending flag, is swallowed. `Events.ErrorWithAwaitedReturns` and
  `Events.ErrorMaskedByOtherPending` state this. Whether or not the
  waiter was already blocked, `wait` is fatal exactly when the error flag
  is the only flag pending at the moment the wait is satisfied. An error
  that arrives while any unrequested flag is pending (for example the
  encoder's port-settings report during the Executing handshake) is
  swallowed as well.
- The stream thread reads the quit flag at the top of each pass, before it
  fills a buffer. It reads the deadline after sending.
- `omx_h264_deinit` never tears the two tunnels down explicitly. The
  model assumes that `OMX_FreeHandle` drops every tunnel touching the
  freed component. `H264.DeinitRestoresInitial` relies on this assumption
  for its empty tunnel set.
- The model also assumes that `OMX_GetHandle` brings every port of the
  component up enabled, which is why `init_component` disables them.
  `H264.ReplayInitComponent`, `H264.ReplayComponents` and the configured
  and running pipelines built on them rely on this assumption.
- A failed `sendto` calls `exit(0)`. It ends the whole process, not just
  the stream thread.
- `vcos_event_flags_delete` reports nothing. It is the one driver call
  whose failure `deinit_component` cannot see.

## Model

| member | source | states |
|---|---|---|
| Events.Bit | openmax/h264.h:156-171 | every component event is a single bit below 0x4000, and EVENT_ERROR is exactly bit 0x1 |
| Events.BitsDisjoint | openmax/h264.h:156-171 | two events share a bit exactly when they are the same event, so waking or consuming one never touches another |
| Events.Wake | openmax/h264.cpp:111-113 | waking adds the event and leaves every other pending flag as it was |
| Events.WakeIdempotentAndCommutative | openmax/h264.cpp:111-113 | waking twice is waking once, and the order of two wakes does not matter |
| Events.Requested | openmax/h264.cpp:120 | the mask a wait passes always includes the error bit, and nothing else beyond the events asked for |
| Events.Wait | openmax/h264.cpp:115-131 | a wait blocks exactly when no requested or error flag is pending; it is fatal exactly when the error flag is the only one pending; otherwise it returns the whole pending word and consumes the requested and error bits |
| Events.ErrorWithAwaitedReturns | openmax/h264.cpp:120-127 | an error pending together with the awaited event does not abort the wait |
| Events.ErrorMaskedByOtherPending | openmax/h264.cpp:120-127 | an error pending together with an unrequested event does not abort the wait, and the unrequested event stays pending |
| Events.WaitConsumes | openmax/h264.cpp:120-121 | after a wait returns, an immediate second wait for the same events blocks |
| Events.WakeThenWait | openmax/h264.cpp:111-131 | a wait for an event just woken returns it and clears it and the error bit, leaving the other flags |
| Events.Signal | openmax/h264.cpp:18-109 | the flag each callback wakes: unknown events and unknown commands wake nothing, no callback wakes EVENT_EMPTY_BUFFER_DONE, and only fill_buffer_done wakes EVENT_FILL_BUFFER_DONE |
| Events.SignalInjective | openmax/h264.cpp:18-96 | two callbacks that wake the same flag are the same callback |
| Events.Notifier | openmax/h264.cpp:18-109 | every flag except EVENT_EMPTY_BUFFER_DONE has a callback that announces it |
| Events.NotifierInvertsSignal | openmax/h264.cpp:18-109 | the announcing callback of a flag and the flag a callback wakes are inverse to each other |
| Events.EventHandler | openmax/h264.cpp:18-96 | event_handler returns OMX_ErrorNone and adds at most the one flag the event maps to |
| Events.FillBufferDoneHandler | openmax/h264.cpp:99-109 | fill_buffer_done returns OMX_ErrorNone and adds exactly EVENT_FILL_BUFFER_DONE |
| Events.EmptyBufferDoneNeverWoken | openmax/h264.cpp:18-109 | no sequence of callbacks ever sets EVENT_EMPTY_BUFFER_DONE |
| Events.WaitOnEmptyBufferDoneEndsOnlyByError | openmax/h264.cpp:115-131 | a wait for EVENT_EMPTY_BUFFER_DONE can only end with the error bit pending |
| Config.ConfiguredValuesInRange | openmax/h264.h:23-64 | every configured value lies in the range its comment documents |
| Config.Q16 | openmax/h264.cpp:696 | the shift by 16 stays inside a signed 32-bit int and divides back to its argument |
| Config.FramerateRoundTrip | openmax/h264.cpp:696-718 | the Q16 frame rate is 655360 and converts back to VIDEO_FRAMERATE |
| Config.Percent16 | openmax/h264.cpp:497-508 | a crop percentage maps to a Q16 fraction that reaches 1.0 exactly at 100 and is 0 exactly at 0 |
| Config.Percent16Monotone | openmax/h264.cpp:497-508 | a larger percentage never gives a smaller crop fraction |
| Config.Gain16 | openmax/h264.cpp:427-438 | an AWB gain in thousandths becomes the floor of its Q16 value, and 1000 becomes exactly 1.0 |
| Config.CropWindow | openmax/h264.cpp:497-508 | the configured crop is the whole frame |
| Config.CameraSettings | openmax/h264.cpp:327-519 | custom AWB gains are written exactly when white balance is off, and the crop window is always written |
| Config.RateControl | openmax/h264.cpp:526-553 | set_h264_settings writes a bitrate exactly when VIDEO_QP is off and quantisers exactly when it is on |
| Config.PortBitrateAgrees | openmax/h264.cpp:749-751 | the bitrate written into the encoder's port definition is zero exactly when set_h264_settings writes fixed quantisers, and otherwise equals the bitrate it writes |
| Config.ConfiguredRateControl | openmax/h264.cpp:526-553 | with the shipped configuration the encoder targets 140000 bit/s and writes no custom AWB gains |
| Omx.Deliveries | openmax/h264.cpp:18-113 | driver callbacks change only event flags |
| Omx.AwaitStep | openmax/h264.cpp:115-131 | a wait on a component hangs, aborts or completes exactly as the flags primitive decides |
| Omx.RunAppend | openmax/h264.cpp:655-816 | running two step lists back to back is running their concatenation, and a run that stopped stays stopped |
| Omx.FailFast | openmax/h264.cpp:655-884 | the first rejected request ends the run at that request, so nothing after it reaches the driver |
| Omx.CompletedMeansAccepted | openmax/h264.cpp:655-884 | a run that completes had every checked request and every wait accepted |
| Omx.NominalRun | openmax/h264.cpp:115-131 | under the nominal driver every step list whose waits can be announced completes, in the state the pure effects predict, with no flag left pending |
| H264.Range | openmax/h264.cpp:157-181 | a reported port range holds exactly the ports from its start up to start plus count |
| H264.DisableRange | openmax/h264.cpp:157-181 | init_component disables each port of a range in increasing order, waiting after each |
| H264.Configures | openmax/h264.cpp:327-653 | a parameter list is written in order, one call per setting, and every such write leaves the pipeline's state, ports, buffer and tunnels alone and needs no wait but the driver-load one |
| H264.Fills | app/main.cpp:16-25 | n frames are n fill requests, each followed directly by the wait for the encoder's FillBufferDone and none begun before the previous one returned |
| H264.InitComponent | openmax/h264.cpp:133-183 | init_component creates the flags and gets the handle, then for audio, video, image and other in turn queries the port range and disables each port, waiting after each; `H264.ReplayInitComponent` and `Order.GatedInitComponent` state its effect and its ordering |
| H264.DeinitComponent | openmax/h264.cpp:185-196 | deinit_component deletes the flags and then frees the handle; `H264.ReplayDeinitComponents` states its effect |
| H264.LoadCameraDrivers | openmax/h264.cpp:198-239 | load_camera_drivers requests the driver-load callback, sets camera device number 0 and waits for the param-or-config-changed event; `Order.GatedLoadCameraDrivers` states its ordering |
| H264.ChangeState | openmax/h264.cpp:241-253 | change_state issues one state command, which the caller follows by the state-set wait; `H264.ReplayChangeState` states its effect |
| H264.EnableAndWait | openmax/h264.cpp:255-266 | enable_port issues one port-enable command, which the caller follows by the port-enable wait; `H264.ReplayEnableAndWait` states its effect |
| H264.DisableAndWait | openmax/h264.cpp:268-279 | disable_port issues one port-disable command, which the caller follows by the port-disable wait; `H264.ReplayDisableAndWait` states its effect |
| H264.EnableEncoderOutput | openmax/h264.cpp:281-307 | enable_encoder_output_port enables port 201, reads its definition, allocates the buffer and only then waits for the enable; `Order.AllocateInsideEnable` and `H264.ReplayEnableEncoderOutput` state its ordering and effect |
| H264.DisableEncoderOutput | openmax/h264.cpp:309-325 | disable_encoder_output_port disables port 201, frees the buffer and only then waits for the disable; `Order.FreeInsideDisable` and `H264.ReplayDisableEncoderOutput` state its ordering and effect |
| H264.CameraPorts | openmax/h264.cpp:683-731 | the camera reads port 71's definition, writes it to ports 71 and 70 with the capture size and the Q16 frame rate, then writes both ports' frame rates |
| H264.CameraSettingSteps | openmax/h264.cpp:327-519 | set_camera_settings is the camera's parameter list written in order; `H264.Configures` and `Config.CameraSettings` state its calls and values |
| H264.EncoderPort | openmax/h264.cpp:736-758 | the encoder reads port 201's definition and writes it back with the capture size, the Q16 frame rate and the bitrate `Config.PortBitrateAgrees` relates to the rate control |
| H264.H264Settings | openmax/h264.cpp:521-653 | set_h264_settings writes the rate control, the port format, the IDR period, SEI, EEDE, the EEDE loss rate, the AVC profile and the inline headers, reading the port before the IDR period and the profile |
| H264.SetupTunnels | openmax/h264.cpp:763-774 | the video tunnel camera 71 to encoder 200 is set up before the preview tunnel camera 70 to null_sink 240 |
| H264.ToExecuting | openmax/h264.cpp:795-802 | camera and encoder go to Executing, then the encoder's port-settings report is awaited, then null_sink goes to Executing; `Order.SinkStartsAfterPortSettings` states the ordering |
| H264.InitSteps | openmax/h264.cpp:655-815 | omx_h264_init is the preamble up to the configuration followed by the start-up; `H264.InitReachesReady`, `Order.GatedInit` and `Order.PickInit` state what it does |
| H264.DeinitSteps | openmax/h264.cpp:818-869 | omx_h264_deinit stops capture, goes to Idle, disables the ports, goes to Loaded, releases the components and shuts the IL down; `H264.DeinitRestoresInitial` and `Order.DeinitMirrorsInit` state what it does |
| H264.FillSteps | openmax/h264.cpp:871-884 | fill_frame_buffer hands the buffer to the encoder and waits for it back; `H264.ReplayFill` states its effect |
| H264.ReplayDisableRange | openmax/h264.cpp:157-181 | disabling a range removes exactly its ports from the component's enabled set |
| H264.ReplayInitComponent | openmax/h264.cpp:133-183 | init_component leaves the component with live flags, a handle and all four domains' ports disabled |
| H264.ReplayChangeState | openmax/h264.cpp:241-253 | change_state and its wait move one component to the target state and change nothing else |
| H264.ReplayAllToState | openmax/h264.cpp:777-782 | the three transitions move every component to the target state |
| H264.ReplayEnableAndWait | openmax/h264.cpp:255-266 | enable_port and its wait add exactly that port |
| H264.ReplayDisableAndWait | openmax/h264.cpp:268-279 | disable_port and its wait remove exactly that port |
| H264.ReplayEnableTunnelPorts | openmax/h264.cpp:785-792 | the tunnel port enables add camera 71 and 70, null_sink 240 and encoder 200 |
| H264.ReplayDisableTunnelPorts | openmax/h264.cpp:838-845 | the tunnel port disables remove the same four ports |
| H264.ReplayEnableEncoderOutput | openmax/h264.cpp:281-307 | enabling the encoder output enables port 201 and leaves the application holding the buffer |
| H264.ReplayDisableEncoderOutput | openmax/h264.cpp:309-325 | disabling the encoder output disables port 201 and releases the buffer |
| H264.ReplayToExecuting | openmax/h264.cpp:796-802 | the executing transitions, with the port-settings wait, put all three components in Executing |
| H264.ReplayComponents | openmax/h264.cpp:666-677 | OMX_Init and the three init_component calls reach the pipeline with every port disabled |
| H264.ConfigurationInert | openmax/h264.cpp:680-761 | everything omx_h264_init does while the components are Loaded is reads, parameter writes and the driver-load wait |
| H264.ConfigStepsHarmless | openmax/h264.cpp:680-761 | such steps leave the modelled pipeline unchanged and the nominal driver can answer all of them |
| H264.ReplayPreamble | openmax/h264.cpp:655-761 | omx_h264_init reaches the configured, all-Loaded pipeline before the tunnels are set up |
| H264.ReplayStartup | openmax/h264.cpp:763-815 | tunnels, Idle, port enables, Executing and capture take the configured pipeline to the running one |
| H264.ReplayReady | openmax/h264.cpp:763-815 | the start-up ends with all components Executing, the five ports enabled, the buffer held, capture on and both tunnels present |
| H264.InitReachesReady | openmax/h264.cpp:655-816 | omx_h264_init takes the initial pipeline to the running one, whatever port layouts the components report |
| H264.ReplayFill | openmax/h264.cpp:871-884 | a fill and its wait hand the buffer to the encoder and back |
| H264.ReplayFills | openmax/h264.cpp:871-884 | any number of fills leave the running pipeline unchanged |
| H264.ReplayStopCapture | openmax/h264.cpp:820-835 | capture off and the Idle transitions leave every component Idle |
| H264.ReplayShutdownPorts | openmax/h264.cpp:820-846 | after the port disables no port of the pipeline remains enabled and the buffer is freed |
| H264.ReplayDeinitComponents | openmax/h264.cpp:857-859 | deinit_component deletes the flags and frees the handle of each component, and drops the tunnels |
| H264.ReplayDeinit | openmax/h264.cpp:818-869 | omx_h264_deinit takes any pipeline to one with no handle, no flags, no buffer, no tunnels and the IL down |
| H264.DeinitRestoresInitial | openmax/h264.cpp:818-869 | omx_h264_deinit takes the running pipeline back to the initial one |
| H264.SessionRoundTrip | app/main.cpp:8-31 | init, any number of fills, then deinit returns the pipeline to its initial state |
| H264.NominalInit | openmax/h264.cpp:655-816 | every wait omx_h264_init makes is one the driver can announce |
| H264.NominalSessionSteps | app/main.cpp:8-31 | every wait of a whole stream session is one the driver can announce |
| H264.NominalSession | app/main.cpp:8-31 | with a driver that accepts everything and announces each awaited event, a whole session completes and ends at the initial pipeline |
| Order.AckOf | openmax/h264.cpp:198-884 | the asynchronous requests are exactly state changes, port enables and disables, the camera device number and buffer fills, and each acknowledgement is a flag the driver can deliver |
| Order.GatedAcknowledged | openmax/h264.cpp:655-884 | in a gated list every asynchronous request is followed by the wait for its acknowledgement, with no other request or wait in between |
| Order.GatedInitComponent | openmax/h264.cpp:133-183 | each port disable of init_component is acknowledged before the next |
| Order.GatedLoadCameraDrivers | openmax/h264.cpp:198-239 | the device-number write is acknowledged by the driver-load event before anything else |
| Order.GatedConfiguration | openmax/h264.cpp:680-761 | the configuration phase issues no unacknowledged asynchronous request |
| Order.GatedStartup | openmax/h264.cpp:763-815 | each transition and port enable of the start-up is acknowledged before the next request |
| Order.GatedInit | openmax/h264.cpp:655-816 | omx_h264_init as a whole is gated |
| Order.GatedDeinit | openmax/h264.cpp:818-869 | omx_h264_deinit as a whole is gated |
| Order.GatedFills | openmax/h264.cpp:871-884 | each fill is acknowledged before the next fill is requested |
| Order.GatedSession | app/main.cpp:8-31 | a whole stream session is gated |
| Order.SilentPreamble | openmax/h264.cpp:655-761 | nothing before the tunnels changes a component's state or enables a port |
| Order.PickStartupTransitions | openmax/h264.cpp:776-802 | the start-up moves camera, encoder, null_sink to Idle and then to Executing, in that order |
| Order.PickStartupEnables | openmax/h264.cpp:785-793 | the start-up enables camera 71, camera 70, null_sink 240, encoder 200, encoder 201, in that order |
| Order.PickShutdownTransitions | openmax/h264.cpp:829-854 | the teardown moves camera, encoder, null_sink to Idle and then to Loaded |
| Order.PickShutdownDisables | openmax/h264.cpp:837-846 | the teardown disables the same five ports in the same order |
| Order.PickInit | openmax/h264.cpp:655-816 | of omx_h264_init, only the start-up changes component states or enables ports |
| Order.DeinitMirrorsInit | openmax/h264.cpp:655-869 | omx_h264_deinit disables exactly the ports omx_h264_init enabled, in the same order, and walks the states back through Idle to Loaded |
| Order.SinkStartsAfterPortSettings | openmax/h264.cpp:796-802 | omx_h264_init starts null_sink exactly once, directly after the encoder's port-settings wait |
| Order.BufferCallAround | openmax/h264.cpp:281-325 | a buffer call that occurs once inside a port handshake, between step blocks that never touch the buffer, is the only buffer call of the whole list and keeps its place between the request and the wait |
| Order.AllocateInsideEnable | openmax/h264.cpp:281-307 | omx_h264_init allocates the encoder's output buffer exactly once, after port 201's enable request with no asynchronous request or wait in between, and directly before the port-enable wait |
| Order.FreeInsideDisable | openmax/h264.cpp:309-325 | omx_h264_deinit frees the encoder's output buffer exactly once, directly after port 201's disable request and directly before the port-disable wait |
| Order.UnbufferedPreamble | openmax/h264.cpp:655-761 | nothing before the tunnels allocates or frees a buffer |
| Deadline.Millis | app/app_timeout.cpp:8-11 | the reading in whole milliseconds is the floor of the nanosecond reading divided by 10^6 |
| Deadline.MillisMonotone | app/app_timeout.cpp:8-11 | a later clock reading never gives fewer milliseconds |
| Deadline.SetTimeout | app/app_timeout.cpp:6-13 | a freshly set deadline has timed out at a later clock exactly when at least the window of milliseconds has passed since it was set |
| Deadline.IsTimeout | app/app_timeout.cpp:15-20 | the deadline has passed exactly when the current millisecond has reached the end |
| Deadline.ExpiresAfterWindow | app/app_timeout.cpp:6-20 | a deadline set at one reading has passed at another exactly when at least the window has elapsed |
| Deadline.TimeoutStays | app/app_timeout.cpp:15-20 | once passed, a deadline stays passed |
| Deadline.FreshDeadlineNotPassed | app/app_timeout.cpp:6-20 | with a positive window, a fresh deadline has not passed at the moment it is set |
| Deadline.RearmExtends | app/app_timeout.cpp:6-13 | re-arming later never moves the deadline earlier |
| Udp.VerbsFit | udp_setup/udp_setup.h:14 | all three verbs are C strings that fit the 20-byte command buffer, and no two share a first byte |
| Udp.Receive | udp_setup/udp_setup.cpp:44-61 | a failed receive returns 0 and keeps the buffer; otherwise it returns 1 and the datagram's first 20 bytes overwrite the front of the buffer |
| Udp.CheckCommand | udp_setup/udp_setup.cpp:63-66 | a verb matches exactly when the buffer begins with it |
| Udp.DatagramPrefixMatches | udp_setup/udp_setup.cpp:44-66 | a datagram at least as long as a verb matches it exactly when it begins with it |
| Udp.ShortDatagramUsesStaleBytes | udp_setup/udp_setup.cpp:44-66 | a shorter datagram matches exactly when its bytes and the leftover bytes of the buffer together spell the verb |
| Udp.EmptyDatagramRepeats | udp_setup/udp_setup.cpp:44-61 | an empty datagram leaves the buffer as it was and still reports success |
| Udp.StaleVideoRequest | udp_setup/udp_setup.cpp:44-66 | after VIDEO_REQUEST the datagram VIDEO matches VIDEO_REQUEST again, though it does not on a fresh buffer |
| Udp.ZeroedMatchesNoVerb | udp_setup/udp_setup.cpp:9 | the zero-initialised buffer matches no verb |
| Udp.LongDatagramTruncated | udp_setup/udp_setup.cpp:47-52 | a datagram of 20 bytes or more is cut to its first 20 |
| Server.VerbsExclusive | app/main.cpp:43-69 | no buffer matches two verbs |
| Server.Classify | app/main.cpp:43-69 | a buffer is taken as each command exactly when it begins with that command's verb |
| Server.Dispatch | app/main.cpp:43-69 | the if-else chain of udp_check_command calls picks that command, and picks none exactly when no verb matches |
| Server.Start | udp_setup/udp_setup.cpp:11-36 | the server serves exactly when both sockets bind, and otherwise exits with status 0; it starts with no quit, no stream thread, a zeroed buffer and an unset deadline, in a state that satisfies the server invariant |
| Server.Obey | app/main.cpp:43-69 | VIDEO_REQUEST arms the deadline and may start the stream thread, SET_TIMEOUT only re-arms, QUIT_SERVER sets quit and goes to the join; a second VIDEO_REQUEST during a stream or a QUIT_SERVER with no stream thread is outside the model |
| Server.WorkerPass | app/main.cpp:14-27 | a pass moves only a live stream thread, keeps the deadline, quit and buffer, and, while main still runs, ends the process with status 0 exactly when a streaming pass that saw no quit fails to send |
| Server.Receipt | app/main.cpp:41-70 | a received datagram updates the buffer, and sets quit exactly when it spells QUIT_SERVER |
| Server.Step | app/main.cpp:33-77 | no move clears quit or revives an exited process, a stream pass leaves the command state alone, and a command starts at most a fresh stream thread |
| Server.VideoRequestArmsFirst | app/main.cpp:43-55 | VIDEO_REQUEST with no live stream arms the deadline from the current clock and starts the thread when creation succeeds |
| Server.SetTimeoutOnlyRearms | app/main.cpp:56-60 | SET_TIMEOUT only moves the deadline |
| Server.LastDeadlineWins | app/main.cpp:56-60 | of two SET_TIMEOUT commands, the later one's deadline stands |
| Server.QuitServerJoins | app/main.cpp:61-69 | QUIT_SERVER with a stream thread sets quit and moves the command thread to the join |
| Server.IgnoredDatagram | app/main.cpp:41-70 | a failed receive or an unknown command changes nothing but the buffer |
| Server.Misuse | app/main.cpp:43-69 | the moves outside the model are exactly VIDEO_REQUEST during a stream and QUIT_SERVER before any stream |
| Server.PassIssues | app/main.cpp:14-27 | each pass issues exactly the pipeline steps its move says: init on entry, one frame per turn, deinit on leaving the loop |
| Server.QuitOnEntry | app/main.cpp:14-27 | a stream thread that starts with quit set runs init, skips the loop and runs deinit |
| Server.TurnSendsOneFrame | app/main.cpp:16-25 | with quit clear and a successful send, a turn sends one more frame and stops exactly when the deadline has passed |
| Server.FailedSendExits | udp_setup/udp_setup.cpp:68-81 | a failed send ends the process with status 0 |
| Server.QuitStopsWorker | app/main.cpp:16-27 | once quit is set, each pass brings the stream thread one step closer to finished |
| Server.DeinitOnce | app/main.cpp:27-30 | a finished stream thread has issued deinit exactly once and takes no further pass |
| Server.StartInvariant | app/main.cpp:33-35 | the start state satisfies the server invariant |
| Server.StepInvariant | app/main.cpp:33-77 | every move preserves the invariant: joining implies quit and a stream thread, quit implies the command loop has stopped, a stop by quit implies quit, and a closed server has exited after a finished stream |
| Server.TraceInvariant | app/main.cpp:33-77 | every trace from an invariant state keeps it |
| Server.RepeatFills | openmax/h264.cpp:871-884 | k stream turns issue k fills |
| Server.FinishedIsSession | app/main.cpp:8-31 | a finished stream thread has issued exactly one whole session |
| Server.WorkerPipeline | app/main.cpp:8-31 | the pipeline is initial before and after a stream thread and running while it streams |
| Server.StreamingReady | app/main.cpp:14-25 | during the loop the pipeline stays running |
| Server.OrderlyShutdown | app/main.cpp:8-77 | when the server closes, the process exits with status 0 after QUIT_SERVER, the stream thread has finished, its steps were one complete session, and under a nominal driver that session completes at the initial pipeline |

## Left out

- Driver calls: `OMX_*`, `vcos_*` and `bcm_host_*` are abstract steps answered by a driver reply. The driver's own behaviour is not modelled; a reply may be any callbacks and any status. The effect of a call that succeeds is fixed by the model; the two assumptions it makes about the driver (every port enabled by `OMX_GetHandle`, every tunnel of a component dropped by `OMX_FreeHandle`) are listed under "Behaviour of the code worth knowing".
- Threads: the command loop, the stream thread and the driver's callback thread are interleaved as atomic moves. Each stream pass reads quit at its start and the clock at its end. Races inside a pass are not modelled. Two of them are real. The static `struct timespec spec` of `app/app_timeout.cpp:3,8,17` is written by `set_timeout` on the command thread and by `is_timeout` on the stream thread. `client_addr` is rewritten by `recvfrom` (`udp_setup/udp_setup.cpp:47-52`) while the stream thread sends to it (`udp_setup/udp_setup.cpp:70-76`).
- Floating point: `is_timeout` compares a `double` with `end`. The model compares exact values, so rounding of the `double` is not modelled. The shutter speed `1.0/8.0` and the exposure compensation `/6.0` of `set_camera_settings` appear only as abstract settings.
- `TIMEOUT_MS` is defined in `app/app_timeout.h`, which is not part of this model. The window is a parameter of the server state.
- `set_quit` and `is_quit` (`common_util/common_util.h:11-12`): their bodies are not part of this model. Quit is a flag that is set once and never cleared.
- Logging, `DEBUG_MSG`, `dump_*` helpers and the component name strings carry no behaviour here and are omitted.
- Socket plumbing is omitted: addresses, ports 50000 and 50001, `socket`, `close` and the frame bytes sent. A bind failure and a send failure are modelled only as `exit(0)`.
- Server.Obey: a second `VIDEO_REQUEST` while a stream thread is live starts a second thread in the source. A `QUIT_SERVER` before any stream joins an uninitialised thread id. Both end a trace as `Undefined` rather than being modelled.
- Server.WorkerPass: a failed `pthread_create` is a parameter (`spawned`). The stream loop's pipeline calls are tied to a nominal driver through `Server.OrderlyShutdown`. Driver failures inside a stream are covered by `Omx.FailFast` on the step lists rather than inside the server moves.
- Server.OrderlyShutdown: the server state keeps only the most recent stream thread, so the lemma speaks of the last session only. Sessions that ended earlier by timeout are not recorded.
- `long` and `OMX_U32` widths are not modelled. Clock values and frame counts are unbounded. The 16-bit shifts of `Config` are bounded explicitly.
- Strings: the command buffer holds `char`s, and `'\0'` stands for the zero byte.
- `OMX_EventCmdComplete` for flush and mark-buffer commands and the other rarely delivered events are modelled as flags. No code path of the core waits on them.
