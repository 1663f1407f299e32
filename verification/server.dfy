/** app/main.cpp: the command loop of `main` and the `stream_thread` worker,
    as one state machine whose moves are the inputs either thread consumes.
    A move of the main thread is one received datagram (with the clock
    reading `set_timeout` would see and whether `pthread_create`
    succeeded) or the return from `pthread_join`; a move of the worker is
    one pass of its code between two reads of shared state. The shared
    quit flag (`set_quit`/`is_quit`, implemented outside this model) is a
    write-once boolean. */
module Server {
  import opened Deadline
  import Udp
  import Omx
  import H264

  // ---------------------------------------------------------------------
  // Which verb a command buffer carries.

  datatype Command = VideoRequestCmd | SetTimeoutCmd | QuitServerCmd | UnknownCmd

  /** A matching buffer starts with the verb's first byte. */
  lemma MatchesFirst(buf: Udp.Buffer, verb: seq<char>)
    requires Udp.Verb(verb) && |verb| > 0 && Udp.Matches(buf, verb)
    ensures buf[0] == verb[0]
  {
    assert buf[..|verb|][0] == buf[0];
  }

  /** No buffer matches two of the verbs. */
  lemma VerbsExclusive(buf: Udp.Buffer)
    ensures !(Udp.Matches(buf, Udp.VideoRequest) && Udp.Matches(buf, Udp.SetTimeoutVerb))
    ensures !(Udp.Matches(buf, Udp.VideoRequest) && Udp.Matches(buf, Udp.QuitServer))
    ensures !(Udp.Matches(buf, Udp.SetTimeoutVerb) && Udp.Matches(buf, Udp.QuitServer))
  {
    Udp.VerbsFit();
    if Udp.Matches(buf, Udp.VideoRequest) { MatchesFirst(buf, Udp.VideoRequest); }
    if Udp.Matches(buf, Udp.SetTimeoutVerb) { MatchesFirst(buf, Udp.SetTimeoutVerb); }
    if Udp.Matches(buf, Udp.QuitServer) { MatchesFirst(buf, Udp.QuitServer); }
  }

  /** The if / else-if chain of `main`: VIDEO_REQUEST is checked first, then
      SET_TIMEOUT, then QUIT_SERVER. Because the verbs exclude each other,
      each command is recognised exactly when its verb matches, whatever
      the order of the tests. */
  function Classify(buf: Udp.Buffer): (c: Command)
    ensures c == VideoRequestCmd <==> Udp.Matches(buf, Udp.VideoRequest)
    ensures c == SetTimeoutCmd <==> Udp.Matches(buf, Udp.SetTimeoutVerb)
    ensures c == QuitServerCmd <==> Udp.Matches(buf, Udp.QuitServer)
  {
    Udp.VerbsFit();
    VerbsExclusive(buf);
    if Udp.Matches(buf, Udp.VideoRequest) then VideoRequestCmd
    else if Udp.Matches(buf, Udp.SetTimeoutVerb) then SetTimeoutCmd
    else if Udp.Matches(buf, Udp.QuitServer) then QuitServerCmd
    else UnknownCmd
  }

  /** The same decision made the way `main` makes it: up to three calls of
      udp_check_command, stopping at the first that matches. */
  method Dispatch(buf: Udp.Buffer) returns (c: Command)
    ensures c == Classify(buf)
    ensures c == UnknownCmd <==>
              !Udp.Matches(buf, Udp.VideoRequest) && !Udp.Matches(buf, Udp.SetTimeoutVerb) &&
              !Udp.Matches(buf, Udp.QuitServer)
  {
    Udp.VerbsFit();
    var video := Udp.CheckCommand(buf, Udp.VideoRequest);
    if video {
      return VideoRequestCmd;
    }
    var timeout := Udp.CheckCommand(buf, Udp.SetTimeoutVerb);
    if timeout {
      return SetTimeoutCmd;
    }
    var quit := Udp.CheckCommand(buf, Udp.QuitServer);
    if quit {
      return QuitServerCmd;
    }
    return UnknownCmd;
  }

  // ---------------------------------------------------------------------
  // The two threads.

  /** Why the worker's loop ended. */
  datatype StopReason = ByQuit | ByTimeout

  /** Where the worker thread is: not created; created but not yet through
      omx_h264_init; in the loop having sent `frames` frames; out of the
      loop with omx_h264_deinit still to run; ended. */
  datatype Worker =
    | Absent
    | Spawned
    | Streaming(frames: nat)
    | Stopping(frames: nat, why: StopReason)
    | Finished(frames: nat, why: StopReason)

  /** A worker thread that exists and has not ended. */
  predicate Active(w: Worker) {
    w.Spawned? || w.Streaming? || w.Stopping?
  }

  /** Where the main thread is; `Exited` is the whole process's end. */
  datatype MainPhase = Serving | Joining | Exited(code: int)

  datatype Server = Server(
    window: int,              // TIMEOUT_MS
    buf: Udp.Buffer,          // command_buf
    deadline: Deadline,       // end
    quit: bool,               // the quit flag
    worker: Worker,
    main: MainPhase,
    closed: bool)             // udp_server_close has run

  /** udp_server_setup: either bind failing ends the process with status 0;
      otherwise the loop starts with nothing received, no deadline set and
      no worker. */
  function Start(window: int, commandBound: bool, streamBound: bool): (s: Server)
    ensures s.main == Serving <==> commandBound && streamBound
    ensures s.main != Serving ==> s.main == Exited(0)
    ensures !s.quit && s.worker == Absent && !s.closed && s.deadline == Unset
    ensures forall i :: 0 <= i < |s.buf| ==> s.buf[i] == '\0'
    ensures Invariant(s)
  {
    Server(window, Udp.Zeroed(), Unset, false, Absent,
           if commandBound && streamBound then Serving else Exited(0), false)
  }

  /** One input to the system. */
  datatype Move =
    | Datagram(d: Udp.Option<seq<char>>, now: Clock, spawned: bool)  // main: one udp_receive_command
    | Join                                                           // main: pthread_join returns
    | Pass(now: Clock, sent: bool)                                   // worker: one pass

  /** What a move does: it happens, the thread that would make it cannot
      (blocked, absent, or the process has ended), or the source leaves its
      outcome undefined: VIDEO_REQUEST while a worker is active starts a
      second one over the same pipeline, and QUIT_SERVER with no worker
      joins an uninitialised thread handle. */
  datatype Next = Moved(s: Server) | Blocked | Undefined

  /** The main thread's handling of one received command. */
  function Obey(s: Server, c: Command, now: Clock, spawned: bool): (n: Next)
    ensures n.Moved? ==> n.s.quit == (s.quit || c == QuitServerCmd)
    ensures n.Moved? ==> n.s.main == (if c == QuitServerCmd then Joining else s.main)
    ensures n.Moved? ==> n.s.window == s.window && n.s.buf == s.buf && n.s.closed == s.closed
    ensures n.Moved? ==> n.s.worker == s.worker || (c == VideoRequestCmd && n.s.worker == Spawned)
    ensures n.Undefined? <==> (c == VideoRequestCmd && Active(s.worker)) || (c == QuitServerCmd && s.worker.Absent?)
  {
    match c
    case VideoRequestCmd =>
      if Active(s.worker) then Undefined
      else Moved(s.(deadline := SetTimeout(now, s.window), worker := if spawned then Spawned else s.worker))
    case SetTimeoutCmd => Moved(s.(deadline := SetTimeout(now, s.window)))
    case QuitServerCmd =>
      if s.worker.Absent? then Undefined else Moved(s.(quit := true, main := Joining))
    case UnknownCmd => Moved(s)
  }

  /** One pass of stream_thread: omx_h264_init; or a loop turn (the quit
      check, then fill, send and the timeout check); or omx_h264_deinit. A
      failed send ends the process with status 0 on the spot. */
  function WorkerPass(s: Server, now: Clock, sent: bool): (n: Next)
    ensures n.Moved? <==> Active(s.worker)
    ensures n.Moved? ==> n.s.deadline == s.deadline && n.s.quit == s.quit && n.s.buf == s.buf
    ensures n.Moved? ==> n.s.window == s.window && n.s.closed == s.closed
    ensures n.Moved? && n.s.main != s.main ==> n.s.main == Exited(0) && n.s.worker == s.worker
    ensures n.Moved? && !s.main.Exited? ==> (n.s.main != s.main <==> s.worker.Streaming? && !s.quit && !sent)
  {
    match s.worker
    case Spawned => Moved(s.(worker := Streaming(0)))
    case Streaming(k) =>
      if s.quit then Moved(s.(worker := Stopping(k, ByQuit)))
      else if !sent then Moved(s.(main := Exited(0)))
      else if IsTimeout(s.deadline, now) then Moved(s.(worker := Stopping(k + 1, ByTimeout)))
      else Moved(s.(worker := Streaming(k + 1)))
    case Stopping(k, why) => Moved(s.(worker := Finished(k, why)))
    case _ => Blocked
  }

  /** One pass of the command loop: udp_receive_command, then, if it
      succeeded, the command the buffer now holds. */
  function Receipt(s: Server, d: Udp.Option<seq<char>>, now: Clock, spawned: bool): (n: Next)
    ensures n.Moved? ==> n.s.quit == (s.quit || (d.Some? && Classify(n.s.buf) == QuitServerCmd))
    ensures n.Moved? ==> n.s.window == s.window
    ensures n.Moved? ==> n.s.worker == s.worker || n.s.worker == Spawned
    ensures n.Moved? ==> n.s.closed == s.closed && n.s.buf == Udp.Receive(s.buf, d).buf
  {
    var r := Udp.Receive(s.buf, d);
    if r.status == 0 then Moved(s)
    else Obey(s.(buf := r.buf), Classify(r.buf), now, spawned)
  }

  /** One move of the system. */
  function Step(s: Server, m: Move): (n: Next)
    ensures n.Moved? ==> (s.quit ==> n.s.quit) && n.s.window == s.window
    ensures n.Moved? ==> !s.main.Exited?
    ensures n.Moved? && m.Pass? ==> n.s.deadline == s.deadline && n.s.quit == s.quit && n.s.buf == s.buf
    ensures n.Moved? && !m.Pass? ==> n.s.worker == s.worker || n.s.worker == Spawned
  {
    if s.main.Exited? then Blocked
    else
      match m
      case Datagram(d, now, spawned) => if s.main.Serving? then Receipt(s, d, now, spawned) else Blocked
      case Join =>
        if s.main.Joining? && s.worker.Finished? then Moved(s.(main := Exited(0), closed := true))
        else Blocked
      case Pass(now, sent) => WorkerPass(s, now, sent)
  }

  // ---------------------------------------------------------------------
  // The main thread.

  /** VIDEO_REQUEST sets the deadline before trying to start the worker; a
      failed `pthread_create` keeps the new deadline and changes nothing
      else. */
  lemma VideoRequestArmsFirst(s: Server, d: seq<char>, now: Clock, spawned: bool)
    requires s.main == Serving && !Active(s.worker)
    requires Udp.Matches(Udp.Receive(s.buf, Udp.Some(d)).buf, Udp.VideoRequest)
    ensures Step(s, Datagram(Udp.Some(d), now, spawned)) ==
              Moved(s.(buf := Udp.Receive(s.buf, Udp.Some(d)).buf, deadline := SetTimeout(now, s.window),
                       worker := if spawned then Spawned else s.worker))
  {
  }

  /** SET_TIMEOUT rewrites the deadline and nothing else. */
  lemma SetTimeoutOnlyRearms(s: Server, d: seq<char>, now: Clock, spawned: bool)
    requires s.main == Serving
    requires Udp.Matches(Udp.Receive(s.buf, Udp.Some(d)).buf, Udp.SetTimeoutVerb)
    ensures Step(s, Datagram(Udp.Some(d), now, spawned)) ==
              Moved(s.(buf := Udp.Receive(s.buf, Udp.Some(d)).buf, deadline := SetTimeout(now, s.window)))
  {
  }

  /** Of two deadline-setting commands, the later one decides the deadline,
      whatever the earlier one set. */
  lemma LastDeadlineWins(s: Server, d1: seq<char>, t1: Clock, d2: seq<char>, t2: Clock)
    requires s.main == Serving
    requires Udp.Matches(Udp.Receive(s.buf, Udp.Some(d1)).buf, Udp.SetTimeoutVerb)
    requires Udp.Matches(Udp.Receive(Udp.Receive(s.buf, Udp.Some(d1)).buf, Udp.Some(d2)).buf, Udp.SetTimeoutVerb)
    ensures Step(s, Datagram(Udp.Some(d1), t1, true)).Moved?
    ensures Step(Step(s, Datagram(Udp.Some(d1), t1, true)).s, Datagram(Udp.Some(d2), t2, true)).Moved?
    ensures Step(Step(s, Datagram(Udp.Some(d1), t1, true)).s, Datagram(Udp.Some(d2), t2, true)).s.deadline ==
              SetTimeout(t2, s.window)
  {
    SetTimeoutOnlyRearms(s, d1, t1, true);
    var s1 := Step(s, Datagram(Udp.Some(d1), t1, true)).s;
    SetTimeoutOnlyRearms(s1, d2, t2, true);
  }

  /** QUIT_SERVER sets the quit flag and leaves the main thread waiting for
      the worker; once the worker has ended, the join returns, the sockets
      are closed and the process ends with status 0. */
  lemma QuitServerJoins(s: Server, d: seq<char>, now: Clock, spawned: bool)
    requires s.main == Serving && !s.worker.Absent?
    requires Udp.Matches(Udp.Receive(s.buf, Udp.Some(d)).buf, Udp.QuitServer)
    ensures Step(s, Datagram(Udp.Some(d), now, spawned)).Moved?
    ensures var q := Step(s, Datagram(Udp.Some(d), now, spawned)).s;
            q.quit && q.main == Joining && q.worker == s.worker && q.deadline == s.deadline &&
            (Step(q, Join).Moved? <==> q.worker.Finished?) &&
            (q.worker.Finished? ==> Step(q, Join) == Moved(q.(main := Exited(0), closed := true)))
  {
  }

  /** A failed receive or a datagram naming no verb changes nothing but the
      buffer, and the loop goes on. */
  lemma IgnoredDatagram(s: Server, d: Udp.Option<seq<char>>, now: Clock, spawned: bool)
    requires s.main == Serving
    requires d.None? || Classify(Udp.Receive(s.buf, d).buf) == UnknownCmd
    ensures Step(s, Datagram(d, now, spawned)) == Moved(s.(buf := Udp.Receive(s.buf, d).buf))
  {
  }

  /** The misuse the source does not guard against. */
  lemma Misuse(s: Server, d: seq<char>, now: Clock, spawned: bool)
    requires s.main == Serving
    ensures var b := Udp.Receive(s.buf, Udp.Some(d)).buf;
            Step(s, Datagram(Udp.Some(d), now, spawned)).Undefined? <==>
              (Udp.Matches(b, Udp.VideoRequest) && Active(s.worker)) ||
              (Udp.Matches(b, Udp.QuitServer) && s.worker.Absent?)
  {
  }

  // ---------------------------------------------------------------------
  // The worker thread.

  /** The pipeline requests of one worker lifetime: those of omx_h264_init,
      of one fill_frame_buffer, and of omx_h264_deinit. */
  datatype Plan = Plan(init: seq<Omx.Step>, fill: seq<Omx.Step>, deinit: seq<Omx.Step>)

  /** `k` copies of `fill`. */
  function Repeat(fill: seq<Omx.Step>, k: nat): (r: seq<Omx.Step>)
    ensures |r| == k * |fill|
  {
    if k == 0 then [] else fill + Repeat(fill, k - 1)
  }

  /** Copies can be counted from either end. */
  lemma {:induction false} RepeatSnoc(fill: seq<Omx.Step>, k: nat)
    ensures Repeat(fill, k + 1) == Repeat(fill, k) + fill
  {
    if k > 0 {
      RepeatSnoc(fill, k - 1);
    }
  }

  /** The requests a worker has made so far. */
  function Issued(w: Worker, p: Plan): seq<Omx.Step> {
    match w
    case Absent => []
    case Spawned => []
    case Streaming(k) => p.init + Repeat(p.fill, k)
    case Stopping(k, _) => p.init + Repeat(p.fill, k)
    case Finished(k, _) => p.init + Repeat(p.fill, k) + p.deinit
  }

  /** Each worker pass adds exactly its own requests: omx_h264_init first,
      one fill_frame_buffer per frame sent, and omx_h264_deinit last. */
  lemma PassIssues(s: Server, now: Clock, sent: bool, p: Plan)
    requires Step(s, Pass(now, sent)).Moved?
    ensures var w := Step(s, Pass(now, sent)).s.worker;
            (s.worker.Spawned? ==> w == Streaming(0) && Issued(w, p) == Issued(s.worker, p) + p.init) &&
            (s.worker.Streaming? && w == Streaming(s.worker.frames + 1) ==> Issued(w, p) == Issued(s.worker, p) + p.fill) &&
            (s.worker.Stopping? ==> Issued(w, p) == Issued(s.worker, p) + p.deinit)
  {
    match s.worker
    case Spawned =>
      assert p.init + [] == p.init;
    case Streaming(k) =>
      RepeatSnoc(p.fill, k);
      assert p.init + (Repeat(p.fill, k) + p.fill) == p.init + Repeat(p.fill, k) + p.fill;
    case _ =>
  }

  /** A worker that finds the quit flag set on entry sends nothing but still
      runs omx_h264_init and omx_h264_deinit. */
  lemma QuitOnEntry(s: Server, t1: Clock, t2: Clock, t3: Clock, sent: bool, p: Plan)
    requires !s.main.Exited? && s.quit && s.worker == Spawned
    ensures var a := Step(s, Pass(t1, sent));
            a.Moved? && a.s.worker == Streaming(0) &&
            var b := Step(a.s, Pass(t2, sent));
            b.Moved? && b.s.worker == Stopping(0, ByQuit) &&
            var c := Step(b.s, Pass(t3, sent));
            c.Moved? && c.s.worker == Finished(0, ByQuit) &&
            Issued(c.s.worker, p) == p.init + p.deinit
  {
    assert p.init + [] == p.init;
  }

  /** A loop turn that does not see the quit flag sends exactly one frame and
      only then looks at the deadline: the worker stops exactly when the
      deadline has passed. */
  lemma TurnSendsOneFrame(s: Server, now: Clock, k: nat)
    requires !s.main.Exited? && !s.quit && s.worker == Streaming(k)
    ensures Step(s, Pass(now, true)) ==
              Moved(s.(worker := if IsTimeout(s.deadline, now) then Stopping(k + 1, ByTimeout)
                                 else Streaming(k + 1)))
  {
  }

  /** A turn whose send fails ends the process at once, with status 0 and
      without omx_h264_deinit. */
  lemma FailedSendExits(s: Server, now: Clock, k: nat)
    requires !s.main.Exited? && !s.quit && s.worker == Streaming(k)
    ensures Step(s, Pass(now, false)) == Moved(s.(main := Exited(0)))
    ensures Step(s, Pass(now, false)).s.worker == Streaming(k)
  {
  }

  /** How many passes an active worker still needs once the quit flag is set. */
  function Remaining(w: Worker): nat {
    match w
    case Spawned => 3
    case Streaming(_) => 2
    case Stopping(_, _) => 1
    case _ => 0
  }

  /** Once the quit flag is set, every pass of an active worker brings it one
      step closer to its end, so the join QUIT_SERVER waits on returns after
      at most three more passes. */
  lemma QuitStopsWorker(s: Server, now: Clock, sent: bool)
    requires !s.main.Exited? && s.quit && Active(s.worker)
    ensures Step(s, Pass(now, sent)).Moved?
    ensures Remaining(Step(s, Pass(now, sent)).s.worker) == Remaining(s.worker) - 1
    ensures Remaining(Step(s, Pass(now, sent)).s.worker) == 0 ==> Step(s, Pass(now, sent)).s.worker.Finished?
  {
  }

  /** omx_h264_deinit runs once: a worker that has ended makes no further
      move, and its requests end with exactly one deinit after the last
      frame. */
  lemma DeinitOnce(s: Server, now: Clock, sent: bool, p: Plan)
    requires s.worker.Finished?
    ensures Step(s, Pass(now, sent)) == Blocked
    ensures Issued(s.worker, p) == Issued(Stopping(s.worker.frames, s.worker.why), p) + p.deinit
  {
  }

  // ---------------------------------------------------------------------
  // Whole runs.

  /** The state after a series of moves, or `None` if one of them could not
      happen or is undefined. */
  function Trace(s: Server, ms: seq<Move>): Udp.Option<Server>
    decreases |ms|
  {
    if |ms| == 0 then Udp.Some(s)
    else
      match Step(s, ms[0])
      case Moved(s') => Trace(s', ms[1..])
      case _ => Udp.None
  }

  /** What holds in every reachable state: the main thread waits for the
      worker only after setting quit; a worker stopped by quit saw the flag;
      the sockets are closed only on the orderly exit, which needs an ended
      worker. */
  predicate Invariant(s: Server) {
    (s.main.Joining? ==> s.quit && !s.worker.Absent?) &&
    (s.quit ==> !s.main.Serving?) &&
    (s.worker.Stopping? && s.worker.why == ByQuit ==> s.quit) &&
    (s.worker.Finished? && s.worker.why == ByQuit ==> s.quit) &&
    (s.closed ==> s.main == Exited(0) && s.quit && s.worker.Finished?)
  }

  lemma StartInvariant(window: int, commandBound: bool, streamBound: bool)
    ensures Invariant(Start(window, commandBound, streamBound))
  {
  }

  lemma StepInvariant(s: Server, m: Move)
    requires Invariant(s) && Step(s, m).Moved?
    ensures Invariant(Step(s, m).s)
  {
    if m.Datagram? && s.main.Serving? {
      var r := Udp.Receive(s.buf, m.d);
      if r.status != 0 {
        var c := Classify(r.buf);
        assert Step(s, m) == Obey(s.(buf := r.buf), c, m.now, m.spawned);
      }
    }
  }

  lemma {:induction false} TraceInvariant(s: Server, ms: seq<Move>)
    requires Invariant(s) && Trace(s, ms).Some?
    ensures Invariant(Trace(s, ms).value)
    decreases |ms|
  {
    if |ms| > 0 {
      StepInvariant(s, ms[0]);
      TraceInvariant(Step(s, ms[0]).s, ms[1..]);
    }
  }

  /** The plan stream_thread follows for components reporting port
      layouts `ls`. */
  function Stream(ls: H264.Layouts): Plan {
    Plan(H264.InitSteps(ls), H264.FillSteps(), H264.DeinitSteps())
  }

  lemma {:induction false} RepeatFills(k: nat)
    ensures Repeat(H264.FillSteps(), k) == H264.Fills(k)
  {
    if k > 0 {
      RepeatFills(k - 1);
    }
  }

  /** An ended worker's requests are one whole session of H264. */
  lemma FinishedIsSession(ls: H264.Layouts, k: nat, why: StopReason)
    ensures Issued(Finished(k, why), Stream(ls)) == H264.Session(ls, k)
  {
    RepeatFills(k);
  }

  /** The pipeline a worker leaves behind, if the driver behaves: back where
      it started once the worker has ended, ready to capture while it
      streams. */
  lemma WorkerPipeline(w: Worker, ls: H264.Layouts)
    ensures (w.Absent? || w.Spawned? || w.Finished?) ==>
              Omx.Replay(H264.Initial, Issued(w, Stream(ls))) == H264.Initial
    ensures (w.Streaming? || w.Stopping?) ==> Omx.Replay(H264.Initial, Issued(w, Stream(ls))) == H264.Ready
  {
    match w
    case Finished(k, why) =>
      FinishedIsSession(ls, k, why);
      H264.SessionRoundTrip(ls, k);
    case Streaming(k) =>
      StreamingReady(ls, k);
    case Stopping(k, _) =>
      StreamingReady(ls, k);
    case _ =>
  }

  lemma StreamingReady(ls: H264.Layouts, k: nat)
    ensures Omx.Replay(H264.Initial, Stream(ls).init + Repeat(Stream(ls).fill, k)) == H264.Ready
  {
    RepeatFills(k);
    Omx.ReplayAppend(H264.Initial, H264.InitSteps(ls), H264.Fills(k));
    H264.InitReachesReady(ls);
    H264.ReplayFills(k);
  }

  /** An orderly shutdown: whenever a run from a fresh start ends with the
      sockets closed, the process exited with status 0 after QUIT_SERVER, the
      worker ended and deinitialised the pipeline exactly once, and against a
      driver that answers every request the whole session ran to
      completion, leaving the pipeline as it found it. */
  lemma OrderlyShutdown(window: int, ms: seq<Move>, ls: H264.Layouts)
    requires Trace(Start(window, true, true), ms).Some?
    requires Trace(Start(window, true, true), ms).value.closed
    ensures var s := Trace(Start(window, true, true), ms).value;
            s.main == Exited(0) && s.quit && s.worker.Finished? &&
            Issued(s.worker, Stream(ls)) == H264.Session(ls, s.worker.frames) &&
            Omx.Run(H264.Initial, Omx.Nominal(Issued(s.worker, Stream(ls))), 0) == Omx.Completed(H264.Initial)
  {
    StartInvariant(window, true, true);
    TraceInvariant(Start(window, true, true), ms);
    var s := Trace(Start(window, true, true), ms).value;
    FinishedIsSession(ls, s.worker.frames, s.worker.why);
    H264.NominalSession(ls, s.worker.frames);
  }
}
