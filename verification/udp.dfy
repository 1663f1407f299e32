/** The command half of udp_setup/udp_setup.cpp: the fixed command buffer,
    what `udp_receive_command` leaves in it, and the prefix test
    `udp_check_command`. Sockets are left out; a receive is given the
    datagram the socket produced, or `None` when `recvfrom` failed. */
module Udp {

  datatype Option<T> = None | Some(value: T)

  /** COMMAND_BUFSIZE. */
  const CommandBufSize: nat := 20

  /** command_buf: a static, so it starts out all zero bytes. */
  type Buffer = b: seq<char> | |b| == CommandBufSize witness Zeroed()

  function Zeroed(): (b: seq<char>)
    ensures |b| == CommandBufSize && forall i :: 0 <= i < |b| ==> b[i] == '\0'
  {
    seq(CommandBufSize, _ => '\0')
  }

  /** A C string's characters up to (not including) its terminator. */
  predicate CString(s: seq<char>) {
    forall i :: 0 <= i < |s| ==> s[i] != '\0'
  }

  /** The three verbs main.cpp tests for. */
  const VideoRequest: seq<char> := "VIDEO_REQUEST"
  const SetTimeoutVerb: seq<char> := "SET_TIMEOUT"
  const QuitServer: seq<char> := "QUIT_SERVER"

  /** A verb `udp_check_command` may be given: a C string no longer than the
      buffer, so that the comparison stays inside it. */
  predicate Verb(v: seq<char>) {
    CString(v) && |v| <= CommandBufSize
  }

  /** All three verbs are valid and no two can match the same buffer, since
      they differ in their first byte. */
  lemma VerbsFit()
    ensures Verb(VideoRequest) && Verb(SetTimeoutVerb) && Verb(QuitServer)
    ensures |VideoRequest| == 13 && |SetTimeoutVerb| == 11 && |QuitServer| == 11
    ensures VideoRequest[0] != SetTimeoutVerb[0] && SetTimeoutVerb[0] != QuitServer[0] &&
            QuitServer[0] != VideoRequest[0]
  {
  }

  /** The result of one `udp_receive_command`: the buffer afterwards and the
      value returned. */
  datatype Received = Received(buf: Buffer, status: int)

  /** udp_receive_command: a failed `recvfrom` returns 0 and leaves the
      buffer alone; otherwise the datagram's first COMMAND_BUFSIZE bytes
      overwrite the front of the buffer (a longer datagram is truncated,
      a shorter one leaves the older bytes behind it) and 1 is returned. */
  function Receive(buf: Buffer, datagram: Option<seq<char>>): (r: Received)
    ensures r.status == 0 <==> datagram.None?
    ensures r.status == 0 || r.status == 1
    ensures datagram.None? ==> r.buf == buf
    ensures datagram.Some? ==>
              forall i :: 0 <= i < CommandBufSize ==>
                r.buf[i] == if i < |datagram.value| then datagram.value[i] else buf[i]
  {
    match datagram
    case None => Received(buf, 0)
    case Some(d) =>
      var k := if |d| < CommandBufSize then |d| else CommandBufSize;
      Received(d[..k] + buf[k..], 1)
  }

  /** What `udp_check_command` decides: the buffer begins with the verb. */
  predicate Matches(buf: Buffer, verb: seq<char>)
    requires |verb| <= CommandBufSize
  {
    buf[..|verb|] == verb
  }

  /** udp_check_command: `strncmp(cmd, command_buf, strlen(cmd)) == 0`,
      comparing byte by byte and stopping at the first difference. The
      datagram length plays no part. */
  method CheckCommand(buf: Buffer, verb: seq<char>) returns (matched: bool)
    requires Verb(verb)
    ensures matched <==> Matches(buf, verb)
    ensures matched <==> forall i :: 0 <= i < |verb| ==> buf[i] == verb[i]
  {
    var i := 0;
    while i < |verb|
      invariant 0 <= i <= |verb|
      invariant buf[..i] == verb[..i]
    {
      if buf[i] != verb[i] {
        return false;
      }
      i := i + 1;
    }
    return true;
  }

  /** A datagram that begins with a verb matches it, whatever follows the
      verb and whatever the buffer held before. */
  lemma DatagramPrefixMatches(buf: Buffer, d: seq<char>, verb: seq<char>)
    requires Verb(verb) && |verb| <= |d|
    ensures Matches(Receive(buf, Some(d)).buf, verb) <==> d[..|verb|] == verb
  {
    var b := Receive(buf, Some(d)).buf;
    assert forall i :: 0 <= i < |verb| ==> b[i] == d[i];
    if d[..|verb|] == verb {
      assert b[..|verb|] == verb;
    } else {
      var i :| 0 <= i < |verb| && d[i] != verb[i];
      assert b[..|verb|][i] != verb[i];
    }
  }

  /** A datagram shorter than a verb still matches it when the bytes left
      over from earlier datagrams complete it. */
  lemma ShortDatagramUsesStaleBytes(buf: Buffer, d: seq<char>, verb: seq<char>)
    requires Verb(verb) && |d| < |verb|
    ensures Matches(Receive(buf, Some(d)).buf, verb) <==>
              d == verb[..|d|] && buf[|d|..|verb|] == verb[|d|..]
  {
    var b := Receive(buf, Some(d)).buf;
    if Matches(b, verb) {
      assert forall i :: 0 <= i < |d| ==> d[i] == b[..|verb|][i];
      assert forall i :: |d| <= i < |verb| ==> buf[i] == b[..|verb|][i];
    } else {
      var i :| 0 <= i < |verb| && b[i] != verb[i];
      if i < |d| {
        assert d[i] != verb[..|d|][i];
      } else {
        assert buf[|d|..|verb|][i - |d|] != verb[|d|..][i - |d|];
      }
    }
  }

  /** An empty datagram leaves the buffer as it was, so it repeats whatever
      command came before it. */
  lemma EmptyDatagramRepeats(buf: Buffer)
    ensures Receive(buf, Some([])) == Received(buf, 1)
  {
    assert buf[0..] == buf;
  }

  /** For instance: after "VIDEO_REQUEST", the datagram "VIDEO" matches
      VIDEO_REQUEST again. */
  lemma StaleVideoRequest()
    ensures Matches(Receive(Receive(Zeroed(), Some(VideoRequest)).buf, Some("VIDEO")).buf, VideoRequest)
    ensures !Matches(Receive(Zeroed(), Some("VIDEO")).buf, VideoRequest)
  {
    var first := Receive(Zeroed(), Some(VideoRequest)).buf;
    DatagramPrefixMatches(Zeroed(), VideoRequest, VideoRequest);
    assert VideoRequest[..|VideoRequest|] == VideoRequest;
    ShortDatagramUsesStaleBytes(first, "VIDEO", VideoRequest);
    assert first[5..13] == VideoRequest[5..] by {
      assert first[..13] == VideoRequest;
    }
    ShortDatagramUsesStaleBytes(Zeroed(), "VIDEO", VideoRequest);
    assert Zeroed()[5] != VideoRequest[5..][0];
  }

  /** Nothing matches the zeroed buffer, so before any datagram arrives no
      verb is recognised. */
  lemma ZeroedMatchesNoVerb(verb: seq<char>)
    requires Verb(verb) && |verb| > 0
    ensures !Matches(Zeroed(), verb)
  {
    assert Zeroed()[..|verb|][0] != verb[0];
  }

  /** A longer datagram is cut to the buffer: only its first COMMAND_BUFSIZE
      bytes are kept. */
  lemma LongDatagramTruncated(buf: Buffer, d: seq<char>)
    requires |d| >= CommandBufSize
    ensures Receive(buf, Some(d)).buf == d[..CommandBufSize]
  {
  }
}
