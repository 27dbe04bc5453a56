/** The option negotiation engine: sub-negotiation framing, the three built-in
    option handlers (TERMINAL-TYPE, NAWS, TERMINAL-SPEED), the window-size
    update, and the dispatch of one complete command buffer. Handlers and the
    engine see the connection as a copy whose state is the demultiplexer's
    state at the moment of dispatch. */
module Negotiation {
  import opened TelnetBase
  import opened Connection

  /** The reply TERMINAL-SPEED gives to SEND: transmit and receive speed. */
  const SpeedReport: seq<byte> := Ascii("115200,115200")

  /** A sub-negotiation frame `IAC SB opt [op] payload IAC SE`; the operation
      byte is left out when it is NONE, and the payload is not escaped. */
  function SBFrame(opt: byte, op: byte, payload: seq<byte>): (r: seq<byte>) {
    [IAC, SB, opt] + (if op == NONE then [] else [op]) + payload + [IAC, SE]
  }

  /** Big-endian reading of the 16-bit value stored at `s[i..i+2]`. */
  function Uint16At(s: seq<byte>, i: nat): (r: int)
    requires i + 2 <= |s|
  {
    s[i] as int * 256 + s[i + 1] as int
  }

  /** Big-endian encoding of a 16-bit value. */
  function BigEndian16(v: int): (r: seq<byte>)
    requires 0 <= v < 0x1_0000
    ensures |r| == 2 && Uint16At(r, 0) == v
  {
    [v / 256, v % 256]
  }

  /** Sends one sub-negotiation frame through the guarded application write. */
  function SendSB(c: Conn, link: Transport, opt: byte, op: byte, payload: seq<byte>): (r: Sent)
    ensures c.state == NotReady ==> r == Sent(link, Fail(ConnectionNotReady))
    ensures c.state != NotReady && link.broken ==> r == Sent(link, Fail(WriteFailed))
    ensures c.state != NotReady && !link.broken ==>
              r.outcome == Pass && |r.link.sent| == |link.sent| + 1 &&
              r.link.sent[..|link.sent|] == link.sent &&
              var f := r.link.sent[|link.sent|];
              |f| == |payload| + (if op == NONE then 5 else 6) &&
              f[..3] == [IAC, SB, opt] &&
              f[|f| - 2..] == [IAC, SE] &&
              (op != NONE ==> f[3] == op) &&
              f[|f| - 2 - |payload|..|f| - 2] == payload
  {
    Write(c, link, SBFrame(opt, op, payload))
  }

  /** TERMINAL-TYPE: answers SEND with IS and the terminal name, when one is
      known; everything else is accepted silently. */
  function TerminalTypeReply(c: Conn, term: Option<seq<byte>>, link: Transport, data: seq<byte>): (r: Sent)
    ensures |data| < 4 ==> r == Sent(link, Fail(Malformed))
    ensures |data| >= 4 && (data[3] != SEND || term.None?) ==> r == Sent(link, Pass)
    ensures |data| >= 4 && data[3] == SEND && term.Some? ==> r == SendSB(c, link, TerminalType, IS, term.value)
    ensures |data| >= 4 && data[3] == SEND && term.Some? && c.state != NotReady && !link.broken ==>
              r == Sent(Transport(link.sent + [SBFrame(TerminalType, IS, term.value)], false), Pass)
  {
    if |data| < 4 then Sent(link, Fail(Malformed))
    else if data[3] == SEND then
      match term
      case None => Sent(link, Pass)
      case Some(name) => SendSB(c, link, TerminalType, IS, name)
    else Sent(link, Pass)
  }

  /** NAWS: reports the stored window size, with no operation byte. */
  function WindowSizeReport(c: Conn, link: Transport): (r: Sent)
    ensures c.state == NotReady ==> r == Sent(link, Fail(ConnectionNotReady))
    ensures c.state != NotReady && link.broken ==> r == Sent(link, Fail(WriteFailed))
    ensures c.state != NotReady && !link.broken ==>
              r == Sent(Transport(link.sent + [SBFrame(NegotiateAboutWindowSize, NONE, c.winSize)], false), Pass)
  {
    SendSB(c, link, NegotiateAboutWindowSize, NONE, c.winSize)
  }

  /** TERMINAL-SPEED: answers SEND with IS and a fixed speed report. */
  function TerminalSpeedReply(c: Conn, link: Transport, data: seq<byte>): (r: Sent)
    ensures |data| < 4 ==> r == Sent(link, Fail(Malformed))
    ensures |data| >= 4 && data[3] != SEND ==> r == Sent(link, Pass)
    ensures |data| >= 4 && data[3] == SEND ==> r == SendSB(c, link, TerminalSpeed, IS, SpeedReport)
    ensures |data| >= 4 && data[3] == SEND && c.state != NotReady && !link.broken ==>
              r == Sent(Transport(link.sent + [SBFrame(TerminalSpeed, IS, SpeedReport)], false), Pass)
  {
    if |data| < 4 then Sent(link, Fail(Malformed))
    else if data[3] == SEND then SendSB(c, link, TerminalSpeed, IS, SpeedReport)
    else Sent(link, Pass)
  }

  /** Runs one built-in handler on a command buffer. Every handler writes at
      most one frame and only appends to the log; it aborts on a buffer too
      short to hold an operation unless it never reads one (NAWS); and each
      failure has its cause: not-ready only on a not-ready connection, which
      then writes nothing, a write failure only on a broken transport. */
  function RunHandler(h: Handler, c: Conn, term: Option<seq<byte>>, link: Transport, data: seq<byte>): (r: Sent)
    ensures link.ExtendedBy(r.link) && |r.link.sent| <= |link.sent| + 1
    ensures r.outcome == Fail(Malformed) <==> h != WindowSizeHandler && |data| < 4
    ensures r.outcome == Fail(ConnectionNotReady) ==> c.state == NotReady
    ensures r.outcome == Fail(WriteFailed) ==> link.broken
    ensures c.state == NotReady ==> r.link == link
  {
    match h
    case TerminalTypeHandler => TerminalTypeReply(c, term, link, data)
    case WindowSizeHandler => WindowSizeReport(c, link)
    case TerminalSpeedHandler => TerminalSpeedReply(c, link, data)
  }

  /** The stored window size together with the transport after the update. */
  datatype Resized = Resized(conn: Conn, link: Transport)

  /** Stores width and height, each truncated to 16 bits, big-endian, and
      reports them at once through the NAWS handler; the handler's error is
      discarded. */
  function SetWindowSize(c: Conn, link: Transport, width: int, height: int): (r: Resized)
    ensures r.conn.state == c.state && r.conn.options == c.options
    ensures |r.conn.winSize| == 4
    ensures Uint16At(r.conn.winSize, 0) == width % 0x1_0000
    ensures Uint16At(r.conn.winSize, 2) == height % 0x1_0000
    ensures c.state == NotReady || link.broken ==> r.link == link
    ensures c.state != NotReady && !link.broken ==>
              !r.link.broken && r.link.sent == link.sent + [[IAC, SB, NegotiateAboutWindowSize] + r.conn.winSize + [IAC, SE]]
  {
    var w, h := BigEndian16(width % 0x1_0000), BigEndian16(height % 0x1_0000);
    var sized := c.(winSize := w + h);
    assert sized.winSize[..2] == w && sized.winSize[2..] == h;
    assert SBFrame(NegotiateAboutWindowSize, NONE, sized.winSize)
        == [IAC, SB, NegotiateAboutWindowSize] + sized.winSize + [IAC, SE];
    var sent := WindowSizeReport(sized, link);
    Resized(sized, sent.link)
  }

  /** The reply to a verb: the received buffer with its verb byte replaced. */
  function Reply(data: seq<byte>, verb: byte): (r: seq<byte>)
    requires |data| >= 2
  {
    data[1 := verb]
  }

  /** Handles one complete command buffer `IAC verb option ...`: answers DO
      and WILL from the option table, runs the post-DO handler after the DO
      reply, hands SB blocks to the option's sub-negotiation handler, and
      ignores every other verb. */
  function NegotiateOption(c: Conn, term: Option<seq<byte>>, link: Transport, data: seq<byte>): (r: Sent)
    ensures |data| < 3 ==> r == Sent(link, Fail(Malformed))
    ensures link.ExtendedBy(r.link)
    ensures r.outcome == Fail(ConnectionNotReady) ==> c.state == NotReady
    ensures r.outcome == Fail(WriteFailed) ==> link.broken
    ensures |data| >= 3 && data[1] != DO && data[1] != WILL && data[1] != SB ==> r == Sent(link, Pass)
    // DO: one reply, then the post-DO handler if there is one
    ensures |data| >= 3 && data[1] == DO && data[2] !in c.options ==>
              r.outcome == Pass && r.link == link.Write(Reply(data, WONT)).link
    ensures |data| >= 3 && data[1] == DO && data[2] in c.options && !link.broken ==>
              var o := c.options[data[2]];
              |r.link.sent| >= |link.sent| + 1 &&
              r.link.sent[..|link.sent| + 1] == link.sent + [Reply(data, if o.weWill then WILL else WONT)] &&
              (o.doHandler.None? ==> r == Sent(Transport(link.sent + [Reply(data, if o.weWill then WILL else WONT)], false), Pass))
    ensures |data| >= 3 && data[1] == DO && data[2] in c.options && link.broken &&
              c.options[data[2]].doHandler.None? ==>
              r == Sent(link, Fail(WriteFailed))
    // a post-DO handler sees the reply buffer and the log after the reply, and
    // its result replaces the reply's
    ensures |data| >= 3 && data[1] == DO && data[2] in c.options && c.options[data[2]].doHandler.Some? ==>
              var o := c.options[data[2]];
              var reply := Reply(data, if o.weWill then WILL else WONT);
              r == RunHandler(o.doHandler.value, c, term, link.Write(reply).link, reply)
    // WILL: exactly one reply; only a configured option reports a failed write
    ensures |data| >= 3 && data[1] == WILL && !link.broken ==>
              var agree := data[2] in c.options && c.options[data[2]].peerDo;
              r.link.sent == link.sent + [Reply(data, if agree then DO else DONT)] &&
              r.outcome == Pass
    ensures |data| >= 3 && data[1] == WILL && link.broken ==>
              r == Sent(link, if data[2] in c.options then Fail(WriteFailed) else Pass)
    // SB: silently ignored unless the option has a sub-negotiation handler,
    // which then sees the whole buffer and decides the result
    ensures |data| >= 3 && data[1] == SB && (data[2] !in c.options || c.options[data[2]].sbHandler.None?) ==>
              r == Sent(link, Pass)
    ensures |data| >= 3 && data[1] == SB && data[2] in c.options && c.options[data[2]].sbHandler.Some? ==>
              r == RunHandler(c.options[data[2]].sbHandler.value, c, term, link, data)
  {
    if |data| < 3 then Sent(link, Fail(Malformed))
    else
      var verb, code := data[1], data[2];
      if verb == DO then
        if code !in c.options then
          Sent(link.Write(Reply(data, WONT)).link, Pass)
        else
          var o := c.options[code];
          var reply := Reply(data, if o.weWill then WILL else WONT);
          var sent := link.Write(reply);
          match o.doHandler
          case None => sent
          case Some(h) => RunHandler(h, c, term, sent.link, reply)
      else if verb == WILL then
        if code !in c.options then
          Sent(link.Write(Reply(data, DONT)).link, Pass)
        else
          link.Write(Reply(data, if c.options[code].peerDo then DO else DONT))
      else if verb == SB then
        if code in c.options && c.options[code].sbHandler.Some? then
          RunHandler(c.options[code].sbHandler.value, c, term, link, data)
        else Sent(link, Pass)
      else Sent(link, Pass)
  }

  /** Peer's DO for an option we have no entry for: exactly one write,
      `IAC WONT x`, and no handler runs. */
  lemma DoUnconfiguredDeclines(c: Conn, term: Option<seq<byte>>, link: Transport, x: byte)
    requires x !in c.options && !link.broken
    ensures NegotiateOption(c, term, link, [IAC, DO, x]) ==
            Sent(Transport(link.sent + [[IAC, WONT, x]], false), Pass)
  {
    assert Reply([IAC, DO, x], WONT) == [IAC, WONT, x];
  }

  /** Peer's DO for a configured option: first `IAC WILL x` or `IAC WONT x`
      by the weWill flag; with the NAWS post-DO handler the window-size
      frame follows as the second and last write. */
  lemma DoConfiguredReplies(c: Conn, term: Option<seq<byte>>, link: Transport, x: byte)
    requires x in c.options && !link.broken && c.state != NotReady
    ensures var r := NegotiateOption(c, term, link, [IAC, DO, x]);
            var o := c.options[x];
            var reply := [IAC, if o.weWill then WILL else WONT, x];
            (o.doHandler.None? ==> r == Sent(Transport(link.sent + [reply], false), Pass)) &&
            (o.doHandler == Some(WindowSizeHandler) ==>
               r == Sent(Transport(link.sent + [reply, SBFrame(NegotiateAboutWindowSize, NONE, c.winSize)], false), Pass))
  {
    var o := c.options[x];
    var v := if o.weWill then WILL else WONT;
    assert Reply([IAC, DO, x], v) == [IAC, v, x];
    var sent := link.Write([IAC, v, x]);
    assert sent == Sent(Transport(link.sent + [[IAC, v, x]], false), Pass);
    if o.doHandler == Some(WindowSizeHandler) {
      assert NegotiateOption(c, term, link, [IAC, DO, x]) == WindowSizeReport(c, sent.link);
      var frame := SBFrame(NegotiateAboutWindowSize, NONE, c.winSize);
      assert link.sent + [[IAC, v, x]] + [frame] == link.sent + [[IAC, v, x], frame];
    }
  }

  /** Peer's WILL: exactly one write, `IAC DO x` when the option is
      configured with peerDo, `IAC DONT x` otherwise. */
  lemma WillReplies(c: Conn, term: Option<seq<byte>>, link: Transport, x: byte)
    requires !link.broken
    ensures var agree := x in c.options && c.options[x].peerDo;
            NegotiateOption(c, term, link, [IAC, WILL, x]) ==
            Sent(Transport(link.sent + [[IAC, if agree then DO else DONT, x]], false), Pass)
  {
    var v := if x in c.options && c.options[x].peerDo then DO else DONT;
    assert Reply([IAC, WILL, x], v) == [IAC, v, x];
  }

  /** Peer's WONT and DONT are acknowledgements: no write, no error. */
  lemma WontDontIgnored(c: Conn, term: Option<seq<byte>>, link: Transport, v: byte, x: byte)
    requires v == WONT || v == DONT
    ensures NegotiateOption(c, term, link, [IAC, v, x]) == Sent(link, Pass)
  {
  }

  /** The window size set to 80 x 24 is reported as
      `IAC SB NAWS 0 80 0 24 IAC SE`. */
  lemma WindowSize80x24(c: Conn, link: Transport)
    requires c.state != NotReady && !link.broken
    ensures SetWindowSize(c, link, 80, 24).link.sent ==
            link.sent + [[255, 250, 31, 0, 80, 0, 24, 255, 240]]
  {
    assert BigEndian16(80) == [0, 80] && BigEndian16(24) == [0, 24];
    var r := SetWindowSize(c, link, 80, 24);
    assert r.conn.winSize == [0, 80, 0, 24];
    assert [IAC, SB, NegotiateAboutWindowSize] + r.conn.winSize + [IAC, SE]
        == [255, 250, 31, 0, 80, 0, 24, 255, 240];
  }
}
