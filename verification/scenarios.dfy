/** End-to-end behaviour of a connection: what the built-in handlers write in
    answer to the peer's sub-negotiation queries, how the default option table
    answers negotiation, and how the frames this client writes read back
    through the same demultiplexer. */
module Scenarios {
  import opened TelnetBase
  import opened Connection
  import opened Negotiation
  import opened Demux

  /** The block `IAC SB opt op IAC SE` as the demultiplexer hands it over. */
  lemma QueryBlock(c: Conn, term: Option<seq<byte>>, link: Transport, opt: byte, op: byte)
    requires c.state == Data && opt != IAC && op != IAC
    ensures SBBlock([opt, op]) == [IAC, SB, opt, op, IAC, SE]
    ensures ProcessCommands(c, term, link, [IAC, SB, opt, op, IAC, SE]) ==
            AfterDispatch(c, EscIAC, NegotiateOption(c.(state := EscIAC), term, link, [IAC, SB, opt, op, IAC, SE]))
  {
    EscapeWithoutIAC([opt, op]);
    SubnegotiationDispatched(c, term, link, [opt, op]);
  }

  /** TERMINAL-TYPE (section 2 of RFC 1091): `IAC SB TERMINAL-TYPE SEND IAC SE`
      is answered with exactly one frame `IAC SB TERMINAL-TYPE IS <name> IAC SE`
      when a terminal name is known; with no name, or any other operation,
      nothing is written and nothing fails. */
  lemma TerminalTypeQuery(c: Conn, term: Option<seq<byte>>, link: Transport, op: byte)
    requires c.state == Data && !link.broken && op != IAC
    requires TerminalType in c.options && c.options[TerminalType].sbHandler == Some(TerminalTypeHandler)
    ensures ProcessCommands(c, term, link, [IAC, SB, TerminalType, op, IAC, SE]) ==
            Processed(c, [],
                      if op == SEND && term.Some?
                      then Transport(link.sent + [SBFrame(TerminalType, IS, term.value)], false)
                      else link,
                      None)
  {
    QueryBlock(c, term, link, TerminalType, op);
  }

  /** TERMINAL-SPEED (section 2 of RFC 1079): SEND is answered with exactly
      one frame `IAC SB TERMINAL-SPEED IS 115200,115200 IAC SE`; any other
      operation is accepted without a write. */
  lemma TerminalSpeedQuery(c: Conn, term: Option<seq<byte>>, link: Transport, op: byte)
    requires c.state == Data && !link.broken && op != IAC
    requires TerminalSpeed in c.options && c.options[TerminalSpeed].sbHandler == Some(TerminalSpeedHandler)
    ensures ProcessCommands(c, term, link, [IAC, SB, TerminalSpeed, op, IAC, SE]) ==
            Processed(c, [],
                      if op == SEND
                      then Transport(link.sent + [SBFrame(TerminalSpeed, IS, SpeedReport)], false)
                      else link,
                      None)
  {
    QueryBlock(c, term, link, TerminalSpeed, op);
  }

  /** A frame built by SendSB whose option code and payload hold no 255 is
      read back by the demultiplexer as exactly one sub-negotiation command
      carrying the same bytes. */
  lemma SBFrameReadsBack(c: Conn, term: Option<seq<byte>>, link: Transport,
                         opt: byte, op: byte, payload: seq<byte>)
    requires c.state == Data && opt != IAC && NoIAC(payload)
    ensures var f := SBFrame(opt, op, payload);
            ProcessCommands(c, term, link, f) ==
            AfterDispatch(c, EscIAC, NegotiateOption(c.(state := EscIAC), term, link, f))
  {
    var p := [opt] + (if op == NONE then [] else [op]) + payload;
    assert NoIAC(p) by {
      forall i | 0 <= i < |p| ensures p[i] != IAC {
        if i >= |p| - |payload| {
          assert p[i] == payload[i - (|p| - |payload|)];
        }
      }
    }
    EscapeWithoutIAC(p);
    assert SBBlock(p) == SBFrame(opt, op, payload);
    SubnegotiationDispatched(c, term, link, p);
  }

  /** The NAWS payload is not escaped: a width of 255 is written as a lone
      255 inside the frame. */
  lemma WindowSizeIsNotEscaped(c: Conn, link: Transport)
    requires c.state != NotReady && !link.broken
    ensures SetWindowSize(c, link, 255, 24).link.sent == link.sent + [[255, 250, 31, 0, 255, 0, 24, 255, 240]]
  {
    assert BigEndian16(255) == [0, 255] && BigEndian16(24) == [0, 24];
    var r := SetWindowSize(c, link, 255, 24);
    assert r.conn.winSize == [0, 255, 0, 24];
    assert [IAC, SB, NegotiateAboutWindowSize] + r.conn.winSize + [IAC, SE]
        == [255, 250, 31, 0, 255, 0, 24, 255, 240];
  }

  /** A demultiplexer reading that frame back takes the lone 255 for the
      start of a terminator, then `255 240` for an escaped 255 and a plain
      byte: the call ends inside the block with nothing dispatched. */
  lemma UnescapedFrameIsMisread(peer: Conn, term: Option<seq<byte>>, peerLink: Transport)
    requires peer.state == Data
    ensures ProcessCommands(peer, term, peerLink, [255, 250, 31, 0, 255, 0, 24, 255, 240]) ==
            Processed(peer.(state := InSB), [], peerLink, None)
  {
    var s := Settings(peer.options, peer.winSize, term);
    var head: seq<byte> := [IAC, SB, 31, 0];
    var tail: seq<byte> := [255, 0, 24, 255, 240];
    assert Escape([31, 0]) == [31, 0] by {
      EscapeWithoutIAC([31, 0]);
    }
    assert [IAC, SB] + Escape([31, 0]) == head;
    BlockOpens(s, peerLink, [31, 0]);
    ProcessAppend(s, Run(Data, [], [], peerLink), head, tail);
    InsideBlockTail(s, Run(InSB, head, [], peerLink));
    assert head + tail == [255, 250, 31, 0, 255, 0, 24, 255, 240];
  }

  /** The tail `255 0 24 255 240` of that frame, read inside the block. */
  lemma InsideBlockTail(s: Settings, r4: Run)
    requires r4.state == InSB
    ensures Process(s, r4, [255, 0, 24, 255, 240]) == Next(r4.(cmd := r4.cmd + [255, 0, 24, 255, 240]))
  {
    var r5 := r4.(state := EscIAC, cmd := r4.cmd + [255]);
    var r7 := r5.(cmd := r5.cmd + [0, 24]);
    var r8 := r7.(state := InSB, cmd := r7.cmd + [255]);
    calc {
      Process(s, r4, [255, 0, 24, 255, 240]);
      { assert [255, 0, 24, 255, 240] == [255] + ([0, 24] + [255, 240]);
        ProcessCons(s, r4, 255, [0, 24] + [255, 240]);
        assert Step(s, r4, 255) == Next(r5); }
      Process(s, r5, [0, 24] + [255, 240]);
      { ProcessAppend(s, r5, [0, 24], [255, 240]);
        EscapeWaitsForSE(s, r5, [0, 24]); }
      Process(s, r7, [255] + [240]);
      { ProcessCons(s, r7, 255, [240]);
        assert Step(s, r7, 255) == Next(r8); }
      Process(s, r8, [240] + []);
      { ProcessCons(s, r8, 240, []);
        assert Step(s, r8, 240) == Next(r8.(cmd := r8.cmd + [240])); }
      Next(r8.(cmd := r8.cmd + [240]));
      { assert r8.cmd + [240] == r4.cmd + [255, 0, 24, 255, 240]; }
      Next(r4.(cmd := r4.cmd + [255, 0, 24, 255, 240]));
    }
  }

  /** Once a size is set, the peer's `IAC DO NAWS` is accepted with
      `IAC WILL NAWS` and answered with the very frame the resize already
      reported. */
  lemma WindowSizeNegotiation(c: Conn, term: Option<seq<byte>>, link: Transport, width: int, height: int)
    requires c.state == Data && !link.broken
    requires NegotiateAboutWindowSize in c.options
    requires c.options[NegotiateAboutWindowSize].weWill
    requires c.options[NegotiateAboutWindowSize].doHandler == Some(WindowSizeHandler)
    ensures var resized := SetWindowSize(c, link, width, height);
            var frame := SBFrame(NegotiateAboutWindowSize, NONE, resized.conn.winSize);
            resized.link.sent == link.sent + [frame] &&
            ProcessCommands(resized.conn, term, resized.link, [IAC, DO, NegotiateAboutWindowSize]) ==
            Processed(resized.conn, [], Transport(link.sent + [frame, [IAC, WILL, NegotiateAboutWindowSize], frame], false), None)
  {
    var resized := SetWindowSize(c, link, width, height);
    var frame := SBFrame(NegotiateAboutWindowSize, NONE, resized.conn.winSize);
    assert frame == [IAC, SB, NegotiateAboutWindowSize] + resized.conn.winSize + [IAC, SE];
    DoWindowSizeInStream(resized.conn, term, resized.link);
    assert link.sent + [frame] + [[IAC, WILL, NegotiateAboutWindowSize], frame]
        == link.sent + [frame, [IAC, WILL, NegotiateAboutWindowSize], frame];
  }

  /** The default table answers DO ECHO with WONT and WILL ECHO with DO. */
  lemma DefaultTableAnswersEcho(term: Option<seq<byte>>, link: Transport)
    requires !link.broken
    ensures ProcessCommands(Connect(), term, link, [IAC, DO, Echo]).link.sent == link.sent + [[255, 252, 1]]
    ensures ProcessCommands(Connect(), term, link, [IAC, WILL, Echo]).link.sent == link.sent + [[255, 253, 1]]
  {
    DoInStream(Connect(), term, link, Echo);
    WillInStream(Connect(), term, link, Echo);
  }

  /** The default table answers DO SUPPRESS-GO-AHEAD with WILL. */
  lemma DefaultTableAcceptsSuppressGoAhead(term: Option<seq<byte>>, link: Transport)
    requires !link.broken
    ensures ProcessCommands(Connect(), term, link, [IAC, DO, SuppressGoAhead]).link.sent == link.sent + [[255, 251, 3]]
  {
    DoInStream(Connect(), term, link, SuppressGoAhead);
  }

  /** The default table answers DO for any option outside it with WONT, and
      WILL with DONT. */
  lemma DefaultTableDeclinesUnlisted(term: Option<seq<byte>>, link: Transport, x: byte)
    requires !link.broken && ClosesCommand(x)
    requires x !in {BinaryTransmission, Echo, SuppressGoAhead, Status,
                    TerminalType, NegotiateAboutWindowSize, TerminalSpeed, RemoteFlowControl}
    ensures ProcessCommands(Connect(), term, link, [IAC, DO, x]).link.sent == link.sent + [[IAC, WONT, x]]
    ensures ProcessCommands(Connect(), term, link, [IAC, WILL, x]).link.sent == link.sent + [[IAC, DONT, x]]
  {
    var c := Connect();
    assert x !in c.options;
    DoInStream(c, term, link, x);
    WillInStream(c, term, link, x);
  }

  /** A fresh connection receiving "Hello telnet" delivers those twelve
      bytes and writes nothing. */
  lemma HelloTelnet(term: Option<seq<byte>>, link: Transport)
    ensures var hello: seq<byte> := [72, 101, 108, 108, 111, 32, 116, 101, 108, 110, 101, 116];
            ProcessCommands(Connect(), term, link, hello) == Processed(Connect(), hello, link, None)
  {
    var hello: seq<byte> := [72, 101, 108, 108, 111, 32, 116, 101, 108, 110, 101, 116];
    PlainDataPassesThrough(Connect(), term, link, hello);
  }
}
