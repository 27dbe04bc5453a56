/** The connection record of a Telnet client: its demultiplexer state, its
    table of configured options and its window-size buffer, together with the
    operations that only touch that record (option registration, the default
    table installed on connect, close) and the guarded application write. */
module Connection {
  import opened TelnetBase

  /** State of the byte-level demultiplexer. */
  datatype StreamState = Data | InIAC | InSB | EscIAC | NotReady

  /** The closed set of built-in option handlers. */
  datatype Handler = TerminalTypeHandler | WindowSizeHandler | TerminalSpeedHandler

  /** Local policy for one option code: whether we perform it, whether the
      peer may perform it, and the optional sub-negotiation handler and
      post-DO handler. */
  datatype OptionConfig = OptionConfig(
    weWill: bool,
    peerDo: bool,
    sbHandler: Option<Handler>,
    doHandler: Option<Handler>)

  type OptionTable = map<byte, OptionConfig>

  /** A connection; `winSize` is empty until the window size is first set,
      and four bytes afterwards. */
  datatype Conn = Conn(state: StreamState, options: OptionTable, winSize: seq<byte>)

  /** Registers (or re-registers) the policy for one option code. */
  function AddOption(c: Conn, code: byte, weWill: bool, peerDo: bool,
                     sbHandler: Option<Handler>, doHandler: Option<Handler>): (r: Conn)
    ensures r.state == c.state && r.winSize == c.winSize
    ensures r.options.Keys == c.options.Keys + {code}
    ensures r.options[code] == OptionConfig(weWill, peerDo, sbHandler, doHandler)
    ensures forall k :: k in c.options && k != code ==> r.options[k] == c.options[k]
  {
    c.(options := c.options[code := OptionConfig(weWill, peerDo, sbHandler, doHandler)])
  }

  /** The connection as it stands once the transport is established: the
      eight built-in options are registered and the stream is ready. */
  function Connect(): (c: Conn)
    ensures c.state == Data && c.winSize == []
    ensures c.options.Keys == {BinaryTransmission, Echo, SuppressGoAhead, Status,
                               TerminalType, NegotiateAboutWindowSize, TerminalSpeed,
                               RemoteFlowControl}
    ensures c.options[BinaryTransmission] == OptionConfig(false, false, None, None)
    ensures c.options[Echo] == OptionConfig(false, true, None, None)
    ensures c.options[SuppressGoAhead] == OptionConfig(true, true, None, None)
    ensures c.options[Status] == OptionConfig(false, false, None, None)
    ensures c.options[TerminalType] == OptionConfig(true, true, Some(TerminalTypeHandler), None)
    ensures c.options[NegotiateAboutWindowSize] == OptionConfig(true, true, None, Some(WindowSizeHandler))
    ensures c.options[TerminalSpeed] == OptionConfig(true, true, Some(TerminalSpeedHandler), None)
    ensures c.options[RemoteFlowControl] == OptionConfig(false, false, None, None)
  {
    var c0 := Conn(NotReady, map[], []);
    var c1 := AddOption(c0, BinaryTransmission, false, false, None, None);
    var c2 := AddOption(c1, Echo, false, true, None, None);
    var c3 := AddOption(c2, SuppressGoAhead, true, true, None, None);
    var c4 := AddOption(c3, Status, false, false, None, None);
    var c5 := AddOption(c4, TerminalType, true, true, Some(TerminalTypeHandler), None);
    var c6 := AddOption(c5, NegotiateAboutWindowSize, true, true, None, Some(WindowSizeHandler));
    var c7 := AddOption(c6, TerminalSpeed, true, true, Some(TerminalSpeedHandler), None);
    var c8 := AddOption(c7, RemoteFlowControl, false, false, None, None);
    c8.(state := Data)
  }

  /** Closing forces the not-ready state; the table and window size stay. */
  function Close(c: Conn): (r: Conn)
    ensures r.state == NotReady
    ensures r.options == c.options && r.winSize == c.winSize
  {
    c.(state := NotReady)
  }

  /** The application-facing write: refused without a write when the
      connection is not ready, otherwise passed to the transport unescaped. */
  function Write(c: Conn, link: Transport, bytes: seq<byte>): (r: Sent)
    ensures c.state == NotReady ==> r == Sent(link, Fail(ConnectionNotReady))
    ensures c.state != NotReady && !link.broken ==>
              r.outcome == Pass && r.link.sent == link.sent + [bytes]
    ensures c.state != NotReady && link.broken ==> r == Sent(link, Fail(WriteFailed))
  {
    if c.state == NotReady then Sent(link, Fail(ConnectionNotReady))
    else link.Write(bytes)
  }

  /** Asks the peer not to echo; this write bypasses the not-ready guard. */
  function DisableRemoteEcho(link: Transport): (r: Sent)
    ensures !link.broken ==> r.outcome == Pass && r.link.sent == link.sent + [[IAC, DONT, Echo]]
    ensures link.broken ==> r == Sent(link, Fail(WriteFailed))
  {
    link.Write([IAC, DONT, Echo])
  }

  /** Re-registering an option replaces the earlier policy: the last
      registration for a code wins and no other entry is affected. */
  lemma AddOptionLastWins(c: Conn, code: byte, a: OptionConfig, b: OptionConfig)
    ensures var r := AddOption(AddOption(c, code, a.weWill, a.peerDo, a.sbHandler, a.doHandler),
                               code, b.weWill, b.peerDo, b.sbHandler, b.doHandler);
            r == AddOption(c, code, b.weWill, b.peerDo, b.sbHandler, b.doHandler)
  {
  }

  /** After Close, whatever the earlier state, every application write is
      refused with the not-ready error and nothing reaches the transport. */
  lemma ClosedConnectionRefusesWrites(c: Conn, link: Transport, bytes: seq<byte>)
    ensures Write(Close(c), link, bytes) == Sent(link, Fail(ConnectionNotReady))
  {
  }
}
