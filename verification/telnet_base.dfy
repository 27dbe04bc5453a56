/** Shared vocabulary of the Telnet client model: octets, the command codes of
    RFC 854, the option codes of the IANA Telnet option registry, the
    sub-negotiation operations, and the outbound half of the transport, which
    is modelled as an append-only log of the byte sequences written to it. */
module TelnetBase {

  /** One octet of the stream. */
  type byte = b: int | 0 <= b < 256

  // Command codes (section "TELNET COMMAND STRUCTURE" of RFC 854).
  const SE: byte := 240
  const SB: byte := 250
  const WILL: byte := 251
  const WONT: byte := 252
  const DO: byte := 253
  const DONT: byte := 254
  const IAC: byte := 255

  // Option codes.
  const BinaryTransmission: byte := 0
  const Echo: byte := 1
  const SuppressGoAhead: byte := 3
  const Status: byte := 5
  const TerminalType: byte := 24
  const NegotiateAboutWindowSize: byte := 31
  const TerminalSpeed: byte := 32
  const RemoteFlowControl: byte := 33

  // Sub-negotiation operations; NONE means "no operation byte in the frame".
  const NONE: byte := 255
  const IS: byte := 0
  const SEND: byte := 1

  /** The four negotiation verbs that are followed by an option code. */
  predicate IsVerb(b: byte) {
    b == WILL || b == WONT || b == DO || b == DONT
  }

  /** No byte of `d` is the escape byte 255. */
  predicate NoIAC(d: seq<byte>) {
    forall i :: 0 <= i < |d| ==> d[i] != IAC
  }

  /** The bytes of an ASCII string, as a byte conversion of a string yields them. */
  function Ascii(s: string): (r: seq<byte>)
    requires forall i :: 0 <= i < |s| ==> s[i] as int < 128
    ensures |r| == |s|
    ensures forall i :: 0 <= i < |s| ==> r[i] == s[i] as int
  {
    seq(|s|, i requires 0 <= i < |s| => s[i] as int)
  }

  datatype Option<+T> = None | Some(value: T)

  /** The failures the model distinguishes: the "not ready" guard, a failed
      transport write, and indexing past the end of a command buffer (a
      run-time panic in the code, an abort here). */
  datatype Error = ConnectionNotReady | WriteFailed | Malformed

  datatype Outcome = Pass | Fail(error: Error)

  /** The write side of the transport: every successful write appends one
      entry to `sent`; a broken transport refuses every write and logs
      nothing. */
  datatype Transport = Transport(sent: seq<seq<byte>>, broken: bool) {

    function Write(bytes: seq<byte>): Sent {
      if broken then Sent(this, Fail(WriteFailed))
      else Sent(Transport(sent + [bytes], false), Pass)
    }

    /** `later` is this transport after zero or more further writes. */
    predicate ExtendedBy(later: Transport) {
      later.broken == broken && sent <= later.sent
    }
  }

  /** The transport after an attempted write, with the write's outcome. */
  datatype Sent = Sent(link: Transport, outcome: Outcome)
}
