/** The stream demultiplexer: a byte-at-a-time state machine that splits one
    input chunk into plain output bytes and complete command buffers, and hands
    each complete buffer to the negotiation engine as soon as it is closed.
    The command buffer lives only for one call: each call starts it empty. */
module Demux {
  import opened TelnetBase
  import opened Connection
  import opened Negotiation

  /** What the machine consults but never changes within one call. */
  datatype Settings = Settings(options: OptionTable, winSize: seq<byte>, term: Option<seq<byte>>)

  /** The machine's working state: stream state, pending command buffer,
      plain output so far, and the transport's write log. */
  datatype Run = Run(state: StreamState, cmd: seq<byte>, out: seq<byte>, link: Transport)

  /** Either the scan goes on, or it stopped with an error (what was already
      output or written stays). */
  datatype Stepped = Next(run: Run) | Stop(run: Run, error: Error)

  /** Hands the closed command buffer to the negotiation engine, which sees the
      connection in the state it has at that moment; on success the buffer is
      emptied and the stream returns to plain data, on failure the state is left
      as it was. */
  function Dispatch(s: Settings, run: Run): (r: Stepped)
    ensures run.link.ExtendedBy(r.run.link)
    ensures r.Next? ==> r.run == run.(state := Data, cmd := [], link := r.run.link)
    ensures r.Stop? ==> r.run == run.(link := r.run.link)
    ensures |run.cmd| < 3 ==> r == Stop(run, Malformed)
    ensures r.Stop? && r.error == ConnectionNotReady ==> run.state == NotReady
    ensures r.Stop? && r.error == WriteFailed ==> run.link.broken
  {
    var sent := NegotiateOption(Conn(run.state, s.options, s.winSize), s.term, run.link, run.cmd);
    match sent.outcome
    case Fail(e) => Stop(run.(link := sent.link), e)
    case Pass => Next(run.(state := Data, cmd := [], link := sent.link))
  }

  /** One byte of input. A byte reaches the output exactly when it is plain
      data or the second half of a doubled 255; the negotiation engine (and
      so the transport) is reached only when a byte closes a command or
      follows the `IAC` that ends a block; NotReady is neither entered nor
      left, and in it every byte is refused. */
  function Step(s: Settings, run: Run, b: byte): (r: Stepped)
    ensures r.run.state == NotReady <==> run.state == NotReady
    ensures run.state == NotReady ==> r == Stop(run, ConnectionNotReady)
    ensures r.run.out == (if (run.state == Data && b != IAC) || (run.state == InIAC && b == IAC)
                          then run.out + [b] else run.out)
    ensures run.link.ExtendedBy(r.run.link)
    ensures r.run.link != run.link ==>
              (run.state == InIAC && ClosesCommand(b)) || (run.state == EscIAC && b == SE)
    ensures r.Stop? && r.error == ConnectionNotReady ==> run.state == NotReady
    ensures r.Stop? && r.error == WriteFailed ==> run.link.broken
  {
    match run.state
    case NotReady => Stop(run, ConnectionNotReady)
    case Data =>
      if b == IAC then Next(run.(state := InIAC, cmd := run.cmd + [b]))
      else Next(run.(out := run.out + [b]))
    case InIAC =>
      var cmd := run.cmd + [b];
      if IsVerb(b) then Next(run.(cmd := cmd))
      // an escaped 255: output once, and the buffer is kept as it is
      else if b == IAC then Next(run.(state := Data, cmd := cmd, out := run.out + [b]))
      else if b == SB then Next(run.(state := InSB, cmd := cmd))
      else Dispatch(s, run.(cmd := cmd))
    case InSB =>
      Next(run.(state := if b == IAC then EscIAC else InSB, cmd := run.cmd + [b]))
    case EscIAC =>
      var cmd := run.cmd + [b];
      if b == IAC then Next(run.(state := InSB, cmd := cmd))
      else if b == SE then Dispatch(s, run.(cmd := cmd))
      // any other byte leaves the machine waiting for SE
      else Next(run.(cmd := cmd))
  }

  /** The machine folded over an input, stopping at the first error. */
  function Process(s: Settings, run: Run, input: seq<byte>): (r: Stepped)
    ensures r.run.state == NotReady <==> run.state == NotReady
    ensures run.out <= r.run.out
    ensures run.link.ExtendedBy(r.run.link)
    ensures r.Stop? && r.error == ConnectionNotReady ==> run.state == NotReady
    ensures r.Stop? && r.error == WriteFailed ==> run.link.broken
    decreases |input|
  {
    if |input| == 0 then Next(run)
    else
      match Step(s, run, input[0])
      case Stop(stopped, e) => Stop(stopped, e)
      case Next(next) => Process(s, next, input[1..])
  }

  /** Continues a scan over more input, unless it already stopped. */
  function Resume(s: Settings, p: Stepped, input: seq<byte>): (r: Stepped) {
    match p
    case Stop(_, _) => p
    case Next(run) => Process(s, run, input)
  }

  /** What one call leaves behind: the connection (only its state can have
      changed), the plain output, the transport, and the error if any. */
  datatype Processed = Processed(conn: Conn, out: seq<byte>, link: Transport, error: Option<Error>)

  /** Processes one input chunk, starting with an empty command buffer. */
  function ProcessCommands(c: Conn, term: Option<seq<byte>>, link: Transport, input: seq<byte>): (r: Processed)
    ensures r.conn.options == c.options && r.conn.winSize == c.winSize
    // the not-ready guard
    ensures c.state == NotReady && |input| > 0 ==>
              r == Processed(c, [], link, Some(ConnectionNotReady))
    ensures |input| == 0 ==> r == Processed(c, [], link, None)
    ensures c.state != NotReady ==> r.conn.state != NotReady && r.error != Some(ConnectionNotReady)
    // writes only append, and only a broken transport makes one fail
    ensures link.ExtendedBy(r.link)
    ensures r.error == Some(WriteFailed) ==> link.broken
  {
    var p := Process(Settings(c.options, c.winSize, term), Run(c.state, [], [], link), input);
    Processed(c.(state := p.run.state), p.run.out, p.run.link,
              match p case Stop(_, e) => Some(e) case Next(_) => None)
  }

  /** Scanning a concatenation is scanning the first part and then resuming
      on the second. */
  lemma {:induction false} ProcessAppend(s: Settings, run: Run, a: seq<byte>, b: seq<byte>)
    ensures Process(s, run, a + b) == Resume(s, Process(s, run, a), b)
    decreases |a|
  {
    if |a| == 0 {
      assert a + b == b;
    } else {
      assert (a + b)[0] == a[0];
      assert (a + b)[1..] == a[1..] + b;
      match Step(s, run, a[0])
      case Stop(_, _) =>
      case Next(next) => ProcessAppend(s, next, a[1..], b);
    }
  }

  /** The IAC-doubling of section "TELNET COMMAND STRUCTURE" of RFC 854: the
      form in which a literal 255 travels in the data stream. */
  function Escape(d: seq<byte>): (r: seq<byte>)
    decreases |d|
  {
    if |d| == 0 then []
    else (if d[0] == IAC then [IAC, IAC] else [d[0]]) + Escape(d[1..])
  }

  /** Data with no 255 needs no escaping. */
  lemma {:induction false} EscapeWithoutIAC(d: seq<byte>)
    requires NoIAC(d)
    ensures Escape(d) == d
    decreases |d|
  {
    if |d| > 0 {
      assert NoIAC(d[1..]) by {
        forall i | 0 <= i < |d[1..]| ensures d[1..][i] != IAC {
          assert d[1..][i] == d[i + 1];
        }
      }
      EscapeWithoutIAC(d[1..]);
      assert [d[0]] + d[1..] == d;
    }
  }

  /** Scanning a non-empty input is one step and then the rest. */
  lemma ProcessCons(s: Settings, run: Run, b: byte, rest: seq<byte>)
    ensures Process(s, run, [b] + rest) == Resume(s, Step(s, run, b), rest)
  {
    assert ([b] + rest)[0] == b;
    assert ([b] + rest)[1..] == rest;
  }

  /** In the data state a doubled 255 outputs one 255 and returns to Data,
      keeping both bytes in the command buffer. */
  lemma EscapedIACStep(s: Settings, run: Run, rest: seq<byte>)
    requires run.state == Data
    ensures Process(s, run, [IAC, IAC] + rest) ==
            Process(s, run.(cmd := run.cmd + [IAC, IAC], out := run.out + [IAC]), rest)
  {
    var r1 := run.(state := InIAC, cmd := run.cmd + [IAC]);
    assert [IAC, IAC] + rest == [IAC] + ([IAC] + rest);
    ProcessCons(s, run, IAC, [IAC] + rest);
    ProcessCons(s, r1, IAC, rest);
    assert r1.cmd + [IAC] == run.cmd + [IAC, IAC];
  }

  /** In the data state any other byte goes to the output. */
  lemma PlainByteStep(s: Settings, run: Run, b: byte, rest: seq<byte>)
    requires run.state == Data && b != IAC
    ensures Process(s, run, [b] + rest) == Process(s, run.(out := run.out + [b]), rest)
  {
    ProcessCons(s, run, b, rest);
  }

  /** Escaped data is decoded exactly: in the data state every byte of `d`
      reaches the output once, in order, the state stays Data, nothing is
      written and nothing fails (the command buffer may grow). */
  lemma {:induction false} EscapedDataDecodes(s: Settings, run: Run, d: seq<byte>)
    requires run.state == Data
    ensures var r := Process(s, run, Escape(d));
            r.Next? && r.run.state == Data && r.run.out == run.out + d && r.run.link == run.link
    decreases |d|
  {
    if |d| == 0 {
      assert run.out + d == run.out;
    } else {
      var rest := Escape(d[1..]);
      var next := if d[0] == IAC then run.(cmd := run.cmd + [IAC, IAC], out := run.out + [IAC])
                  else run.(out := run.out + [d[0]]);
      assert Process(s, run, Escape(d)) == Process(s, next, rest) by {
        if d[0] == IAC {
          assert Escape(d) == [IAC, IAC] + rest;
          EscapedIACStep(s, run, rest);
        } else {
          assert Escape(d) == [d[0]] + rest;
          PlainByteStep(s, run, d[0], rest);
        }
      }
      EscapedDataDecodes(s, next, d[1..]);
      assert next.out + d[1..] == run.out + d;
    }
  }

  /** Data with no 255 passes through one call unchanged: same output,
      state still Data, no write, no error. */
  lemma PlainDataPassesThrough(c: Conn, term: Option<seq<byte>>, link: Transport, d: seq<byte>)
    requires c.state == Data && NoIAC(d)
    ensures ProcessCommands(c, term, link, d) == Processed(c, d, link, None)
  {
    EscapeWithoutIAC(d);
    EscapedDataDecodes(Settings(c.options, c.winSize, term), Run(Data, [], [], link), d);
  }

  /** A doubled 255 in the data stream decodes to a single 255. */
  lemma EscapedIACExample(c: Conn, term: Option<seq<byte>>, link: Transport)
    requires c.state == Data
    ensures ProcessCommands(c, term, link, [72, 255, 255, 116, 101, 108]) ==
            Processed(c, [72, 255, 116, 101, 108], link, None)
  {
  }

  /** A byte that, right after `IAC` or `IAC verb`, closes a command. */
  predicate ClosesCommand(x: byte) {
    !IsVerb(x) && x != IAC && x != SB
  }

  /** The call's result once the buffer handed over at `state` came back
      from the negotiation engine as `sent`, with nothing output. */
  function AfterDispatch(c: Conn, state: StreamState, sent: Sent): (r: Processed) {
    match sent.outcome
    case Pass => Processed(c.(state := Data), [], sent.link, None)
    case Fail(e) => Processed(c.(state := state), [], sent.link, Some(e))
  }

  /** `IAC verb x` in the data stream reaches the negotiation engine as
      exactly that three-byte buffer, and afterwards the stream is back in
      Data (or, on error, still in InIAC). */
  lemma NegotiationCommandDispatched(c: Conn, term: Option<seq<byte>>, link: Transport, v: byte, x: byte)
    requires c.state == Data && IsVerb(v) && ClosesCommand(x)
    ensures ProcessCommands(c, term, link, [IAC, v, x]) ==
            AfterDispatch(c, InIAC, NegotiateOption(c.(state := InIAC), term, link, [IAC, v, x]))
  {
    var s := Settings(c.options, c.winSize, term);
    var r0 := Run(Data, [], [], link);
    var r1 := Run(InIAC, [IAC], [], link);
    var r2 := Run(InIAC, [IAC, v], [], link);
    assert [IAC, v, x] == [IAC] + ([v] + ([x] + []));
    ProcessCons(s, r0, IAC, [v, x]);
    ProcessCons(s, r1, v, [x]);
    ProcessCons(s, r2, x, []);
    assert Step(s, r0, IAC) == Next(r1);
    assert Step(s, r1, v) == Next(r2);
    assert [IAC, v] + [x] == [IAC, v, x];
    var r3 := Run(InIAC, [IAC, v, x], [], link);
    assert Step(s, r2, x) == Dispatch(s, r3);
    assert Conn(InIAC, c.options, c.winSize) == c.(state := InIAC);
    var d := Dispatch(s, r3);
    assert Resume(s, d, []) == d;
    assert Process(s, r0, [IAC, v, x]) == d;
  }

  /** Peer's `IAC DO x` in the stream: one write, `IAC WILL x` when x is
      configured with weWill and `IAC WONT x` otherwise, and nothing more
      when x has no post-DO handler. */
  lemma DoInStream(c: Conn, term: Option<seq<byte>>, link: Transport, x: byte)
    requires c.state == Data && ClosesCommand(x) && !link.broken
    requires x !in c.options || c.options[x].doHandler.None?
    ensures var agree := x in c.options && c.options[x].weWill;
            ProcessCommands(c, term, link, [IAC, DO, x]) ==
            Processed(c, [], Transport(link.sent + [[IAC, if agree then WILL else WONT, x]], false), None)
  {
    NegotiationCommandDispatched(c, term, link, DO, x);
    if x in c.options {
      DoConfiguredReplies(c.(state := InIAC), term, link, x);
    } else {
      DoUnconfiguredDeclines(c.(state := InIAC), term, link, x);
    }
  }

  /** Peer's `IAC DO NAWS` with the NAWS post-DO handler: `IAC WILL NAWS` (or
      WONT) is written first, then the stored window size. */
  lemma DoWindowSizeInStream(c: Conn, term: Option<seq<byte>>, link: Transport)
    requires c.state == Data && !link.broken
    requires NegotiateAboutWindowSize in c.options
    requires c.options[NegotiateAboutWindowSize].doHandler == Some(WindowSizeHandler)
    ensures var v := if c.options[NegotiateAboutWindowSize].weWill then WILL else WONT;
            ProcessCommands(c, term, link, [IAC, DO, NegotiateAboutWindowSize]) ==
            Processed(c, [], Transport(link.sent + [[IAC, v, NegotiateAboutWindowSize],
                                                    SBFrame(NegotiateAboutWindowSize, NONE, c.winSize)], false), None)
  {
    NegotiationCommandDispatched(c, term, link, DO, NegotiateAboutWindowSize);
    DoConfiguredReplies(c.(state := InIAC), term, link, NegotiateAboutWindowSize);
  }

  /** Peer's `IAC WILL x` in the stream: exactly one write, `IAC DO x` when x
      is configured with peerDo, `IAC DONT x` otherwise. */
  lemma WillInStream(c: Conn, term: Option<seq<byte>>, link: Transport, x: byte)
    requires c.state == Data && ClosesCommand(x) && !link.broken
    ensures var agree := x in c.options && c.options[x].peerDo;
            ProcessCommands(c, term, link, [IAC, WILL, x]) ==
            Processed(c, [], Transport(link.sent + [[IAC, if agree then DO else DONT, x]], false), None)
  {
    NegotiationCommandDispatched(c, term, link, WILL, x);
    WillReplies(c.(state := InIAC), term, link, x);
  }

  /** Peer's `IAC WONT x` and `IAC DONT x` are consumed without any write. */
  lemma WontDontInStream(c: Conn, term: Option<seq<byte>>, link: Transport, v: byte, x: byte)
    requires c.state == Data && (v == WONT || v == DONT) && ClosesCommand(x)
    ensures ProcessCommands(c, term, link, [IAC, v, x]) == Processed(c, [], link, None)
  {
    NegotiationCommandDispatched(c, term, link, v, x);
    WontDontIgnored(c.(state := InIAC), term, link, v, x);
  }

  /** A write that fails aborts the rest of the chunk: the output already
      produced is kept, the stream stays in InIAC, and the bytes after the
      command are not consumed. */
  lemma AbortKeepsOutput(c: Conn, term: Option<seq<byte>>, link: Transport, d: byte, x: byte, rest: seq<byte>)
    requires c.state == Data && link.broken && d != IAC && ClosesCommand(x) && x in c.options
    ensures ProcessCommands(c, term, link, [d, IAC, WILL, x] + rest) ==
            Processed(c.(state := InIAC), [d], link, Some(WriteFailed))
  {
    var s := Settings(c.options, c.winSize, term);
    var r0 := Run(Data, [], [], link);
    var r1 := Run(Data, [], [d], link);
    var r2 := Run(InIAC, [IAC], [d], link);
    var r3 := Run(InIAC, [IAC, WILL], [d], link);
    var r4 := Run(InIAC, [IAC, WILL, x], [d], link);
    calc {
      Process(s, r0, [d, IAC, WILL, x] + rest);
      { assert [d, IAC, WILL, x] + rest == [d] + ([IAC, WILL, x] + rest);
        ProcessCons(s, r0, d, [IAC, WILL, x] + rest);
        assert Step(s, r0, d) == Next(r1); }
      Process(s, r1, [IAC, WILL, x] + rest);
      { assert [IAC, WILL, x] + rest == [IAC] + ([WILL, x] + rest);
        ProcessCons(s, r1, IAC, [WILL, x] + rest);
        assert Step(s, r1, IAC) == Next(r2); }
      Process(s, r2, [WILL, x] + rest);
      { assert [WILL, x] + rest == [WILL] + ([x] + rest);
        ProcessCons(s, r2, WILL, [x] + rest);
        assert Step(s, r2, WILL) == Next(r3); }
      Process(s, r3, [x] + rest);
      { ProcessCons(s, r3, x, rest);
        assert [IAC, WILL] + [x] == [IAC, WILL, x];
        assert Step(s, r3, x) == Dispatch(s, r4); }
      Resume(s, Dispatch(s, r4), rest);
      { assert NegotiateOption(Conn(InIAC, c.options, c.winSize), term, link, [IAC, WILL, x])
            == Sent(link, Fail(WriteFailed)); }
      Stop(r4, WriteFailed);
    }
  }

  /** Inside a sub-negotiation a doubled 255 stays in the block: both bytes
      are buffered and the machine is back in InSB. */
  lemma EscapedIACInBlock(s: Settings, run: Run, rest: seq<byte>)
    requires run.state == InSB
    ensures Process(s, run, [IAC, IAC] + rest) ==
            Process(s, run.(cmd := run.cmd + [IAC, IAC]), rest)
  {
    var r1 := run.(state := EscIAC, cmd := run.cmd + [IAC]);
    assert [IAC, IAC] + rest == [IAC] + ([IAC] + rest);
    ProcessCons(s, run, IAC, [IAC] + rest);
    ProcessCons(s, r1, IAC, rest);
    assert r1.cmd + [IAC] == run.cmd + [IAC, IAC];
  }

  /** Inside a sub-negotiation any other byte is buffered. */
  lemma PlainByteInBlock(s: Settings, run: Run, b: byte, rest: seq<byte>)
    requires run.state == InSB && b != IAC
    ensures Process(s, run, [b] + rest) == Process(s, run.(cmd := run.cmd + [b]), rest)
  {
    ProcessCons(s, run, b, rest);
  }

  /** An escaped payload inside a sub-negotiation is buffered verbatim (with
      its doubled 255s) and never closes the block. */
  lemma {:induction false} EscapedPayloadBuffered(s: Settings, run: Run, p: seq<byte>)
    requires run.state == InSB
    ensures var r := Process(s, run, Escape(p));
            r.Next? && r.run == run.(cmd := run.cmd + Escape(p))
    decreases |p|
  {
    if |p| == 0 {
      assert run.cmd + Escape(p) == run.cmd;
    } else {
      var next := PayloadHeadBuffered(s, run, p);
      EscapedPayloadBuffered(s, next, p[1..]);
    }
  }

  /** The first byte of an escaped payload (two bytes if it is 255). */
  lemma PayloadHeadBuffered(s: Settings, run: Run, p: seq<byte>) returns (next: Run)
    requires run.state == InSB && |p| > 0
    ensures next.state == InSB && next.out == run.out && next.link == run.link
    ensures next.cmd + Escape(p[1..]) == run.cmd + Escape(p)
    ensures Process(s, run, Escape(p)) == Process(s, next, Escape(p[1..]))
  {
    var head := if p[0] == IAC then [IAC, IAC] else [p[0]];
    next := run.(cmd := run.cmd + head);
    assert Escape(p) == head + Escape(p[1..]);
    assert next.cmd + Escape(p[1..]) == run.cmd + Escape(p);
    if p[0] == IAC {
      EscapedIACInBlock(s, run, Escape(p[1..]));
    } else {
      PlainByteInBlock(s, run, p[0], Escape(p[1..]));
    }
  }

  /** The buffer handed over for a sub-negotiation block whose content is `p`. */
  function SBBlock(p: seq<byte>): (r: seq<byte>) {
    [IAC, SB] + Escape(p) + [IAC, SE]
  }

  /** `IAC SB p IAC SE` opens a block, buffers it, and hands the whole buffer
      (prefix and terminator included) to the negotiation engine at SE; only
      then does the stream return to Data. */
  lemma SubnegotiationDispatched(c: Conn, term: Option<seq<byte>>, link: Transport, p: seq<byte>)
    requires c.state == Data
    ensures ProcessCommands(c, term, link, SBBlock(p)) ==
            AfterDispatch(c, EscIAC, NegotiateOption(c.(state := EscIAC), term, link, SBBlock(p)))
  {
    var s := Settings(c.options, c.winSize, term);
    var r0 := Run(Data, [], [], link);
    var r1 := Run(InIAC, [IAC], [], link);
    var r2 := Run(InSB, [IAC, SB], [], link);
    var r3 := Run(InSB, [IAC, SB] + Escape(p), [], link);
    var r4 := Run(EscIAC, [IAC, SB] + Escape(p) + [IAC], [], link);
    var r5 := Run(EscIAC, SBBlock(p), [], link);
    var d := Dispatch(s, r5);
    calc {
      Process(s, r0, SBBlock(p));
      { assert SBBlock(p) == [IAC] + ([SB] + (Escape(p) + [IAC, SE]));
        ProcessCons(s, r0, IAC, [SB] + (Escape(p) + [IAC, SE]));
        assert Step(s, r0, IAC) == Next(r1); }
      Process(s, r1, [SB] + (Escape(p) + [IAC, SE]));
      { ProcessCons(s, r1, SB, Escape(p) + [IAC, SE]);
        assert Step(s, r1, SB) == Next(r2); }
      Process(s, r2, Escape(p) + [IAC, SE]);
      { ProcessAppend(s, r2, Escape(p), [IAC, SE]);
        EscapedPayloadBuffered(s, r2, p); }
      Process(s, r3, [IAC] + [SE]);
      { ProcessCons(s, r3, IAC, [SE]);
        assert Step(s, r3, IAC) == Next(r4); }
      Process(s, r4, [SE]);
      { assert [SE] == [SE] + [];
        ProcessCons(s, r4, SE, []);
        assert r4.cmd + [SE] == SBBlock(p);
        assert Step(s, r4, SE) == d; }
      Resume(s, d, []);
    }
    assert Resume(s, d, []) == d;
    assert Conn(EscIAC, c.options, c.winSize) == c.(state := EscIAC);
  }

  /** `IAC SB` opens a block into which an escaped payload is buffered. */
  lemma BlockOpens(s: Settings, link: Transport, p: seq<byte>)
    ensures Process(s, Run(Data, [], [], link), [IAC, SB] + Escape(p)) ==
            Next(Run(InSB, [IAC, SB] + Escape(p), [], link))
  {
    var r0 := Run(Data, [], [], link);
    var r1 := Run(InIAC, [IAC], [], link);
    var r2 := Run(InSB, [IAC, SB], [], link);
    calc {
      Process(s, r0, [IAC, SB] + Escape(p));
      { assert [IAC, SB] + Escape(p) == [IAC] + ([SB] + Escape(p));
        ProcessCons(s, r0, IAC, [SB] + Escape(p));
        assert Step(s, r0, IAC) == Next(r1); }
      Process(s, r1, [SB] + Escape(p));
      { ProcessCons(s, r1, SB, Escape(p));
        assert Step(s, r1, SB) == Next(r2); }
      Process(s, r2, Escape(p));
      { EscapedPayloadBuffered(s, r2, p); }
      Next(r2.(cmd := r2.cmd + Escape(p)));
    }
  }

  /** Without the closing `IAC SE` nothing is dispatched: the call ends in
      InSB with no output and no write. */
  lemma UnterminatedSubnegotiation(c: Conn, term: Option<seq<byte>>, link: Transport, p: seq<byte>)
    requires c.state == Data
    ensures ProcessCommands(c, term, link, [IAC, SB] + Escape(p)) ==
            Processed(c.(state := InSB), [], link, None)
  {
    BlockOpens(Settings(c.options, c.winSize, term), link, p);
  }

  /** A block for an option that is not configured, or has no
      sub-negotiation handler, is consumed silently. */
  lemma UnhandledSubnegotiationIgnored(c: Conn, term: Option<seq<byte>>, link: Transport, p: seq<byte>)
    requires c.state == Data && |p| > 0
    requires p[0] !in c.options || c.options[p[0]].sbHandler.None?
    ensures ProcessCommands(c, term, link, SBBlock(p)) == Processed(c, [], link, None)
  {
    SubnegotiationDispatched(c, term, link, p);
    assert SBBlock(p)[2] == p[0];
  }

  /** After Close, whatever the earlier state, any non-empty input is refused
      with the not-ready error before a byte is consumed. */
  lemma ClosedConnectionRefusesInput(c: Conn, term: Option<seq<byte>>, link: Transport, input: seq<byte>)
    requires |input| > 0
    ensures ProcessCommands(Close(c), term, link, input) ==
            Processed(Close(c), [], link, Some(ConnectionNotReady))
  {
  }

  /** The escaped 255 leaves `IAC IAC` in the command buffer, so a following
      `IAC DO x` in the same call is handed over as `IAC IAC IAC DO x`, whose
      verb position holds 255: it is dropped with no reply. */
  lemma StaleBufferSwallowsNegotiation(c: Conn, term: Option<seq<byte>>, link: Transport, x: byte)
    requires c.state == Data && ClosesCommand(x)
    ensures ProcessCommands(c, term, link, [IAC, IAC, IAC, DO, x]) == Processed(c, [IAC], link, None)
  {
    var s := Settings(c.options, c.winSize, term);
    var r0 := Run(Data, [], [], link);
    var r2 := Run(Data, [IAC, IAC], [IAC], link);
    var r3 := Run(InIAC, [IAC, IAC, IAC], [IAC], link);
    var r4 := Run(InIAC, [IAC, IAC, IAC, DO], [IAC], link);
    var r5 := Run(InIAC, [IAC, IAC, IAC, DO, x], [IAC], link);
    var done := Next(Run(Data, [], [IAC], link));
    calc {
      Process(s, r0, [IAC, IAC, IAC, DO, x]);
      { assert [IAC, IAC, IAC, DO, x] == [IAC, IAC] + [IAC, DO, x];
        EscapedIACStep(s, r0, [IAC, DO, x]);
        assert r0.cmd + [IAC, IAC] == [IAC, IAC] && r0.out + [IAC] == [IAC];
        assert r0.(cmd := r0.cmd + [IAC, IAC], out := r0.out + [IAC]) == r2; }
      Process(s, r2, [IAC, DO, x]);
      { assert [IAC, DO, x] == [IAC] + [DO, x];
        ProcessCons(s, r2, IAC, [DO, x]);
        assert Step(s, r2, IAC) == Next(r3); }
      Process(s, r3, [DO, x]);
      { assert [DO, x] == [DO] + [x];
        ProcessCons(s, r3, DO, [x]);
        assert Step(s, r3, DO) == Next(r4); }
      Process(s, r4, [x]);
      { assert [x] == [x] + [];
        ProcessCons(s, r4, x, []);
        assert Step(s, r4, x) == Dispatch(s, r5);
        assert NegotiateOption(Conn(InIAC, c.options, c.winSize), term, link, r5.cmd) == Sent(link, Pass);
        assert Dispatch(s, r5) == done; }
      Resume(s, done, []);
    }
  }

  /** A verb followed by 255 is read as an escaped 255: the 255 goes to the
      output, the stream is back in Data and nothing is dispatched. */
  lemma VerbThenIACIsData(c: Conn, term: Option<seq<byte>>, link: Transport, v: byte)
    requires c.state == Data && IsVerb(v)
    ensures ProcessCommands(c, term, link, [IAC, v, IAC]) == Processed(c, [IAC], link, None)
  {
    var s := Settings(c.options, c.winSize, term);
    var r0 := Run(Data, [], [], link);
    var r1 := Run(InIAC, [IAC], [], link);
    var r2 := Run(InIAC, [IAC, v], [], link);
    assert [IAC, v, IAC] == [IAC] + ([v] + ([IAC] + []));
    ProcessCons(s, r0, IAC, [v, IAC]);
    assert Step(s, r0, IAC) == Next(r1);
    ProcessCons(s, r1, v, [IAC]);
    assert Step(s, r1, v) == Next(r2);
    ProcessCons(s, r2, IAC, []);
    assert Step(s, r2, IAC) == Next(Run(Data, [IAC, v, IAC], [IAC], link));
  }

  /** `IAC x` with x neither a verb, SB nor 255 hands over a two-byte buffer,
      too short to hold an option code: the call aborts, still in InIAC. */
  lemma ShortCommandIsMalformed(c: Conn, term: Option<seq<byte>>, link: Transport, x: byte)
    requires c.state == Data && ClosesCommand(x)
    ensures ProcessCommands(c, term, link, [IAC, x]) ==
            Processed(c.(state := InIAC), [], link, Some(Malformed))
  {
    var s := Settings(c.options, c.winSize, term);
    var r0 := Run(Data, [], [], link);
    var r1 := Run(InIAC, [IAC], [], link);
    assert [IAC, x] == [IAC] + ([x] + []);
    ProcessCons(s, r0, IAC, [x]);
    assert Step(s, r0, IAC) == Next(r1);
    ProcessCons(s, r1, x, []);
    assert Step(s, r1, x) == Stop(Run(InIAC, [IAC, x], [], link), Malformed);
  }

  /** A command split across two calls: the first call ends in InIAC, but
      the second starts with an empty buffer, so the option byte alone is
      handed over and the call aborts. */
  lemma SplitCommandIsMalformed(c: Conn, term: Option<seq<byte>>, link: Transport, v: byte, x: byte)
    requires c.state == Data && IsVerb(v) && ClosesCommand(x)
    ensures var first := ProcessCommands(c, term, link, [IAC, v]);
            first == Processed(c.(state := InIAC), [], link, None) &&
            ProcessCommands(first.conn, term, link, [x]) ==
            Processed(c.(state := InIAC), [], link, Some(Malformed))
  {
    var s := Settings(c.options, c.winSize, term);
    var r0 := Run(Data, [], [], link);
    var r1 := Run(InIAC, [IAC], [], link);
    assert [IAC, v] == [IAC] + ([v] + []);
    ProcessCons(s, r0, IAC, [v]);
    assert Step(s, r0, IAC) == Next(r1);
    ProcessCons(s, r1, v, []);
    assert Step(s, r1, v) == Next(Run(InIAC, [IAC, v], [], link));
    var q0 := Run(InIAC, [], [], link);
    assert [x] == [x] + [];
    ProcessCons(s, q0, x, []);
    assert Step(s, q0, x) == Stop(Run(InIAC, [x], [], link), Malformed);
  }

  /** After `IAC` inside a block, bytes other than 255 and SE keep the
      machine waiting for SE: they are buffered and nothing is dispatched. */
  lemma {:induction false} EscapeWaitsForSE(s: Settings, run: Run, d: seq<byte>)
    requires run.state == EscIAC
    requires forall i :: 0 <= i < |d| ==> d[i] != IAC && d[i] != SE
    ensures var r := Process(s, run, d);
            r.Next? && r.run == run.(cmd := run.cmd + d)
    decreases |d|
  {
    if |d| == 0 {
      assert run.cmd + d == run.cmd;
    } else {
      var next := run.(cmd := run.cmd + [d[0]]);
      assert d == [d[0]] + d[1..];
      ProcessCons(s, run, d[0], d[1..]);
      assert Step(s, run, d[0]) == Next(next);
      EscapeWaitsForSE(s, next, d[1..]);
      assert next.cmd + d[1..] == run.cmd + d;
    }
  }

  /** At the level of one call: a connection left waiting for SE stays so,
      with no output and no write, over input holding neither 255 nor SE. */
  lemma EscapeStateIsSticky(c: Conn, term: Option<seq<byte>>, link: Transport, d: seq<byte>)
    requires c.state == EscIAC
    requires forall i :: 0 <= i < |d| ==> d[i] != IAC && d[i] != SE
    ensures ProcessCommands(c, term, link, d) == Processed(c, [], link, None)
  {
    EscapeWaitsForSE(Settings(c.options, c.winSize, term), Run(EscIAC, [], [], link), d);
  }
}
