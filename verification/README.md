# Telnet client in-band signalling, modelled in Dafny

This project models the core of a small Go Telnet client library (`connection.go`). The core has two parts:

- **Stream demultiplexer.** This is `processCommands`. It is a byte-at-a-time state machine over the states Data, InIAC, InSB, EscIAC and NotReady. It splits one input chunk into two things:
  - plain output bytes;
  - complete command buffers: `IAC verb option`, or a sub-negotiation block `IAC SB … IAC SE` as in RFC 855.
  It decodes `IAC IAC` to one literal 255, following the section "TELNET COMMAND STRUCTURE" of RFC 854.
- **Option negotiation engine.** This is `negotiateOption`. It answers DO and WILL from a per-option policy table, registered through `AddOption`. It hands SB blocks to handlers. Three handlers are built in:
  - TERMINAL-TYPE (section 2 of RFC 1091);
  - NAWS (section 2 of RFC 1073), which also serves `SetWindowSize`;
  - TERMINAL-SPEED (section 2 of RFC 1079).
  Their replies are framed by `sendSB`.

The model is functional:

- The transport's write side is an append-only log, `Transport.sent: seq<seq<byte>>`. A `broken` flag stands for a transport on which every write fails.
- The demultiplexer is a pure per-byte `Step`, folded over the input by `Process`.
- `ProcessCommands` is one call: the command buffer starts empty, and the connection's state is carried out of the call.
- The `TERM` environment value is a parameter, `term: Option<seq<byte>>`.
- A Go run-time panic from indexing past the end of a command buffer becomes the error `Malformed`, which aborts the call.

Modules:

- `TelnetBase`: bytes, the command, option and operation codes, errors, and the transport log.
- `Connection`: the connection record, `AddOption`, the default table, `Close`, the guarded `Write`, and `DisableRemoteEcho`.
- `Negotiation`: `SendSB`, the three handlers, `SetWindowSize` and `NegotiateOption`.
- `Demux`: the state machine and its properties.
- `Scenarios`: end-to-end exchanges.

The model follows the code as written, including these quirks, each stated as a lemma:

- **Stale buffer after `IAC IAC`.** The buffer still holds `IAC IAC` after an escaped 255. A later `IAC DO x` in the same call is then handed over with 255 in its verb position and gets no reply.
- **Verb then 255.** `IAC verb 255` is read as an escaped 255.
- **Sticky EscIAC.** Inside a block, `IAC` followed by any byte other than 255 or SE waits for SE.
- **Short buffer.** `IAC x`, where x is not a verb, SB or 255, hands over a two-byte buffer.
- **Split command.** A command split across two calls reaches the engine without its prefix.
- **Unescaped payloads.** `sendSB` does not double 255 in its payload, so a window size of 255 produces a frame that the same demultiplexer misreads.

## Model

| member | source | states |
|---|---|---|
| Connection.AddOption | connection.go:151-162 | Registering sets exactly the entry for the given code to the given flags and handlers. Every other entry, the state and the window size are unchanged. |
| Connection.AddOptionLastWins | connection.go:161 | Registering the same code twice leaves only the second registration. |
| Connection.Connect | connection.go:96-105 | A fresh connection is in state Data with an empty window size. Its table holds exactly the eight built-in options, each with its flags and handlers. |
| Connection.Close | connection.go:145-148 | Closing forces the not-ready state. The option table and window size stay. |
| Connection.Write | connection.go:137-142 | The application write is refused with the not-ready error, and nothing is written, when the state is NotReady. Otherwise the bytes go to the transport unchanged. |
| Connection.ClosedConnectionRefusesWrites | connection.go:137-148 | After Close, whatever the earlier state, every write is refused with no transport write. |
| Connection.DisableRemoteEcho | connection.go:165-169 | Writes exactly `IAC DONT ECHO`, without the not-ready guard. |
| Negotiation.BigEndian16 | connection.go:176-177 | A 16-bit value is stored as two bytes, and reading them back big-endian gives the value. |
| Negotiation.SendSB | connection.go:283-293 | On a ready connection with a working transport, exactly one frame is written. It begins `IAC SB opt`, then has the operation byte unless the operation is NONE, then the payload unescaped, then ends `IAC SE`. A not-ready connection is refused with no write. |
| Negotiation.TerminalTypeReply | connection.go:298-313 | A buffer too short to hold an operation aborts. SEND with a known terminal name has exactly the outcome of sending `IAC SB 24 IS name IAC SE`: written on a ready connection, refused with no write when not ready, and a write failure on a broken transport. SEND with no name, IS, or any other operation writes nothing and succeeds. |
| Negotiation.WindowSizeReport | connection.go:317-319 | On a ready connection with a working transport, writes the stored window size as one NAWS frame with no operation byte. It is refused with no write when not ready, and fails with no write on a broken transport. |
| Negotiation.TerminalSpeedReply | connection.go:324-334 | A buffer too short to hold an operation aborts. SEND has exactly the outcome of sending `IAC SB 32 IS "115200,115200" IAC SE`, with the guard and write failure of the sub-negotiation send. Any other operation writes nothing. |
| Negotiation.RunHandler | connection.go:298-334 | A handler writes at most one frame and only appends to the log. It aborts exactly when its buffer is too short to hold an operation, and only if it reads one, which NAWS does not. It fails with not-ready only on a not-ready connection, which then writes nothing, and with a write failure only on a broken transport. |
| Negotiation.SetWindowSize | connection.go:172-179 | The stored bytes read back big-endian as width mod 2^16 and height mod 2^16. A ready connection then writes one frame `IAC SB 31 w1 w0 h1 h0 IAC SE`. A not-ready connection writes nothing, and the error is discarded. |
| Negotiation.WindowSize80x24 | connection.go:172-179 | `SetWindowSize(80, 24)` writes `255 250 31 0 80 0 24 255 240`. |
| Negotiation.NegotiateOption | connection.go:236-281 | A buffer shorter than 3 aborts. The write log only grows. A verb other than DO, WILL or SB writes nothing. DO for an unknown option writes the buffer with WONT and succeeds even when that write fails. DO for a configured option first writes WILL or WONT by weWill. Without a post-DO handler, that write's failure is the result. With one, the handler runs on the reply buffer after the reply, and its result is the result. WILL writes exactly one reply, DO or DONT by peerDo. On a broken transport that fails only for a configured option. An SB block is ignored for an option without a handler. Otherwise the option's handler gets the whole block, and its result is the result. |
| Negotiation.DoUnconfiguredDeclines | connection.go:244-249 | `IAC DO x` for an unconfigured x: exactly one write, `IAC WONT x`, and no handler runs. |
| Negotiation.DoConfiguredReplies | connection.go:250-258 | `IAC DO x` for a configured x: one write, `IAC WILL x` if weWill and `IAC WONT x` otherwise. With the NAWS post-DO handler, the window-size frame follows as the second write. |
| Negotiation.WillReplies | connection.go:260-271 | `IAC WILL x`: exactly one write, `IAC DO x` when x is configured with peerDo and `IAC DONT x` otherwise. |
| Negotiation.WontDontIgnored | connection.go:243-280 | A received WONT or DONT produces no write and no error. |
| Demux.Process | connection.go:183-232 | Over any input: the state becomes NotReady exactly when it started NotReady. Output and write log only grow. The not-ready error arises only from the NotReady state, and a write failure only on a broken transport. |
| Demux.ProcessCommands | connection.go:181-234 | Not-ready guard: in NotReady, non-empty input returns the not-ready error with no output and no write, and empty input returns no error. A ready connection never becomes not ready. The option table and window size are untouched. |
| Demux.Dispatch | connection.go:205-209 | The engine is handed the buffer in the current state. On success the buffer is emptied and the state returns to Data. On failure only the log changes, so the state and buffer stay. A buffer shorter than 3 aborts. Each failure has its cause. |
| Demux.Step | connection.go:184-230 | One byte reaches the output exactly when it is plain data in Data, or the 255 that follows an `IAC`. The transport is touched only when a byte closes a command after `IAC` or `IAC verb`, or is the SE after a block's `IAC`. NotReady is neither entered nor left, and refuses every byte. |
| Demux.ProcessAppend | connection.go:183-232 | Processing `a + b` is processing `a`, then continuing on `b` unless it stopped. |
| Demux.EscapedIACStep | connection.go:187-201 | In Data, `IAC IAC` outputs one 255, returns to Data, and leaves both bytes in the buffer. |
| Demux.PlainByteStep | connection.go:191-193 | In Data, a byte other than 255 goes to the output. |
| Demux.EscapedDataDecodes | connection.go:187-201 | In Data, the IAC-doubled form of any data `d` outputs exactly `d`, stays in Data, writes nothing and does not fail. |
| Demux.PlainDataPassesThrough | connection.go:187-193 | Input with no 255 is output unchanged, the state stays Data, and there is no write and no error. |
| Demux.EscapedIACExample | connection_test.go:102-111 | `72 255 255 116 101 108` is output as `72 255 116 101 108`. |
| Demux.NegotiationCommandDispatched | connection.go:195-210 | `IAC verb x` reaches the engine as exactly that three-byte buffer. Afterwards the state is Data, or InIAC if the engine failed. |
| Demux.DoInStream | connection.go:244-258 | `IAC DO x` in the stream with no post-DO handler writes exactly `IAC WILL x` or `IAC WONT x` by weWill. It writes WONT for an unconfigured x. |
| Demux.DoWindowSizeInStream | connection.go:256-258 | `IAC DO NAWS` with the NAWS post-DO handler writes the reply and then the stored window-size frame. |
| Demux.WillInStream | connection.go:260-271 | `IAC WILL x` in the stream writes exactly `IAC DO x` or `IAC DONT x` by peerDo. |
| Demux.WontDontInStream | connection.go:243-280 | `IAC WONT x` and `IAC DONT x` in the stream write nothing. |
| Demux.AbortKeepsOutput | connection.go:205-209 | Take `d IAC WILL x rest`, with x configured, on a broken transport. The call stops with the write failure and keeps the output `d`. It stays in InIAC and consumes nothing of `rest`. |
| Demux.EscapedIACInBlock | connection.go:212-222 | Inside a block, `IAC IAC` is buffered and the state returns to InSB, so the block does not end. |
| Demux.EscapedPayloadBuffered | connection.go:212-222 | Inside a block, an IAC-doubled payload is buffered verbatim and never closes the block. |
| Demux.BlockOpens | connection.go:187-216 | `IAC SB` followed by an escaped payload leaves the machine in InSB with all of it buffered. |
| Demux.SubnegotiationDispatched | connection.go:218-229 | A block is handed over only at `IAC SE`, as the whole buffer `IAC SB … IAC SE`. Afterwards the state is Data, or EscIAC on error. |
| Demux.UnterminatedSubnegotiation | connection.go:212-229 | Without `IAC SE` nothing is dispatched: the call ends in InSB with no output and no write. |
| Demux.UnhandledSubnegotiationIgnored | connection.go:273-277 | A block for an unconfigured option, or for one with no sub-negotiation handler, is consumed with no write and no error. |
| Demux.ClosedConnectionRefusesInput | connection.go:184-186 | After Close, any non-empty input is refused with the not-ready error before a byte is consumed. |
| Demux.StaleBufferSwallowsNegotiation | connection.go:195-201 | `IAC IAC IAC DO x` outputs one 255 and writes nothing. The stale buffer puts 255 in the verb position. |
| Demux.VerbThenIACIsData | connection.go:197-201 | `IAC verb 255` outputs one 255 and dispatches nothing. |
| Demux.ShortCommandIsMalformed | connection.go:204-210 | `IAC x`, with x not a verb, SB or 255, hands over two bytes, and the call aborts in InIAC. |
| Demux.SplitCommandIsMalformed | connection.go:182 | `IAC verb` then `x` in a second call: the buffer restarts empty, so the second call aborts. |
| Demux.EscapeWaitsForSE | connection.go:218-229 | In EscIAC, bytes other than 255 and SE are buffered and nothing is dispatched. |
| Demux.EscapeStateIsSticky | connection.go:218-229 | A connection left in EscIAC stays there, with no output or write, over input holding neither 255 nor SE. |
| Scenarios.QueryBlock | connection.go:212-229 | `IAC SB opt op IAC SE` reaches the engine as exactly those six bytes. |
| Scenarios.TerminalTypeQuery | connection.go:298-313 | The peer's TERMINAL-TYPE SEND gets exactly one reply, IS with the terminal name, when a name is known. Otherwise, and for any other operation, nothing is written. |
| Scenarios.TerminalSpeedQuery | connection.go:324-334 | The peer's TERMINAL-SPEED SEND gets exactly one reply, IS `115200,115200`. Any other operation gets none. |
| Scenarios.SBFrameReadsBack | connection.go:283-293 | A sub-negotiation frame with no 255 in its option or payload is read back by the demultiplexer as exactly one command with the same bytes. |
| Scenarios.WindowSizeIsNotEscaped | connection.go:283-293 | A width of 255 is written as a lone 255 inside the NAWS frame. |
| Scenarios.UnescapedFrameIsMisread | connection.go:212-229 | That frame, read back, never closes: the call ends in InSB with nothing dispatched. |
| Scenarios.WindowSizeNegotiation | connection.go:250-258 | Take any connection that performs NAWS and has the NAWS post-DO handler, and any width and height. After the size is set, the peer's `IAC DO NAWS` is answered with `IAC WILL NAWS` and then the same frame the resize already wrote. |
| Scenarios.DefaultTableAnswersEcho | connection.go:97 | The default table answers DO ECHO with WONT and WILL ECHO with DO. |
| Scenarios.DefaultTableAcceptsSuppressGoAhead | connection.go:98 | The default table answers DO SUPPRESS-GO-AHEAD with WILL. |
| Scenarios.DefaultTableDeclinesUnlisted | connection.go:244-249 | For every option code below 250 outside the default table, DO is answered with WONT and WILL with DONT. Codes 250-255 never close a command: see `Demux.VerbThenIACIsData` for 255. |
| Scenarios.HelloTelnet | connection_test.go:31-46 | A fresh connection receiving "Hello telnet" delivers exactly those 12 bytes and writes nothing. |

## Behaviours worth knowing

The model follows the code in each case:

- **Escaped 255 keeps the buffer.** In the data state an escaped 255 is output, but the command buffer is not cleared (connection.go:199-201). RFC 854 treats `IAC IAC` as one data byte and nothing more.
- **Bytes after a verb are checked again.** After `IAC verb`, another verb, a 255 or SB is still treated as in the InIAC state before the command is closed (connection.go:197-204). So `IAC DO 255` is read as data, not as a DO for option 255.
- **Short buffers panic.** The engine and the TERMINAL-TYPE and TERMINAL-SPEED handlers index `data[2]` and `data[3]` without a length check (connection.go:237-238, 299, 325). The model turns the resulting panic into the `Malformed` abort.
- **NAWS payload before the first resize.** Before the first `SetWindowSize`, the NAWS post-DO handler sends an empty payload, because `winSize` starts nil (connection.go:318). RFC 1073 asks for four bytes.
- **Resizes are reported unconditionally.** `SetWindowSize` reports through the NAWS handler whatever the option table says. Only the not-ready guard can stop the write (connection.go:178).

## Left out

- `Connect`'s `net.Dial`: transport set-up. `Connection.Connect` models the connection as it stands after a successful dial.
- `Read` (connection.go:110-134): the retry loop over transport reads and the copy into the caller's buffer. This is transport plumbing. Its value receiver also means state changes are lost between calls. `ProcessCommands` models one chunk's processing.
- The socket side of `Close`, `Write` and `DisableRemoteEcho`. Only the state change and the not-ready guard are modelled.
- `os.LookupEnv("TERM")`: an environment lookup, passed in as `term`.
- Partial writes and particular socket errors. A write either succeeds whole or, on a broken transport, fails with `WriteFailed` and writes nothing.
- Error message texts. One `ConnectionNotReady` error stands for "telnet connection is not ready".
- The TCP test server in connection_test.go, and all concurrency.
- Connection.AddOption: handlers are limited to the three built-in ones (TERMINAL-TYPE, NAWS, TERMINAL-SPEED), a closed `Handler` datatype. Go accepts any function with the handler signature (connection.go:151), and handler functions supplied by the caller are not modelled.
- Negotiation.NegotiateOption: because of that closed set, what a post-DO or sub-negotiation handler writes and returns is stated only for the three built-in handlers. Go passes on whatever an arbitrary handler writes or returns (connection.go:257, 275).
- Negotiation.RunHandler: covers only the three built-in handlers. Its "at most one frame" and failure-cause clauses need not hold for a handler supplied by the caller.
