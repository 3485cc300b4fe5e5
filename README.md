# Active/passive TCP relay: control logic

`activePeer.rb` relays bytes between two TCP connections, the *tunnel* straw and the
*app* straw. Each straw is either a `Client`, which dials out, or a `Server`, which accepts
one peer. A `SocketController` ties the two together:

- `try_connect` retries a failed connection attempt;
- `listen_tun_socket` and `listen_app_socket` pump what one straw reads into the other's
  `send`;
- a hang-up flag makes the first side to terminate close its counterpart;
- `reestablishing` runs the whole session again while reestablishing is on.

The defaults block fills in missing parameters before any of this runs.

This project models that logic in Dafny, in four modules:

- `Wrappers` holds `Option`, which plays the part of Ruby's nil.
- `Config` holds the parameter hash and its defaults. The hash becomes a record with one
  optional entry per key. `Parameters.ApplyDefaults` updates it in place, with the same
  guarded assignments as the code. It is proved equal to the function `Normalized`, whose
  contract states the defaults and the clamp.
- `Sockets` holds the socket handles and the two endpoint classes.
  - A socket handle is an object (`Socket`) that is open or closed and records every byte
    written and flushed on it.
  - `Client` and `Server` are classes with nullable handle fields that `connect`,
    `accept` and `close` assign and clear. `is_closed?` is the predicate `IsClosed`.
  - Reads are a script of events: `Data(bytes)`, `Eof`, `IOErr` (an IOError or an
    Interrupt while blocked, which `listen` rescues) and `SysErr` (any other read error,
    which propagates out of `listen` with the handles still set). `Arrived` and `Ending` define what a script delivers and how
    reading it ends.
  - `Pump` is the read loop of `listen` with the pump block. It hands the receive buffer
    on in chunks of at most `BUFFER_SIZE` (2048) bytes. It is proved to send the
    counterpart exactly the bytes read, in order, or to abort before sending anything when
    the counterpart is nil or closed.
- `Controller` holds `SocketController` and the reference functions for its loops.
  - A straw is `Straw = ClientStraw | ServerStraw`, a sum of the two endpoint classes.
  - `TryConnect` is a loop over a script of attempt outcomes. It is proved equal to the
    closed-form `Retry`, and lemmas about `Retry` state the retry policy.
  - The hang-up toggle is a pair of handlers that update the flag. A ghost log records
    which handler closed its counterpart.
  - `Reestablishing` is a loop over a script of session outcomes.

Three details of the code that the model keeps:

- `try_connect` returns false on EISCONN in both branches (activePeer.rb:200-201 and
  216-217).
- The interval alone decides whether `try_connect` retries: zero means one attempt
  (activePeer.rb:194, 211).
- `Server#listen` leaves its handles set after an IOError or Interrupt
  (activePeer.rb:156-158). Only EOF closes it.

## Model

| member | source | states |
|---|---|---|
| Config.Normalized | activePeer.rb:42-61 | both addresses default to 127.0.0.1 and both intervals to 0 when absent; with reestablish set a tunnel interval below 1, or absent, becomes exactly 1, and a given value of at least 1 is kept; ports and the flag are unchanged |
| Config.NormalizedIsIdempotent | activePeer.rb:42-61 | running the defaults block on its own output changes nothing |
| Config.Parameters.ApplyDefaults | activePeer.rb:42-61 | the in-place updates of the hash leave exactly the normalised parameters |
| Sockets.Ending | activePeer.rb:76-91 | a read loop ends in one of four ways: the peer is gone, a rescued read error, another read error that propagates, or still blocked |
| Sockets.EndingIsFirstStop | activePeer.rb:78-89 | the loop ends by EOF exactly when an EOF comes before any read error, by a rescued failure exactly when an IOError or Interrupt comes first, and by a propagating error exactly when another error comes first |
| Sockets.ReadAt | activePeer.rb:78-84 | one step of the read script: EOF and both kinds of read error deliver nothing more, and a data event moves its bytes into the receive buffer |
| Sockets.ReadAtEmpty | activePeer.rb:78-84 | with the receive buffer empty, a stop or the end of the script adds nothing to the bytes already forwarded and fixes how the loop ends, and a data event refills the buffer with its bytes |
| Sockets.Carry | activePeer.rb:83-84 | taking the first bytes of the receive buffer as the next chunk keeps the read bytes in order and extends what the counterpart was sent by exactly that chunk |
| Sockets.Client.constructor | activePeer.rb:65-66 | a new client has no connection |
| Sockets.Client.IsClosed | activePeer.rb:94-96 | true exactly when `@server` is nil, so that the client holds no handle |
| Sockets.Client.Connect | activePeer.rb:67-73 | `@server` is cleared, then set to a fresh open connection exactly when the attempt succeeds; on failure it stays nil |
| Sockets.Client.Close | activePeer.rb:98-102 | afterwards `is_closed?` holds and the old handle is closed; on a closed client nothing changes |
| Sockets.Client.Send | activePeer.rb:104-108 | aborts exactly when `is_closed?` holds; otherwise the data is appended to what the connection has sent |
| Sockets.Client.Listen | activePeer.rb:75-92 | forwards exactly the bytes read, in chunks of 1 to 2048 bytes, unless the block aborts; EOF and an IOError or Interrupt both leave the client closed; any other read error, an abort or a script still blocked leaves the connection set |
| Sockets.Server.constructor | activePeer.rb:112-114 | a new server has no handles and no on-accept block |
| Sockets.Server.IsClosed | activePeer.rb:164-166 | false exactly when both `@server` and `@client` are set |
| Sockets.Server.Connect | activePeer.rb:116-125 | both handles are cleared and the on-accept block recorded; the listening socket is set exactly when opening succeeds; `is_closed?` holds |
| Sockets.Server.Accept | activePeer.rb:127-139 | a peer sets `@client`, which ends `is_closed?`, and reports whether the on-accept block ran; an Interrupt exits and another error propagates, both with `@client` unchanged |
| Sockets.Server.Close | activePeer.rb:168-173 | both handles are closed where set and then cleared; with neither set nothing changes |
| Sockets.Server.Send | activePeer.rb:175-179 | aborts exactly when `is_closed?` holds; otherwise the data is appended to what the accepted peer has been sent |
| Sockets.Server.Listen | activePeer.rb:141-162 | accepts first; then forwards exactly the bytes read, in chunks of 1 to 2048 bytes, unless the block aborts; EOF closes the server, both the listening socket and the accepted connection; a rescued IOError or Interrupt, any other read error, an abort or a script still blocked leaves both handles set |
| Sockets.Deliver | activePeer.rb:222-238 | the pump block succeeds exactly when the counterpart is set and open, and then appends the chunk to the counterpart's connection |
| Sockets.ForwardChunk | activePeer.rb:83-84 | one `readpartial(BUFFER_SIZE)` and the block: the chunk is the front of the receive buffer, 1 to 2048 bytes and a full 2048 when more stays buffered, and it is appended to the counterpart exactly when the counterpart is usable |
| Sockets.Pump | activePeer.rb:76-91 | the read loop ends at the first EOF, rescued error or propagating error, or still blocked, after forwarding every byte read; it aborts exactly when bytes arrive for an unusable counterpart |
| Sockets.CloseStraw | activePeer.rb:98-102 | `Client#close`, or `Server#close` at activePeer.rb:168-173, whichever the straw holds: the endpoint is left closed and holding no handle; the connection it held is closed and so is a Server's listening socket |
| Controller.FirstSettled | activePeer.rb:194-210 | the index of the first attempt that is not refused, unreachable or in progress, with every attempt before it transient |
| Controller.Retry | activePeer.rb:192-220 | with a zero interval there is one attempt and no sleep: true exactly on success, false exactly on a known errno class including EISCONN, an error propagating exactly for the others |
| Controller.RetriesThenConnects | activePeer.rb:194-210 | with a positive interval, N transient failures and then a success give true after N+1 attempts and N sleeps |
| Controller.AlreadyConnectedIsFalse | activePeer.rb:199-201 | with a positive interval, EISCONN after N transient failures returns false after N+1 attempts |
| Controller.OtherErrorPropagates | activePeer.rb:196-202 | with a positive interval, an unknown error after N transient failures propagates after N+1 attempts |
| Controller.NeverGivesUp | activePeer.rb:195-210 | with a positive interval, transient failures alone never end the loop: every attempt is followed by a sleep |
| Controller.LateInterruptIgnored | activePeer.rb:195-210 | with a positive interval, an Interrupt scheduled for a sleep after the first settled attempt is never reached and changes nothing |
| Controller.InterruptedSleepExits | activePeer.rb:204-209 | an Interrupt during the sleep after attempt m exits with m+1 attempts made |
| Controller.FirstRaise | activePeer.rb:297-307 | the index of the first session that raises, with every session before it returning normally |
| Controller.SocketController.constructor | activePeer.rb:186-190 | no straws, and the hang-up flag starts false |
| Controller.SocketController.TryConnect | activePeer.rb:192-220 | the loop's result, attempt count and sleep count are those of the retry policy `Retry` |
| Controller.SocketController.ListenTunSocket | activePeer.rb:222-229 | the tunnel straw listens and every chunk it reads is appended, unchanged and in order, to the app straw's connection; it aborts when the app straw is nil or closed |
| Controller.SocketController.ListenAppSocket | activePeer.rb:231-238 | the app straw listens and every chunk it reads is appended, unchanged and in order, to the tunnel straw's connection; it aborts when the tunnel straw is nil or closed |
| Controller.Relay | activePeer.rb:222-238 | one pump direction for either kind of listening endpoint: the forwarding of `listen`, and the endpoint closed or kept as its kind decides |
| Controller.SocketController.AppSocketOnTerminate | activePeer.rb:273-283 | the flag flips; when it was false and the tunnel straw exists, the tunnel straw is left holding no handle, its old connection and any listening socket are closed, and that close is logged; otherwise no object changes; the app straw's objects never change |
| Controller.SocketController.TunSocketOnTerminate | activePeer.rb:285-295 | the flag flips; when it was false and the app straw exists, the app straw is left holding no handle, its old connection and any listening socket are closed, and that close is logged; otherwise no object changes; the tunnel straw's objects never change |
| Controller.SocketController.TerminatePair | activePeer.rb:273-295 | both handlers in either order restore the flag; exactly the handler that found it false closes its counterpart, when that counterpart exists, leaving it holding no handle with its old connection and any listening socket closed; the other call only resets the flag, and the straw whose own handler found the flag false is never touched |
| Controller.CloseBeside | activePeer.rb:277-279 | the `close` of one straw, here and at activePeer.rb:289-291, leaves it holding no handle with its old connection and any listening socket closed, and leaves every object of the other straw unchanged |
| Controller.SocketController.Reestablishing | activePeer.rb:297-307 | with reestablish off the body runs exactly once; with it on the body repeats until a run raises, so the loop never stops on its own |

## Left out

- Real sockets are abstract handles. This covers `TCPSocket.open`, `TCPServer.open`,
  `accept`, `eof?`, `readpartial`, `write`, `flush`, addresses and ports. Attempt
  outcomes, accept outcomes and read events are input scripts. A script that ends leaves
  the program blocked or still retrying (`Pending`, `Waiting`, `Running`).
- `write` followed by `flush` is one step, `Socket.Write`. A write or flush that fails on
  an open connection is not modelled.
- Option parsing (`OptionParser`, the help text, `to_i`) is not modelled. Its result is
  the `Params` record.
- Console output (`puts`, `print`, `@serverinfo`, `@clientinfo`) is not modelled.
- `start` (activePeer.rb:309-333) is not modelled. Its two threads interleave the pumps,
  and the `sleep 0.1` before the app side connects is wall-clock timing. The two terminate
  handlers are modelled as a sequential pair instead (`TerminatePair`).
- `do_tunnel_server`, `do_app_server`, `do_tunnel_client` and `do_app_client` only wire
  the modelled operations together, so they are not modelled themselves.
- `abort`, `exit` on Interrupt, and propagated exceptions are outcome values:
  `Aborted`, `AcceptInterrupted`, `AcceptFailed`, `ReadRaised`, `Exited`, `AcceptRaised`,
  `Raised`, `Interrupted`, `Crashed`.
  They do not end a process.
- `sleep` has no duration in the model. Only the number of sleeps is counted.
- Negative intervals are not modelled: `TryConnect` takes a `nat`, because Ruby's
  `sleep` rejects a negative duration. The defaults block itself takes any integer.
- Controller.SocketController.TryConnect: an Interrupt or another exception raised
  inside the connection attempt is not told apart from other errors. All of them are the
  outcome `Other`, which propagates.
- Sockets.Client.Listen and Sockets.Server.Listen require a connected endpoint (`Ready`).
  A `listen` on a never-connected client would raise NoMethodError on nil, and that is
  not modelled.
