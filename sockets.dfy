/**
 * The two endpoint kinds of the relay, `Client` (dials out) and `Server` (accepts one peer),
 * over abstract socket handles, and the forwarding block that both pumps pass to `listen`.
 *
 * Reads are an input script of events: `Data(bytes)` (bytes the peer sent arrive in the
 * receive buffer), `Eof` (the peer hung up), `IOErr` (an IOError or Interrupt while
 * blocked in `eof?` or `readpartial`, which the read loop rescues) and `SysErr` (any other
 * error from those calls, such as ECONNRESET, which the read loop does not rescue). A
 * script that ends without a stop leaves the read blocked.
 */
module Sockets {

  import opened Wrappers

  /** A byte on the wire. */
  newtype byte = x: int | 0 <= x < 256

  /** BUFFER_SIZE: the largest chunk one `readpartial` hands to `listen`'s block. */
  const BufferSize: nat := 1024 * 2

  /** What opening a TCP connection does: succeed, or raise one of these errno classes. */
  datatype Outcome = Ok | Refused | Unreach | InProgress | IsConn | Other

  /** What a blocking `accept` on a listening socket does. */
  datatype AcceptEvent = PeerArrives | AcceptInterrupt | AcceptIOError

  /** How `Server#accept` ends: a peer is taken (and `notified` says whether the
      on-accept block ran), the process exits on Interrupt, or the error propagates. */
  datatype AcceptResult = Accepted(notified: bool) | Exited | AcceptRaised

  datatype ReadEvent = Data(bytes: seq<byte>) | Eof | IOErr | SysErr

  /** How a `listen` (with the pump as its block) finishes. */
  datatype ListenEnd =
    | PeerGone           // `eof?` held: the peer closed its side
    | ReadFailed         // IOError or Interrupt rescued inside the read loop
    | ReadRaised         // another read error, not rescued: it propagates out of listen
    | Aborted            // the block aborted the process: the counterpart was nil or closed
    | Waiting            // the script ran out while a read was still blocked
    | AcceptInterrupted  // Server only: Interrupt while accepting, the process exits
    | AcceptFailed       // Server only: another error from accept propagates out of listen

  /** An operating-system socket handle: a TCP connection, a listening socket or an
      accepted connection. `sent` is every byte written and flushed on it. */
  class Socket {
    var isOpen: bool
    var sent: seq<byte>

    constructor ()
      ensures isOpen && sent == []
    {
      isOpen := true;
      sent := [];
    }

    /** `write` followed by `flush`: when it returns the bytes have left the process. */
    method Write(data: seq<byte>)
      requires isOpen
      modifies this
      ensures isOpen && sent == old(sent) + data
    {
      sent := sent + data;
    }

    method Close()
      modifies this
      ensures !isOpen && sent == old(sent)
    {
      isOpen := false;
    }
  }

  // ---------------------------------------------------------------------------------------
  // What a read script delivers

  /** The bytes that arrive before the script's first stop, in arrival order. */
  function Arrived(events: seq<ReadEvent>): seq<byte>
  {
    if events == [] then []
    else match events[0]
      case Data(b) => b + Arrived(events[1..])
      case _ => []
  }

  /** How reading the script ends: at its first `Eof`, `IOErr` or `SysErr`, or still blocked. */
  function Ending(events: seq<ReadEvent>): (e: ListenEnd)
    ensures e == PeerGone || e == ReadFailed || e == ReadRaised || e == Waiting
  {
    if events == [] then Waiting
    else match events[0]
      case Eof => PeerGone
      case IOErr => ReadFailed
      case SysErr => ReadRaised
      case Data(_) => Ending(events[1..])
  }

  /** `Ending` names the first stop in the script: EOF exactly when an `Eof` comes before
      any other stop, a rescued read failure exactly when an `IOErr` comes first, and an
      unrescued one exactly when a `SysErr` comes first. */
  lemma {:induction false} EndingIsFirstStop(events: seq<ReadEvent>)
    ensures Ending(events) == PeerGone <==> exists k :: 0 <= k < |events| && events[k] == Eof && NoStopBefore(events, k)
    ensures Ending(events) == ReadFailed <==> exists k :: 0 <= k < |events| && events[k] == IOErr && NoStopBefore(events, k)
    ensures Ending(events) == ReadRaised <==> exists k :: 0 <= k < |events| && events[k] == SysErr && NoStopBefore(events, k)
  {
    if events != [] {
      assert NoStopBefore(events, 0);
      if events[0].Data? {
        EndingIsFirstStop(events[1..]);
        ShiftNoStop(events);
        if Ending(events) == PeerGone {
          var k :| 0 <= k < |events| - 1 && events[1..][k] == Eof && NoStopBefore(events[1..], k);
          assert events[k + 1] == Eof;
        }
        if Ending(events) == ReadFailed {
          var k :| 0 <= k < |events| - 1 && events[1..][k] == IOErr && NoStopBefore(events[1..], k);
          assert events[k + 1] == IOErr;
        }
        if exists k :: 0 <= k < |events| && events[k] == Eof && NoStopBefore(events, k) {
          var k :| 0 <= k < |events| && events[k] == Eof && NoStopBefore(events, k);
          assert k > 0 && events[1..][k - 1] == Eof;
        }
        if exists k :: 0 <= k < |events| && events[k] == IOErr && NoStopBefore(events, k) {
          var k :| 0 <= k < |events| && events[k] == IOErr && NoStopBefore(events, k);
          assert k > 0 && events[1..][k - 1] == IOErr;
        }
        if Ending(events) == ReadRaised {
          var k :| 0 <= k < |events| - 1 && events[1..][k] == SysErr && NoStopBefore(events[1..], k);
          assert events[k + 1] == SysErr;
        }
        if exists k :: 0 <= k < |events| && events[k] == SysErr && NoStopBefore(events, k) {
          var k :| 0 <= k < |events| && events[k] == SysErr && NoStopBefore(events, k);
          assert k > 0 && events[1..][k - 1] == SysErr;
        }
      }
    }
  }

  /** Every event before index `k` is a `Data` arrival. */
  predicate NoStopBefore(events: seq<ReadEvent>, k: nat)
    requires k <= |events|
  {
    forall j :: 0 <= j < k ==> events[j].Data?
  }

  /** Dropping a leading `Data` event shifts the stop-free prefixes by one. */
  lemma ShiftNoStop(events: seq<ReadEvent>)
    requires events != [] && events[0].Data?
    ensures forall k :: 0 <= k < |events| - 1 ==> (NoStopBefore(events[1..], k) <==> NoStopBefore(events, k + 1))
  {
    forall k | 0 <= k < |events| - 1
      ensures NoStopBefore(events[1..], k) <==> NoStopBefore(events, k + 1)
    {
      if NoStopBefore(events, k + 1) {
        forall j | 0 <= j < k ensures events[1..][j].Data? { assert events[1..][j] == events[j + 1]; }
      }
      if NoStopBefore(events[1..], k) {
        forall j | 0 <= j < k + 1 ensures events[j].Data? {
          if j > 0 { assert events[j] == events[1..][j - 1]; }
        }
      }
    }
  }

  /** The bytes of a sequence of chunks, one after another. */
  function Flatten(chunks: seq<seq<byte>>): seq<byte>
  {
    if chunks == [] then [] else Flatten(chunks[..|chunks| - 1]) + chunks[|chunks| - 1]
  }

  /** Every chunk is what one `readpartial(BUFFER_SIZE)` can return: 1 to 2048 bytes. */
  predicate Bounded(chunks: seq<seq<byte>>)
  {
    forall k :: 0 <= k < |chunks| ==> 0 < |chunks[k]| <= BufferSize
  }

  lemma FlattenSnoc(chunks: seq<seq<byte>>, c: seq<byte>)
    ensures Flatten(chunks + [c]) == Flatten(chunks) + c
  {
    assert (chunks + [c])[..|chunks|] == chunks;
  }

  /** Handing the front `msg` of the receive buffer `msg + rest` to the block as one more
      chunk keeps the bytes read so far in order, and extends what the counterpart has been
      sent by exactly that chunk. */
  lemma Carry(chunks: seq<seq<byte>>, msg: seq<byte>, rest: seq<byte>, more: seq<byte>, base: seq<byte>, sent: seq<byte>)
    ensures Flatten(chunks) + ((msg + rest) + more) == Flatten(chunks + [msg]) + (rest + more)
    ensures sent == base + Flatten(chunks) ==> sent + msg == base + Flatten(chunks + [msg])
  {
    FlattenSnoc(chunks, msg);
  }

  /** What the script holds from index `i` on, one event at a time: nothing more arrives
      at the end or at a stop, and a `Data` event moves its bytes into the receive buffer. */
  lemma ReadAt(events: seq<ReadEvent>, i: nat)
    requires i <= |events|
    ensures i == |events| ==> Arrived(events[i..]) == [] && Ending(events[i..]) == Waiting
    ensures i < |events| && events[i] == Eof ==> Arrived(events[i..]) == [] && Ending(events[i..]) == PeerGone
    ensures i < |events| && events[i] == IOErr ==> Arrived(events[i..]) == [] && Ending(events[i..]) == ReadFailed
    ensures i < |events| && events[i] == SysErr ==> Arrived(events[i..]) == [] && Ending(events[i..]) == ReadRaised
    ensures i < |events| && events[i].Data? ==>
      Arrived(events[i..]) == events[i].bytes + Arrived(events[i + 1..]) && Ending(events[i..]) == Ending(events[i + 1..])
  {
    if i < |events| {
      assert events[i..][0] == events[i];
      assert events[i..][1..] == events[i + 1..];
    }
  }

  /** `ReadAt` with the receive buffer empty and `done` already forwarded: what the read loop
      knows after `eof?` returns at index `i`. */
  lemma ReadAtEmpty(events: seq<ReadEvent>, i: nat, done: seq<byte>)
    requires i <= |events|
    ensures i == |events| || !events[i].Data? ==> done + ([] + Arrived(events[i..])) == done
    ensures i == |events| ==> Ending(events[i..]) == Waiting
    ensures i < |events| && events[i] == Eof ==> Ending(events[i..]) == PeerGone
    ensures i < |events| && events[i] == IOErr ==> Ending(events[i..]) == ReadFailed
    ensures i < |events| && events[i] == SysErr ==> Ending(events[i..]) == ReadRaised
    ensures i < |events| && events[i].Data? ==>
      done + ([] + Arrived(events[i..])) == done + (events[i].bytes + Arrived(events[i + 1..])) &&
      Ending(events[i..]) == Ending(events[i + 1..])
  {
    ReadAt(events, i);
    assert [] + Arrived(events[i..]) == Arrived(events[i..]);
  }

  // ---------------------------------------------------------------------------------------
  // Client: `@server` is the connection it dialled, nil until connected and after close

  class Client {
    var server: Socket?

    /** `Client.new`: `@server` is unset, which reads as nil. */
    constructor ()
      ensures server == null
    {
      server := null;
    }

    ghost predicate Valid()
      reads this, server
    {
      server != null ==> server.isOpen
    }

    ghost function Repr(): set<object>
      reads this
    {
      if server == null then {this} else {this, server}
    }

    /** `is_closed?` */
    predicate IsClosed()
      reads this
      ensures IsClosed() <==> Repr() == {this}
    {
      server == null
    }

    /** `connect`: clears `@server`, then opens the connection; `outcome` is what the
        operating system makes of the attempt. On failure the error is re-raised to the
        caller and `@server` stays nil. */
    method Connect(outcome: Outcome) returns (ok: bool)
      modifies this
      ensures Valid()
      ensures ok <==> outcome == Ok
      ensures ok ==> server != null && fresh(server) && server.sent == []
      ensures !ok ==> server == null
    {
      server := null;
      if outcome == Ok {
        server := new Socket();
        ok := true;
      } else {
        ok := false;
      }
    }

    /** `close`: a no-op when already closed; otherwise closes the handle and forgets it. */
    method Close()
      requires Valid()
      modifies this, server
      ensures Valid() && IsClosed()
      ensures old(server) != null ==> !old(server).isOpen && old(server).sent == old(server.sent)
      ensures old(IsClosed()) ==> unchanged(this)
    {
      if IsClosed() {
        return;
      }
      server.Close();
      server := null;
    }

    /** `send`: aborts the process (`ok` false, nothing written) on a closed endpoint,
        otherwise writes and flushes `data` on the connection. */
    method Send(data: seq<byte>) returns (ok: bool)
      requires !IsClosed() ==> server.isOpen
      modifies if IsClosed() then {} else {server}
      ensures ok <==> !IsClosed()
      ensures ok ==> server.isOpen && server.sent == old(server.sent) + data
    {
      if IsClosed() {
        ok := false;
        return;
      }
      server.Write(data);
      ok := true;
    }

    /** `listen` with the pump as its block: the read loop is `Pump`; peer EOF and a rescued
        read error (IOError, Interrupt) both close the endpoint, while any other read error
        propagates with the connection still set. */
    method Listen(events: seq<ReadEvent>, sink: Option<Straw>) returns (end: ListenEnd, chunks: seq<seq<byte>>)
      requires Valid() && server != null
      requires SinkValid(sink) && Apart(sink, Repr())
      modifies this, server, Targets(sink)
      ensures Valid() && SinkValid(sink) && Repr() <= old(Repr())
      ensures end == PeerGone || end == ReadFailed || end == ReadRaised || end == Aborted || end == Waiting
      ensures end == Aborted <==> !Usable(sink) && Arrived(events) != []
      ensures end != Aborted ==> end == Ending(events) && Flatten(chunks) == Arrived(events)
      ensures end == Aborted ==> chunks == []
      ensures Bounded(chunks)
      ensures Usable(sink) ==> Target(sink).sent == old(Target(sink).sent) + Flatten(chunks)
      ensures end == PeerGone || end == ReadFailed ==> IsClosed() && !old(server).isOpen
      ensures end == ReadRaised || end == Aborted || end == Waiting ==> server == old(server) && !IsClosed()
    {
      TargetInRepr(sink);
      end, chunks := Pump(events, sink);
      if end == PeerGone || end == ReadFailed {
        Close();
      }
    }
  }

  // ---------------------------------------------------------------------------------------
  // Server: `@server` is the listening socket, `@client` the one accepted peer

  class Server {
    var server: Socket?
    var client: Socket?
    var onAccept: bool

    /** `Server.new`: no handles; `@on_accept` is unset. */
    constructor ()
      ensures server == null && client == null && !onAccept
    {
      server := null;
      client := null;
      onAccept := false;
    }

    ghost predicate Valid()
      reads this, server, client
    {
      (server != null ==> server.isOpen) &&
      (client != null ==> client.isOpen) &&
      (server != null && client != null ==> server != client)
    }

    ghost function Repr(): set<object>
      reads this
    {
      {this} + (if server == null then {} else {server}) + (if client == null then {} else {client})
    }

    /** `is_closed?`: closed unless both the listening socket and an accepted peer exist. */
    predicate IsClosed()
      reads this
      ensures !IsClosed() <==> server != null && client != null && Repr() == {this, server, client}
    {
      server == null || client == null
    }

    /** `connect`: clears both handles, records whether an on-accept block was given, then
        opens the listening socket; when that fails (`opens` false) the error propagates. */
    method Connect(opens: bool, withBlock: bool) returns (ok: bool)
      modifies this
      ensures Valid() && IsClosed()
      ensures client == null && onAccept == withBlock
      ensures ok == opens
      ensures ok ==> server != null && fresh(server)
      ensures !ok ==> server == null
    {
      server := null;
      client := null;
      onAccept := withBlock;
      if opens {
        server := new Socket();
      }
      ok := opens;
    }

    /** `accept`: blocks for one peer. Interrupt exits the process; any other error
        propagates with `@client` untouched. */
    method Accept(ev: AcceptEvent) returns (r: AcceptResult)
      requires Valid() && server != null
      modifies this
      ensures Valid() && server == old(server) && onAccept == old(onAccept)
      ensures ev == PeerArrives ==> r == Accepted(onAccept) && client != null && fresh(client) && client.sent == []
      ensures ev == PeerArrives ==> !IsClosed()
      ensures ev == AcceptInterrupt ==> r == Exited && client == old(client)
      ensures ev == AcceptIOError ==> r == AcceptRaised && client == old(client)
    {
      match ev {
        case PeerArrives =>
          client := new Socket();
          r := Accepted(onAccept);
        case AcceptInterrupt =>
          r := Exited;
        case AcceptIOError =>
          r := AcceptRaised;
      }
    }

    /** `close`: closes whichever handles exist and forgets both; a no-op when neither exists. */
    method Close()
      requires Valid()
      modifies this, server, client
      ensures Valid() && server == null && client == null && onAccept == old(onAccept)
      ensures old(client) != null ==> !old(client).isOpen && old(client).sent == old(client.sent)
      ensures old(server) != null ==> !old(server).isOpen
      ensures old(server) == null && old(client) == null ==> unchanged(this)
    {
      if client != null {
        client.Close();
      }
      if server != null {
        server.Close();
      }
      client := null;
      server := null;
    }

    /** `send`: aborts the process (`ok` false, nothing written) when closed, otherwise
        writes and flushes `data` to the accepted peer. */
    method Send(data: seq<byte>) returns (ok: bool)
      requires !IsClosed() ==> client.isOpen
      modifies if IsClosed() then {} else {client}
      ensures ok <==> !IsClosed()
      ensures ok ==> client.isOpen && client.sent == old(client.sent) + data
    {
      if IsClosed() {
        ok := false;
        return;
      }
      client.Write(data);
      ok := true;
    }

    /** `listen` with the pump as its block: accepts one peer, then reads chunks of at most
        BUFFER_SIZE bytes and hands each to `Deliver(sink, ·)`. Peer EOF closes the endpoint;
        a rescued read error only leaves the loop, and any other read error propagates, both
        with both handles still set. `peer` is the connection `accept` returned. */
    method Listen(ev: AcceptEvent, events: seq<ReadEvent>, sink: Option<Straw>) returns (end: ListenEnd, chunks: seq<seq<byte>>, ghost peer: Socket?)
      requires Valid() && server != null
      requires SinkValid(sink) && Apart(sink, Repr())
      modifies this, server, Targets(sink)
      ensures Valid() && SinkValid(sink) && fresh(Repr() - old(Repr()))
      ensures ev == AcceptInterrupt ==> end == AcceptInterrupted && chunks == []
      ensures ev == AcceptIOError ==> end == AcceptFailed && chunks == []
      ensures ev != PeerArrives ==> server == old(server) && client == old(client)
      ensures ev == PeerArrives ==> end == PeerGone || end == ReadFailed || end == ReadRaised || end == Aborted || end == Waiting
      ensures ev == PeerArrives ==> (end == Aborted <==> !Usable(sink) && Arrived(events) != [])
      ensures ev == PeerArrives && end != Aborted ==> end == Ending(events) && Flatten(chunks) == Arrived(events)
      ensures end == Aborted ==> chunks == []
      ensures Bounded(chunks)
      ensures Usable(sink) ==> Target(sink).sent == old(Target(sink).sent) + Flatten(chunks)
      ensures end == PeerGone ==> server == null && client == null && !old(server).isOpen
      ensures end == ReadFailed || end == ReadRaised || end == Aborted || end == Waiting ==> server == old(server) && !IsClosed()
      ensures ev == PeerArrives ==> peer != null && fresh(peer)
      ensures end == PeerGone ==> peer != null && !peer.isOpen
      ensures end == ReadFailed || end == ReadRaised || end == Aborted || end == Waiting ==> client == peer && peer != null && peer.isOpen
    {
      chunks := [];
      peer := null;
      var accepted := Accept(ev);
      if accepted == Exited {
        end := AcceptInterrupted;
        return;
      } else if accepted == AcceptRaised {
        end := AcceptFailed;
        return;
      }
      peer := client;
      TargetInRepr(sink);
      end, chunks := Pump(events, sink);
      if end == PeerGone {
        Close();
      }
    }
  }

  // ---------------------------------------------------------------------------------------
  // A straw is one end of the relay: `@tunSock` or `@appSock` holds a Client (active mode)
  // or a Server (passive mode).

  datatype Straw = ClientStraw(c: Client) | ServerStraw(s: Server)

  function Obj(st: Straw): object
  {
    match st
    case ClientStraw(c) => c
    case ServerStraw(s) => s
  }

  function Objs(o: Option<Straw>): set<object>
  {
    if o.Some? then {Obj(o.value)} else {}
  }

  ghost function Repr(st: Straw): set<object>
    reads Obj(st)
  {
    match st
    case ClientStraw(c) => c.Repr()
    case ServerStraw(s) => s.Repr()
  }

  ghost function Reprs(o: Option<Straw>): set<object>
    reads Objs(o)
  {
    if o.Some? then Repr(o.value) else {}
  }

  ghost predicate StrawValid(st: Straw)
    reads Obj(st), Repr(st)
  {
    match st
    case ClientStraw(c) => c.Valid()
    case ServerStraw(s) => s.Valid()
  }

  ghost predicate SinkValid(o: Option<Straw>)
    reads Objs(o), Reprs(o)
  {
    o.Some? ==> StrawValid(o.value)
  }

  /** The straw's `is_closed?`. */
  predicate Closed(st: Straw)
    reads Obj(st)
  {
    match st
    case ClientStraw(c) => c.IsClosed()
    case ServerStraw(s) => s.IsClosed()
  }

  /** The handle a `send` on the straw writes to. */
  function Outlet(st: Straw): Socket?
    reads Obj(st)
  {
    match st
    case ClientStraw(c) => c.server
    case ServerStraw(s) => s.client
  }

  /** The straw's listening socket: a Server's `@server`; a Client has none. */
  function Listener(st: Straw): Socket?
    reads Obj(st)
  {
    match st
    case ClientStraw(c) => null
    case ServerStraw(s) => s.server
  }

  /** The pump can forward to `o`: it is set and not closed. */
  predicate Usable(o: Option<Straw>)
    reads Objs(o)
  {
    o.Some? && !Closed(o.value)
  }

  /** The counterpart shares no object with `objs` (the reading endpoint and its handles). */
  ghost predicate Apart(o: Option<Straw>, objs: set<object>)
    reads Objs(o)
  {
    o.Some? ==> Repr(o.value) !! objs
  }

  /** The socket the pump's block writes to: the counterpart's outlet when the counterpart
      is set and open, null when the block aborts instead. */
  function Target(sink: Option<Straw>): Socket?
    reads Objs(sink)
  {
    if Usable(sink) then Outlet(sink.value) else null
  }

  function Targets(sink: Option<Straw>): set<object>
    reads Objs(sink)
  {
    if Target(sink) == null then {} else {Target(sink)}
  }

  /** The block only ever writes inside the counterpart. */
  lemma TargetInRepr(sink: Option<Straw>)
    ensures Targets(sink) <= Reprs(sink)
  {
  }

  /** The block both pumps pass to `listen`: abort when the counterpart is nil, otherwise
      `send` the chunk to it (which aborts when the counterpart is closed). */
  method Deliver(sink: Option<Straw>, data: seq<byte>) returns (ok: bool)
    requires SinkValid(sink)
    modifies Targets(sink)
    ensures SinkValid(sink) && Usable(sink) == old(Usable(sink)) && Target(sink) == old(Target(sink))
    ensures ok <==> Usable(sink)
    ensures ok ==> Target(sink) != null && Target(sink).isOpen && Target(sink).sent == old(Target(sink).sent) + data
  {
    match sink {
      case None =>
        ok := false;
      case Some(ClientStraw(c)) =>
        ok := c.Send(data);
      case Some(ServerStraw(s)) =>
        ok := s.Send(data);
    }
  }

  /** The read loop of `listen` with the pump as its block: while `eof?` says more is
      coming, take what `readpartial(BUFFER_SIZE)` returns and `Deliver` it. The loop ends at
      the first `Eof` (`PeerGone`), `IOErr` (`ReadFailed`) or `SysErr` (`ReadRaised`), when
      the block aborts, or with the read still blocked at the end of the script (`Waiting`). */
  method Pump(events: seq<ReadEvent>, sink: Option<Straw>) returns (end: ListenEnd, chunks: seq<seq<byte>>)
    requires SinkValid(sink)
    modifies Targets(sink)
    ensures SinkValid(sink) && Usable(sink) == old(Usable(sink)) && Target(sink) == old(Target(sink))
    ensures end == PeerGone || end == ReadFailed || end == ReadRaised || end == Aborted || end == Waiting
    ensures end == Aborted <==> !Usable(sink) && Arrived(events) != []
    ensures end != Aborted ==> end == Ending(events) && Flatten(chunks) == Arrived(events)
    ensures end == Aborted ==> chunks == []
    ensures Bounded(chunks)
    ensures Usable(sink) ==> Target(sink).isOpen && Target(sink).sent == old(Target(sink).sent) + Flatten(chunks)
  {
    ghost var usable := Usable(sink);
    ghost var out := Target(sink);
    ghost var base: seq<byte> := if out != null then out.sent else [];
    var i := 0;
    var pending: seq<byte> := [];
    chunks := [];
    while true
      invariant 0 <= i <= |events|
      invariant SinkValid(sink)
      invariant Arrived(events) == Flatten(chunks) + (pending + Arrived(events[i..]))
      invariant Ending(events) == Ending(events[i..])
      invariant Bounded(chunks)
      invariant Usable(sink) == usable && Target(sink) == out
      invariant !usable ==> chunks == []
      invariant usable ==> out != null && out.isOpen && out.sent == base + Flatten(chunks)
      decreases |events| - i, |pending|
    {
      if pending == [] {
        // `eof?` blocks until bytes arrive or the peer hangs up
        ReadAtEmpty(events, i, Flatten(chunks));
        if i == |events| {
          end := Waiting;
          return;
        }
        match events[i] {
          case Eof =>
            end := PeerGone;
            return;
          case IOErr =>
            end := ReadFailed;
            return;
          case SysErr =>
            end := ReadRaised;
            return;
          case Data(b) =>
            pending := b;
            i := i + 1;
        }
      } else {
        ghost var before := if usable then out.sent else [];
        var delivered, msg, rest := ForwardChunk(sink, pending);
        if !delivered {
          end := Aborted;
          return;
        }
        Carry(chunks, msg, rest, Arrived(events[i..]), base, before);
        pending := rest;
        chunks := chunks + [msg];
      }
    }
  }

  /** One `readpartial(BUFFER_SIZE)` and the block: the front of the receive buffer, up to
      BUFFER_SIZE bytes, is taken as `msg` and handed to `Deliver`; `rest` stays buffered. */
  method ForwardChunk(sink: Option<Straw>, pending: seq<byte>) returns (delivered: bool, msg: seq<byte>, rest: seq<byte>)
    requires SinkValid(sink) && pending != []
    modifies Targets(sink)
    ensures SinkValid(sink) && Usable(sink) == old(Usable(sink)) && Target(sink) == old(Target(sink))
    ensures pending == msg + rest && 0 < |msg| <= BufferSize && (rest != [] ==> |msg| == BufferSize)
    ensures delivered <==> Usable(sink)
    ensures delivered ==> Target(sink).isOpen && Target(sink).sent == old(Target(sink).sent) + msg
  {
    var n := if |pending| < BufferSize then |pending| else BufferSize;
    msg, rest := pending[..n], pending[n..];
    delivered := Deliver(sink, msg);
  }

  /** The straw's endpoint can `listen`: a Client has connected, a Server has opened its
      listening socket. */
  predicate Ready(st: Straw)
    reads Obj(st)
  {
    match st
    case ClientStraw(c) => c.server != null
    case ServerStraw(s) => s.server != null
  }

  /** `close` on whichever endpoint the straw holds. */
  method CloseStraw(st: Straw)
    requires StrawValid(st)
    modifies Repr(st)
    ensures StrawValid(st) && Closed(st) && Repr(st) == {Obj(st)}
    ensures old(Outlet(st)) != null ==> !old(Outlet(st)).isOpen
    ensures old(Listener(st)) != null ==> !old(Listener(st)).isOpen
  {
    match st {
      case ClientStraw(c) =>
        c.Close();
      case ServerStraw(s) =>
        s.Close();
    }
  }
}
