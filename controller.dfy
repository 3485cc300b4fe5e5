/**
 * The relay's control logic: the connection retry policy, the two pumps that forward what
 * one straw reads to the other, the hang-up toggle that decides which terminating side
 * closes its counterpart, and the loop that re-runs a whole session.
 */
module Controller {
  import opened Wrappers
  import opened Sockets

  // ---------------------------------------------------------------------------------------
  // Retry policy of `try_connect`

  /** The errno classes `try_connect` treats as "not yet": ECONNREFUSED, EHOSTUNREACH and
      EINPROGRESS. */
  predicate Transient(o: Outcome)
  {
    o == Refused || o == Unreach || o == InProgress
  }

  /** How `try_connect` ends: it returns true or false, the block's error propagates, an
      Interrupt during `sleep` exits the process, or the outcome script ran out while it
      was still retrying. */
  datatype TryResult = Returned(connected: bool) | Raised | Interrupted | Pending

  /** The end of a `try_connect` run with the number of connection attempts (calls of the
      block) and the number of `sleep` calls it made. */
  datatype Attempts = Attempts(result: TryResult, tries: nat, sleeps: nat)

  /** Index of the first outcome that is not transient, or `|script|` when there is none. */
  function FirstSettled(script: seq<Outcome>): (k: nat)
    ensures k <= |script|
    ensures forall j :: 0 <= j < k ==> Transient(script[j])
    ensures k < |script| ==> !Transient(script[k])
  {
    if script == [] || !Transient(script[0]) then 0
    else
      var k := 1 + FirstSettled(script[1..]);
      assert forall j :: 1 <= j < |script| ==> script[j] == script[1..][j - 1];
      assert k < |script| ==> script[k] == script[1..][k - 1];
      k
  }

  /** What `try_connect` makes of attempt outcomes `script` (one per call of the block) when
      every sleep returns, except the one with index `interruptAt`, if any. With a zero
      interval there is one attempt, and every errno class it knows means false; with a
      positive interval the transient classes are retried after a sleep and EISCONN means
      false. Any other error propagates in both modes. */
  function Retry(interval: nat, script: seq<Outcome>, interruptAt: Option<nat>): (a: Attempts)
    ensures interval == 0 && script != [] ==> a.tries == 1 && a.sleeps == 0
    ensures interval == 0 && script != [] ==> (a.result == Returned(true) <==> script[0] == Ok)
    ensures interval == 0 && script != [] ==> (a.result == Returned(false) <==> Transient(script[0]) || script[0] == IsConn)
    ensures interval == 0 && script != [] ==> (a.result == Raised <==> script[0] == Other)
    ensures a.sleeps <= a.tries <= |script|
  {
    if interval == 0 then
      if script == [] then Attempts(Pending, 0, 0)
      else
        var verdict := match script[0]
          case Ok => Returned(true)
          case Other => Raised
          case _ => Returned(false);
        Attempts(verdict, 1, 0)
    else
      var k := FirstSettled(script);
      if interruptAt.Some? && interruptAt.value < k then
        Attempts(Interrupted, interruptAt.value + 1, interruptAt.value + 1)
      else if k == |script| then
        Attempts(Pending, k, k)
      else
        var verdict := match script[k]
          case Ok => Returned(true)
          case IsConn => Returned(false)
          case _ => Raised;
        Attempts(verdict, k + 1, k)
  }

  /** With a positive interval, `n` transient failures followed by a success give exactly
      `n + 1` attempts and `n` sleeps. */
  lemma RetriesThenConnects(interval: nat, script: seq<Outcome>, n: nat)
    requires interval != 0 && n < |script| && script[n] == Ok
    requires forall j :: 0 <= j < n ==> Transient(script[j])
    ensures Retry(interval, script, None) == Attempts(Returned(true), n + 1, n)
  {
  }

  /** EISCONN after `n` transient failures makes `try_connect` return false, not true. */
  lemma AlreadyConnectedIsFalse(interval: nat, script: seq<Outcome>, n: nat)
    requires interval != 0 && n < |script| && script[n] == IsConn
    requires forall j :: 0 <= j < n ==> Transient(script[j])
    ensures Retry(interval, script, None) == Attempts(Returned(false), n + 1, n)
  {
  }

  /** With a positive interval, an error outside the errno classes it knows propagates at
      the first non-transient attempt. */
  lemma OtherErrorPropagates(interval: nat, script: seq<Outcome>, n: nat)
    requires interval != 0 && n < |script| && script[n] == Other
    requires forall j :: 0 <= j < n ==> Transient(script[j])
    ensures Retry(interval, script, None) == Attempts(Raised, n + 1, n)
  {
  }

  /** With a positive interval and only transient failures, `try_connect` never gives up:
      it sleeps after every attempt and is still retrying when the script ends. */
  lemma NeverGivesUp(interval: nat, script: seq<Outcome>)
    requires interval != 0
    requires forall j :: 0 <= j < |script| ==> Transient(script[j])
    ensures Retry(interval, script, None) == Attempts(Pending, |script|, |script|)
  {
  }

  /** An Interrupt during the sleep after attempt `m` exits before another attempt. */
  lemma InterruptedSleepExits(interval: nat, script: seq<Outcome>, m: nat)
    requires interval != 0 && m < |script|
    requires forall j :: 0 <= j <= m ==> Transient(script[j])
    ensures Retry(interval, script, Some(m)) == Attempts(Interrupted, m + 1, m + 1)
  {
  }

  /** A sleep that would come only after the first settled attempt is never reached, so an
      Interrupt scheduled there changes nothing. */
  lemma LateInterruptIgnored(interval: nat, script: seq<Outcome>, m: nat)
    requires interval != 0 && m >= FirstSettled(script)
    ensures Retry(interval, script, Some(m)) == Retry(interval, script, None)
  {
  }

  /** When the first `n` outcomes are transient, the first settled one is at `n` or later;
      exactly at `n` when `script[n]` is not transient (or the script ends there). */
  lemma SettledAt(script: seq<Outcome>, n: nat)
    requires n <= |script|
    requires forall j :: 0 <= j < n ==> Transient(script[j])
    requires n < |script| ==> !Transient(script[n])
    ensures FirstSettled(script) == n
  {
  }

  // ---------------------------------------------------------------------------------------
  // The session loop of `reestablishing`

  /** How one run of the session body ends: it returns, or it raises an error that
      propagates out of `reestablishing`. */
  datatype SessionEnd = SessionReturned | SessionRaised

  /** How `reestablishing` ends: it breaks because reestablishing is off, an error from the
      body propagates, or the session script ran out while it was still looping. */
  datatype LoopEnd = Stopped | Crashed | Running

  /** Index of the first session that raises, or `|sessions|` when none does. */
  function FirstRaise(sessions: seq<SessionEnd>): (k: nat)
    ensures k <= |sessions|
    ensures forall j :: 0 <= j < k ==> sessions[j] == SessionReturned
    ensures k < |sessions| ==> sessions[k] == SessionRaised
  {
    if sessions == [] || sessions[0] == SessionRaised then 0
    else
      var k := 1 + FirstRaise(sessions[1..]);
      assert sessions[0] == SessionReturned;
      assert forall j :: 1 <= j < |sessions| ==> sessions[j] == sessions[1..][j - 1];
      assert k < |sessions| ==> sessions[k] == sessions[1..][k - 1];
      k
  }

  // ---------------------------------------------------------------------------------------
  // SocketController

  /** Which straw's terminate handler issued a counterpart close. */
  datatype Side = Tunnel | App

  class SocketController {
    var tunSock: Option<Straw>
    var appSock: Option<Straw>
    var didIHangup: bool
    /** The counterpart closes issued by the terminate handlers, by the side whose handler
        issued them: `Tunnel` closed the app socket, `App` closed the tunnel socket. */
    ghost var closes: seq<Side>

    /** `SocketController.new`: no straws yet; the hang-up flag reads as nil, that is false. */
    constructor ()
      ensures tunSock == None && appSock == None && !didIHangup && closes == []
    {
      tunSock := None;
      appSock := None;
      didIHangup := false;
      closes := [];
    }

    /** Both straws are well formed and share no object. */
    ghost predicate Valid()
      reads this, Objs(tunSock), Objs(appSock), Reprs(tunSock), Reprs(appSock)
    {
      PairValid(tunSock, appSock) && this !in Reprs(tunSock) && this !in Reprs(appSock)
    }

    /** `try_connect`: calls the block (one connection attempt, whose outcome is the next
        element of `script`) until it settles, sleeping `interval` seconds between attempts;
        a zero interval means one attempt. `interruptAt` is the index of the sleep that an
        Interrupt cuts short, if any. */
    method TryConnect(interval: nat, script: seq<Outcome>, interruptAt: Option<nat>) returns (r: TryResult, tries: nat, sleeps: nat)
      ensures Attempts(r, tries, sleeps) == Retry(interval, script, interruptAt)
    {
      if interval == 0 {
        sleeps := 0;
        if script == [] {
          r, tries := Pending, 0;
          return;
        }
        tries := 1;
        match script[0] {
          case Ok => r := Returned(true);
          case Other => r := Raised;
          case _ => r := Returned(false);
        }
        return;
      }
      var i := 0;
      sleeps := 0;
      while true
        invariant 0 <= i <= |script|
        invariant forall j :: 0 <= j < i ==> Transient(script[j])
        invariant interruptAt.Some? ==> i <= interruptAt.value
        invariant sleeps == i
        decreases |script| - i
      {
        if i == |script| {
          SettledAt(script, i);
          r, tries := Pending, i;
          return;
        }
        tries := i + 1;
        match script[i] {
          case Ok =>
            SettledAt(script, i);
            r := Returned(true);
            return;
          case IsConn =>
            SettledAt(script, i);
            r := Returned(false);
            return;
          case Other =>
            SettledAt(script, i);
            r := Raised;
            return;
          case _ =>
        }
        sleeps := sleeps + 1;
        if interruptAt == Some(i) {
          assert i < FirstSettled(script) by { FirstSettledAfter(script, i); }
          r := Interrupted;
          return;
        }
        i := i + 1;
      }
    }

    /** `listen_tun_socket`: the tunnel straw listens, forwarding every chunk to the app
        straw. `ev` is what the tunnel's `accept` does when it is a Server. */
    method ListenTunSocket(ev: AcceptEvent, events: seq<ReadEvent>) returns (end: ListenEnd, chunks: seq<seq<byte>>)
      requires Valid() && tunSock.Some? && Ready(tunSock.value)
      modifies Reprs(tunSock), Targets(appSock)
      ensures Valid()
      ensures Forwarded(tunSock.value, ev, events, appSock, end, chunks)
      ensures Usable(appSock) ==> Target(appSock).sent == old(Target(appSock).sent) + Flatten(chunks)
    {
      end, chunks := Relay(tunSock.value, ev, events, appSock);
    }

    /** `listen_app_socket`: the app straw listens, forwarding every chunk to the tunnel
        straw. `ev` is what the app's `accept` does when it is a Server. */
    method ListenAppSocket(ev: AcceptEvent, events: seq<ReadEvent>) returns (end: ListenEnd, chunks: seq<seq<byte>>)
      requires Valid() && appSock.Some? && Ready(appSock.value)
      modifies Reprs(appSock), Targets(tunSock)
      ensures Valid()
      ensures Forwarded(appSock.value, ev, events, tunSock, end, chunks)
      ensures Usable(tunSock) ==> Target(tunSock).sent == old(Target(tunSock).sent) + Flatten(chunks)
    {
      end, chunks := Relay(appSock.value, ev, events, tunSock);
    }

    /** `app_socket_on_terminate`: the first handler to run (flag false) sets the flag and
        closes the tunnel straw when there is one; the second only clears the flag. */
    method AppSocketOnTerminate()
      requires Valid()
      modifies this, Reprs(tunSock)
      ensures Valid() && tunSock == old(tunSock) && appSock == old(appSock)
      ensures didIHangup == !old(didIHangup)
      ensures closes == old(closes) + (if !old(didIHangup) && tunSock.Some? then [App] else [])
      ensures !old(didIHangup) && tunSock.Some? ==> Closed(tunSock.value) && Repr(tunSock.value) == {Obj(tunSock.value)}
      ensures !old(didIHangup) && tunSock.Some? && old(Outlet(tunSock.value)) != null ==> !old(Outlet(tunSock.value)).isOpen
      ensures !old(didIHangup) && tunSock.Some? && old(Listener(tunSock.value)) != null ==> !old(Listener(tunSock.value)).isOpen
      ensures old(didIHangup) || tunSock.None? ==> unchanged(old(Reprs(tunSock)))
      ensures Reprs(appSock) == old(Reprs(appSock)) && unchanged(old(Reprs(appSock)))
    {
      if !didIHangup {
        didIHangup := true;
        if tunSock.Some? {
          closes := closes + [App];
          CloseBeside(tunSock.value, appSock);
        }
      } else {
        didIHangup := false;
      }
    }

    /** `tun_socket_on_terminate`: the same toggle, closing the app straw. */
    method TunSocketOnTerminate()
      requires Valid()
      modifies this, Reprs(appSock)
      ensures Valid() && tunSock == old(tunSock) && appSock == old(appSock)
      ensures didIHangup == !old(didIHangup)
      ensures closes == old(closes) + (if !old(didIHangup) && appSock.Some? then [Tunnel] else [])
      ensures !old(didIHangup) && appSock.Some? ==> Closed(appSock.value) && Repr(appSock.value) == {Obj(appSock.value)}
      ensures !old(didIHangup) && appSock.Some? && old(Outlet(appSock.value)) != null ==> !old(Outlet(appSock.value)).isOpen
      ensures !old(didIHangup) && appSock.Some? && old(Listener(appSock.value)) != null ==> !old(Listener(appSock.value)).isOpen
      ensures old(didIHangup) || appSock.None? ==> unchanged(old(Reprs(appSock)))
      ensures Reprs(tunSock) == old(Reprs(tunSock)) && unchanged(old(Reprs(tunSock)))
    {
      if !didIHangup {
        didIHangup := true;
        if appSock.Some? {
          closes := closes + [Tunnel];
          CloseBeside(appSock.value, tunSock);
        }
      } else {
        didIHangup := false;
      }
    }

    /** Both pumps finishing one after the other (the tunnel's first when `tunFirst`) and
        running their terminate handlers: the flag comes back to where it was and exactly
        one handler issues the counterpart close, the one that found the flag false; the
        straw it closes ends closed, and the other straw is left as it was. */
    method TerminatePair(tunFirst: bool)
      requires Valid()
      modifies this, Reprs(tunSock), Reprs(appSock)
      ensures Valid() && tunSock == old(tunSock) && appSock == old(appSock)
      ensures didIHangup == old(didIHangup)
      ensures tunFirst == !old(didIHangup) ==> closes == old(closes) + (if appSock.Some? then [Tunnel] else [])
      ensures tunFirst != !old(didIHangup) ==> closes == old(closes) + (if tunSock.Some? then [App] else [])
      ensures tunFirst == !old(didIHangup) && appSock.Some? ==> Closed(appSock.value) && Repr(appSock.value) == {Obj(appSock.value)}
      ensures tunFirst == !old(didIHangup) && appSock.Some? && old(Outlet(appSock.value)) != null ==> !old(Outlet(appSock.value)).isOpen
      ensures tunFirst == !old(didIHangup) && appSock.Some? && old(Listener(appSock.value)) != null ==> !old(Listener(appSock.value)).isOpen
      ensures tunFirst == !old(didIHangup) ==> unchanged(old(Reprs(tunSock)))
      ensures tunFirst != !old(didIHangup) && tunSock.Some? ==> Closed(tunSock.value) && Repr(tunSock.value) == {Obj(tunSock.value)}
      ensures tunFirst != !old(didIHangup) && tunSock.Some? && old(Outlet(tunSock.value)) != null ==> !old(Outlet(tunSock.value)).isOpen
      ensures tunFirst != !old(didIHangup) && tunSock.Some? && old(Listener(tunSock.value)) != null ==> !old(Listener(tunSock.value)).isOpen
      ensures tunFirst != !old(didIHangup) ==> unchanged(old(Reprs(appSock)))
    {
      if tunFirst {
        TunSocketOnTerminate();
        AppSocketOnTerminate();
      } else {
        AppSocketOnTerminate();
        TunSocketOnTerminate();
      }
    }

    /** `reestablishing`: runs the session body, whose runs end as `sessions` says, and
        repeats it while `reestablish` is set. An error from the body propagates and ends
        the loop. */
    method Reestablishing(reestablish: bool, sessions: seq<SessionEnd>) returns (end: LoopEnd, runs: nat)
      ensures runs <= |sessions|
      ensures !reestablish && sessions != [] ==> runs == 1
      ensures !reestablish && sessions != [] ==> (end == Crashed <==> sessions[0] == SessionRaised) && end != Running
      ensures reestablish ==> end != Stopped
      ensures reestablish && FirstRaise(sessions) < |sessions| ==> end == Crashed && runs == FirstRaise(sessions) + 1
      ensures reestablish && FirstRaise(sessions) == |sessions| ==> end == Running && runs == |sessions|
      ensures sessions == [] ==> end == Running && runs == 0
    {
      runs := 0;
      while true
        invariant runs <= |sessions|
        invariant forall j :: 0 <= j < runs ==> sessions[j] == SessionReturned
        invariant !reestablish ==> runs == 0
        decreases |sessions| - runs
      {
        if runs == |sessions| {
          end := Running;
          return;
        }
        var outcome := sessions[runs];
        runs := runs + 1;
        if outcome == SessionRaised {
          end := Crashed;
          return;
        }
        if !reestablish {
          end := Stopped;
          return;
        }
      }
    }
  }

  /** Both straws are well formed and share no object. */
  ghost predicate PairValid(tun: Option<Straw>, app: Option<Straw>)
    reads Objs(tun), Objs(app), Reprs(tun), Reprs(app)
  {
    SinkValid(tun) && SinkValid(app) && Reprs(tun) !! Reprs(app)
  }

  /** `close` on straw `st`, which shares no object with the straw `keep` beside it; only
      `st` changes. */
  method CloseBeside(st: Straw, keep: Option<Straw>)
    requires StrawValid(st) && SinkValid(keep) && Repr(st) !! Reprs(keep)
    modifies Repr(st)
    ensures StrawValid(st) && Closed(st) && Repr(st) == {Obj(st)}
    ensures old(Outlet(st)) != null ==> !old(Outlet(st)).isOpen
    ensures old(Listener(st)) != null ==> !old(Listener(st)).isOpen
    ensures SinkValid(keep) && Reprs(keep) == old(Reprs(keep)) && unchanged(old(Reprs(keep)))
  {
    CloseStraw(st);
  }

  /** What the first `i + 1` transient outcomes say about where the first settled one is. */
  lemma FirstSettledAfter(script: seq<Outcome>, i: nat)
    requires i < |script|
    requires forall j :: 0 <= j <= i ==> Transient(script[j])
    ensures i < FirstSettled(script)
  {
  }

  /** What a pump run promises, for either straw listening and either kind of endpoint. */
  ghost predicate Forwarded(src: Straw, ev: AcceptEvent, events: seq<ReadEvent>, dst: Option<Straw>, end: ListenEnd, chunks: seq<seq<byte>>)
    reads Obj(src), Objs(dst)
  {
    Bounded(chunks) &&
    (end == Aborted ==> chunks == []) &&
    (src.ClientStraw? || ev == PeerArrives ==>
      (end == Aborted <==> !Usable(dst) && Arrived(events) != []) &&
      (end != Aborted ==> end == Ending(events) && Flatten(chunks) == Arrived(events))) &&
    (src.ServerStraw? && ev == AcceptInterrupt ==> end == AcceptInterrupted && chunks == []) &&
    (src.ServerStraw? && ev == AcceptIOError ==> end == AcceptFailed && chunks == []) &&
    (src.ClientStraw? && (end == PeerGone || end == ReadFailed) ==> Closed(src)) &&
    (src.ServerStraw? && end == PeerGone ==> Closed(src)) &&
    (src.ServerStraw? && end == ReadFailed ==> !Closed(src)) &&
    (end == ReadRaised || end == Aborted || end == Waiting ==> !Closed(src))
  }

  /** The pump of one direction: `src` listens and its block forwards each chunk to `dst`. */
  method Relay(src: Straw, ev: AcceptEvent, events: seq<ReadEvent>, dst: Option<Straw>) returns (end: ListenEnd, chunks: seq<seq<byte>>)
    requires StrawValid(src) && Ready(src) && SinkValid(dst) && Apart(dst, Repr(src))
    modifies Repr(src), Targets(dst)
    ensures StrawValid(src) && SinkValid(dst) && fresh(Repr(src) - old(Repr(src)))
    ensures Forwarded(src, ev, events, dst, end, chunks)
    ensures Usable(dst) ==> Target(dst).sent == old(Target(dst).sent) + Flatten(chunks)
  {
    match src {
      case ClientStraw(c) =>
        end, chunks := c.Listen(events, dst);
      case ServerStraw(s) =>
        ghost var peer;
        end, chunks, peer := s.Listen(ev, events, dst);
    }
  }
}
