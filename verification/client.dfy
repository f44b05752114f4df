/** RinnaiSystem's bookkeeping around the socket: the reconnect decision,
    the decode-error and keep-alive counters, the sequence number echoed
    back by the unit, "replace the stored status only when a snapshot
    decoded", the mode-gated sending of commands and the per-address
    instance registry. The socket, the clock and the status frame the unit
    sends back are inputs. */
module Client {
  import opened Py
  import opened Wire
  import opened Commands
  import opened Operations
  import Status
  import Events

  /** A TCP client socket: an identity and whether close() has been called. */
  datatype Socket = Socket(id: nat, closed: bool)

  /** What client.getpeername() does on an open socket: return an address,
      return None, or raise OSError. */
  datatype Probe = PeerOk | PeerNone | PeerRaises

  /** A status frame after the regular expression: no match, or the six
      digits in front of the JSON array and that array as json.loads reads
      it (None when it raises). */
  datatype Received = NoMatch | Matched(numeral: Numeral6, parsed: Option<seq<Json>>)

  /** The connection part of the state: the socket and the decode-error count. */
  datatype Link = Link(client: Option<Socket>, jsonerrors: nat)

  /** The value of every RinnaiSystem field other than the stored status;
      outbox lists everything sent on the socket, in order. */
  datatype Ledger = Ledger(conn: Link, sendSequence: nat, nosendupdates: nat, lastclosed: int,
                           lastupdated: int, outbox: seq<string>)

  // ---------------------------------------------------------------- reconnecting

  /** getpeername() raises OSError on a socket that has been closed. */
  function Peer(s: Socket, probe: Probe): Probe {
    if s.closed then PeerRaises else probe
  }

  function Close(s: Socket): Socket {
    s.(closed := true)
  }

  /** The last part of renewConnection: the error count is cleared, then
      ConnectToTouch either yields a fresh open socket (connect names it) or
      raises, and then the socket kept is the one before. */
  function Reconnect(kept: Option<Socket>, connect: Option<nat>): (r: (Link, bool))
    ensures r.0.jsonerrors == 0
    ensures r.1 <==> connect.Some?
    ensures r.1 ==> r.0.client == Some(Socket(connect.value, false))
    ensures !r.1 ==> r.0.client == kept
  {
    match connect
    case None => (Link(kept, 0), false)
    case Some(id) => (Link(Some(Socket(id, false)), 0), true)
  }

  /** renewConnection: keeps a socket whose peer answers while fewer than four
      decodes have failed; otherwise, when there is no socket, it is closed,
      the peer raised or more than two decodes failed, closes the old socket
      and connects again; in every other case reports failure. */
  function Renew(l: Link, probe: Probe, connect: Option<nat>): (r: (Link, bool))
    ensures r.1 ==> r.0.client.Some? && !r.0.client.value.closed && r.0.jsonerrors < 4
    ensures r.0.jsonerrors == l.jsonerrors || r.0.jsonerrors == 0
    ensures r.0.client.None? ==> l.client.None?
  {
    if l.client.Some? && Peer(l.client.value, probe) == PeerOk && l.jsonerrors < 4 then (l, true)
    else
      var connectionError := l.client.Some? && Peer(l.client.value, probe) == PeerRaises;
      if l.client.None? || l.client.value.closed || connectionError || l.jsonerrors > 2 then
        var closing := connectionError || l.jsonerrors > 2;
        if closing && l.client.None? then (l, false)
        else Reconnect(if closing then Some(Close(l.client.value)) else l.client, connect)
      else (l, false)
  }

  /** The connection invariant: at most four decode errors are ever counted,
      and none without a socket. */
  predicate LinkOk(l: Link) {
    l.jsonerrors <= 4 && (l.client.None? ==> l.jsonerrors == 0)
  }

  /** A socket whose peer answers is kept while fewer than four decodes have
      failed; from the fourth failure on it is closed and replaced. */
  lemma RenewHealthy(l: Link, probe: Probe, connect: Option<nat>)
    requires l.client.Some? && !l.client.value.closed && probe == PeerOk
    ensures l.jsonerrors < 4 ==> Renew(l, probe, connect) == (l, true)
    ensures l.jsonerrors >= 4 ==> Renew(l, probe, connect) == Reconnect(Some(Close(l.client.value)), connect)
  {
  }

  /** A peer that gives no address: nothing happens while at most two decodes
      have failed (and nothing is sent), afterwards the socket is replaced. */
  lemma RenewSilentPeer(l: Link, probe: Probe, connect: Option<nat>)
    requires l.client.Some? && !l.client.value.closed && probe == PeerNone
    ensures l.jsonerrors <= 2 ==> Renew(l, probe, connect) == (l, false)
    ensures l.jsonerrors > 2 ==> Renew(l, probe, connect) == Reconnect(Some(Close(l.client.value)), connect)
  {
  }

  /** A peer that raises, or a socket already closed, is always closed and
      replaced, whatever the error count. */
  lemma RenewBrokenPeer(l: Link, probe: Probe, connect: Option<nat>)
    requires l.client.Some? && Peer(l.client.value, probe) == PeerRaises
    ensures Renew(l, probe, connect) == Reconnect(Some(Close(l.client.value)), connect)
  {
  }

  /** Without a socket, and with the invariant, the first call connects. */
  lemma RenewFirstConnect(l: Link, probe: Probe, connect: Option<nat>)
    requires l.client.None? && LinkOk(l)
    ensures Renew(l, probe, connect) == Reconnect(None, connect)
  {
  }

  /** renewConnection keeps the invariant. */
  lemma RenewKeepsLinkOk(l: Link, probe: Probe, connect: Option<nat>)
    requires LinkOk(l)
    ensures LinkOk(Renew(l, probe, connect).0)
  {
  }

  // ---------------------------------------------------------------- decoding a status frame

  /** The sequence number after HandleStatus: derived from the echoed digits
      whenever the regular expression matched, even when the JSON then fails
      to decode; unchanged when it did not match. */
  function SequenceAfter(rx: Received, current: nat): (r: nat)
    ensures rx.NoMatch? ==> r == current
    ensures rx.Matched? ==> r <= 255 && r == NextSequence(Echoed(rx.numeral))
  {
    if rx.Matched? then NextSequence(Echoed(rx.numeral)) else current
  }

  /** The decoding of HandleStatus into a fresh snapshot st: Err when the
      regular expression does not match, when json.loads raises, or when
      the decoding raises. */
  function Decode(rx: Received, st: Status.StatusView): (r: Result<Status.StatusView>)
    ensures r.Ok? ==> rx.Matched? && rx.parsed.Some? && Status.DecodeStatus(rx.parsed.value, st) == r
  {
    match rx
    case NoMatch => Err
    case Matched(_, parsed) => if parsed.None? then Err else Status.DecodeStatus(parsed.value, st)
  }

  /** When the unit echoes the number of the frame just sent, the next frame
      carries that number plus one (0 after 255). */
  lemma EchoedFrame(sequence: nat, command: string, parsed: Option<seq<Json>>)
    requires sequence <= 255
    ensures var n := Frame(sequence, command)[1..7];
      && |n| == 6 && IsNumeral(n)
      && SequenceAfter(Matched(n, parsed), sequence) == if sequence < 255 then sequence + 1 else 0
  {
    FrameRoundTrip(sequence, command);
    FrameSequence(sequence, command);
    var n := Frame(sequence, command)[1..7];
    assert ParseInt(n) == Ok(Echoed(n));
  }

  /** The decoding half of HandleStatus: nothing when the regular
      expression did not match or json.loads raised, otherwise the parsed
      array decoded into the snapshot. */
  method DecodeFrame(rx: Received, snapshot: Status.BrivisStatus, ghost before: Status.StatusView) returns (ok: bool)
    requires snapshot.View() == before
    modifies snapshot, snapshot.heaterStatus, snapshot.coolingStatus, snapshot.evapStatus
    ensures ok == Decode(rx, before).Ok?
    ensures ok ==> Decode(rx, before) == Ok(snapshot.View())
  {
    if rx.NoMatch? || rx.parsed.None? {
      return false;
    }
    var r := Status.HandleMessage(rx.parsed.value, snapshot);
    ok := r.Ok?;
  }

  // ---------------------------------------------------------------- keep-alive and the hourly close

  /** The keep-alive step of GetStatus: the counter goes up by one, and when
      it passes 5 it restarts at 0 and "NA" is sent. */
  function Tick(n: nat): (r: (nat, bool))
    ensures r.0 <= 5
    ensures r.1 <==> n >= 5
    ensures r.1 ==> r.0 == 0
  {
    if n + 1 > 5 then (0, true) else (n + 1, false)
  }

  /** The counter after k calls of GetStatus on a new system. */
  function Count(k: nat): nat
    decreases k
  {
    if k == 0 then 0 else Tick(Count(k - 1)).0
  }

  /** The counter runs through 0..5, and the k-th call sends the keep-alive
      exactly when k is a multiple of 6: every sixth update. */
  lemma {:induction false} KeepAliveCycle(k: nat)
    ensures Count(k) == k % 6
    ensures k > 0 ==> (Tick(Count(k - 1)).1 <==> k % 6 == 0)
    decreases k
  {
    if k > 0 {
      KeepAliveCycle(k - 1);
      var q := (k - 1) / 6;
      assert k - 1 == 6 * q + Count(k - 1);
      if Count(k - 1) == 5 {
        assert k == 6 * (q + 1) + 0;
      } else {
        assert k == 6 * q + (Count(k - 1) + 1);
      }
    }
  }

  /** The hour rule of GetStatus on a clock value now: lastclosed is set to
      now the first time, and the socket is shut down once lastclosed is
      more than 3600 seconds old. */
  function HourlyClose(s: Socket, lastclosed: int, now: int): (r: (Socket, int))
  {
    var since := if lastclosed == 0 then now else lastclosed;
    if since + 3600 < now then (Close(s), now) else (s, since)
  }

  /** The socket is closed exactly when a close time has been recorded and
      is more than an hour before now; the first call only records now. */
  lemma HourlyCloseWhen(s: Socket, lastclosed: int, now: int)
    ensures HourlyClose(s, lastclosed, now).0
      == if lastclosed != 0 && lastclosed + 3600 < now then Close(s) else s
    ensures HourlyClose(s, lastclosed, now).1
      == if lastclosed == 0 || lastclosed + 3600 < now then now else lastclosed
  {
  }

  // ---------------------------------------------------------------- the client

  class RinnaiSystem {
    const touchIP: string
    var sendSequence: nat
    var lastupdated: int
    var status: Status.BrivisStatus
    var lastclosed: int
    var client: Option<Socket>
    var jsonerrors: nat
    var nosendupdates: nat
    var outbox: seq<string>
    const onUpdated: Events.Event

    /** The sequence number fits a byte, the keep-alive counter stays in
        0..5, and the connection invariant holds. */
    ghost predicate Valid()
      reads this
    {
      sendSequence <= 255 && nosendupdates <= 5 && LinkOk(Connection())
    }

    function Connection(): Link
      reads this
    {
      Link(client, jsonerrors)
    }

    function State(): Ledger
      reads this
    {
      Ledger(Connection(), sendSequence, nosendupdates, lastclosed, lastupdated, outbox)
    }

    /** A new system for ip_address, starting from the socket the shared
        clients table holds for that address (None for a new address). */
    constructor (ip: string, seed: Option<Socket>)
      ensures touchIP == ip && State() == Ledger(Link(seed, 0), 1, 0, 0, 0, [])
      ensures Valid()
      ensures fresh(status) && status.View() == Status.INITIAL_STATUS
      ensures fresh(onUpdated) && onUpdated.handlers == []
    {
      touchIP := ip;
      sendSequence := 1;
      lastupdated := 0;
      status := new Status.BrivisStatus();
      lastclosed := 0;
      client := seed;
      jsonerrors := 0;
      nosendupdates := 0;
      outbox := [];
      onUpdated := new Events.Event();
    }

    method Subscribe(handler: Option<Events.Handler>)
      modifies onUpdated
      ensures onUpdated.handlers == old(onUpdated.handlers) + [handler]
    {
      onUpdated.Add(handler);
    }

    /** Raises ValueError when the handler was never subscribed. */
    method Unsubscribe(handler: Option<Events.Handler>) returns (r: Result<()>)
      modifies onUpdated
      ensures r.Ok? <==> handler in old(onUpdated.handlers)
      ensures r.Ok? ==> var i := Events.FirstIndex(old(onUpdated.handlers), handler);
        onUpdated.handlers == old(onUpdated.handlers)[..i] + old(onUpdated.handlers)[i + 1..]
      ensures r.Err? ==> onUpdated.handlers == old(onUpdated.handlers)
    {
      r := onUpdated.Remove(handler);
    }

    method RenewConnection(probe: Probe, connect: Option<nat>) returns (ok: bool)
      modifies this
      ensures (Connection(), ok) == Renew(old(Connection()), probe, connect)
      ensures State() == old(State()).(conn := Connection()) && status == old(status)
    {
      var connectionError := false;
      if client.Some? {
        var peer := Peer(client.value, probe);
        if peer == PeerOk && jsonerrors < 4 {
          return true;
        }
        connectionError := peer == PeerRaises;
      }
      if client.None? || client.value.closed || connectionError || jsonerrors > 2 {
        if connectionError || jsonerrors > 2 {
          if client.None? {
            return false;
          }
          client := Some(Close(client.value));
        }
        jsonerrors := 0;
        if connect.None? {
          return false;
        }
        client := Some(Socket(connect.value, false));
        return true;
      }
      return false;
    }

    /** SendToTouch: sendall on the socket; raises without an open socket. */
    method Transmit(payload: string) returns (r: Result<()>)
      modifies this
      ensures r.Ok? <==> client.Some? && !client.value.closed
      ensures State() == old(State()).(outbox := if r.Ok? then old(outbox) + [payload] else old(outbox))
      ensures status == old(status)
    {
      if client.None? || client.value.closed {
        return Err;
      }
      outbox := outbox + [payload];
      r := Ok(());
    }

    /** HandleStatus on a status frame rx and a snapshot: the echoed number
        sets the next sequence number, the snapshot is decoded, and a
        failure counts one more decode error. */
    method HandleStatus(rx: Received, snapshot: Status.BrivisStatus, ghost before: Status.StatusView) returns (ok: bool)
      requires snapshot.View() == before
      modifies this, snapshot, snapshot.heaterStatus, snapshot.coolingStatus, snapshot.evapStatus
      ensures ok == Decode(rx, before).Ok?
      ensures ok ==> Decode(rx, before) == Ok(snapshot.View())
      ensures State() == old(State()).(sendSequence := SequenceAfter(rx, old(sendSequence)),
                                       conn := Link(old(client), old(jsonerrors) + if ok then 0 else 1))
      ensures status == old(status)
    {
      Resequence(rx);
      ok := DecodeFrame(rx, snapshot, before);
      CountDecode(ok);
    }

    /** The number the device echoes sets the next sequence number. */
    method Resequence(rx: Received)
      modifies this
      ensures State() == old(State()).(sendSequence := SequenceAfter(rx, old(sendSequence)))
      ensures status == old(status)
    {
      sendSequence := SequenceAfter(rx, sendSequence);
    }

    /** A failed decoding counts one more decode error. */
    method CountDecode(ok: bool)
      modifies this
      ensures State() == old(State()).(conn := Link(old(client), old(jsonerrors) + if ok then 0 else 1))
      ensures status == old(status)
    {
      jsonerrors := jsonerrors + if ok then 0 else 1;
    }

    /** A fresh BrivisStatus filled by HandleStatus replaces the stored one,
        and the subscribers are called, only when the decoding succeeded. */
    method Refresh(rx: Received) returns (updated: bool, called: seq<Events.Handler>)
      modifies this
      ensures updated == Decode(rx, Status.INITIAL_STATUS).Ok?
      ensures updated ==> fresh(status) && Decode(rx, Status.INITIAL_STATUS) == Ok(status.View())
      ensures !updated ==> status == old(status)
      ensures called == if updated then Events.Present(onUpdated.handlers) else []
      ensures State() == old(State()).(sendSequence := SequenceAfter(rx, old(sendSequence)),
                                       conn := Link(old(client), old(jsonerrors) + if updated then 0 else 1))
    {
      var snapshot := new Status.BrivisStatus();
      updated := HandleStatus(rx, snapshot, Status.INITIAL_STATUS);
      called := [];
      if updated {
        status := snapshot;
        called := onUpdated.Fire();
      }
    }

    /** sendCmd: renews the connection; when that succeeds, sends the frame
        "N" + the six-digit sequence number + cmd and decodes the reply. */
    method SendCmd(cmd: string, probe: Probe, connect: Option<nat>, rx: Received)
      returns (updated: bool, called: seq<Events.Handler>)
      requires Valid()
      modifies this
      ensures Valid()
      ensures var rn := Renew(old(Connection()), probe, connect);
        !rn.1 ==> State() == old(State()).(conn := rn.0) && status == old(status) && !updated && called == []
      ensures var rn := Renew(old(Connection()), probe, connect);
        rn.1 ==>
          && outbox == old(outbox) + [Frame(old(sendSequence), cmd)]
          && Unframe(outbox[|outbox| - 1]) == Some((old(sendSequence), cmd))
          && sendSequence == SequenceAfter(rx, old(sendSequence))
          && Connection() == rn.0.(jsonerrors := rn.0.jsonerrors + if updated then 0 else 1)
          && nosendupdates == old(nosendupdates) && lastclosed == old(lastclosed) && lastupdated == old(lastupdated)
      ensures updated <==> Renew(old(Connection()), probe, connect).1 && Decode(rx, Status.INITIAL_STATUS).Ok?
      ensures updated ==> fresh(status) && Decode(rx, Status.INITIAL_STATUS) == Ok(status.View())
      ensures !updated ==> status == old(status)
      ensures called == if updated then Events.Present(onUpdated.handlers) else []
    {
      RenewKeepsLinkOk(Connection(), probe, connect);
      var ok := RenewConnection(probe, connect);
      if !ok {
        return false, [];
      }
      FrameRoundTrip(sendSequence, cmd);
      var sent := Transmit(Frame(sendSequence, cmd));
      updated, called := Refresh(rx);
    }

    /** validate_and_send and the setters that format a template: the command
        is checked against the stored mode flags, and sent only when it
        passes. */
    method Request(op: Operation, probe: Probe, connect: Option<nat>, rx: Received)
      returns (accepted: bool, updated: bool, called: seq<Events.Handler>)
      requires Valid()
      modifies this
      ensures Valid()
      ensures accepted == ValidateCmd(CommandOf(op), old(status.heaterMode), old(status.coolingMode),
                                      old(status.evapMode))
      ensures !accepted ==> State() == old(State()) && status == old(status) && !updated && called == []
      ensures var rn := Renew(old(Connection()), probe, connect);
        accepted && rn.1 ==>
          && Sent(op).Ok? && outbox == old(outbox) + [Frame(old(sendSequence), Sent(op).value)]
          && sendSequence == SequenceAfter(rx, old(sendSequence))
          && Connection() == rn.0.(jsonerrors := rn.0.jsonerrors + if updated then 0 else 1)
          && nosendupdates == old(nosendupdates) && lastclosed == old(lastclosed) && lastupdated == old(lastupdated)
      ensures var rn := Renew(old(Connection()), probe, connect);
        accepted && !rn.1 ==> State() == old(State()).(conn := rn.0) && !updated
      ensures updated <==> accepted && Renew(old(Connection()), probe, connect).1 && Decode(rx, Status.INITIAL_STATUS).Ok?
      ensures updated ==> fresh(status) && Decode(rx, Status.INITIAL_STATUS) == Ok(status.View())
      ensures !updated ==> status == old(status)
      ensures called == if updated then Events.Present(onUpdated.handlers) else []
    {
      accepted := ValidateCmd(CommandOf(op), status.heaterMode, status.coolingMode, status.evapMode);
      if !accepted {
        return false, false, [];
      }
      SentRendered(op);
      updated, called := SendCmd(Sent(op).value, probe, connect, rx);
    }

    /** The keep-alive step of GetStatus; a failed send is swallowed. */
    method KeepAlive()
      modifies this
      ensures var t := Tick(old(nosendupdates));
        State() == old(State()).(nosendupdates := t.0,
          outbox := if t.1 && client.Some? && !client.value.closed then old(outbox) + ["NA"] else old(outbox))
      ensures status == old(status)
    {
      nosendupdates := nosendupdates + 1;
      if nosendupdates > 5 {
        nosendupdates := 0;
        var sent := Transmit("NA");
      }
    }

    /** The hour rule after a renewed connection. */
    method CloseHourly(now: int)
      requires client.Some?
      modifies this
      ensures client.Some? && (client.value, lastclosed) == HourlyClose(old(client).value, old(lastclosed), now)
      ensures State() == old(State()).(conn := Connection(), lastclosed := lastclosed)
      ensures jsonerrors == old(jsonerrors) && status == old(status)
    {
      if lastclosed == 0 {
        lastclosed := now;
      }
      if lastclosed + 3600 < now {
        client := Some(Close(client.value));
        lastclosed := now;
      }
    }

    /** GetStatus at clock value now: the keep-alive step, then, on a renewed
        connection, a fresh snapshot, the hour rule and lastupdated; the
        result is the stored status. */
    method GetStatus(probe: Probe, connect: Option<nat>, rx: Received, now: int)
      returns (r: Status.BrivisStatus, updated: bool, called: seq<Events.Handler>)
      requires Valid()
      modifies this
      ensures Valid()
      ensures r == status
      ensures nosendupdates == Tick(old(nosendupdates)).0
      ensures outbox == old(outbox) + if Tick(old(nosendupdates)).1 && old(client).Some? && !old(client).value.closed
                                     then ["NA"] else []
      ensures var rn := Renew(old(Connection()), probe, connect);
        !rn.1 ==> client == rn.0.client && jsonerrors == rn.0.jsonerrors && sendSequence == old(sendSequence)
                  && lastclosed == old(lastclosed) && lastupdated == old(lastupdated)
      ensures var rn := Renew(old(Connection()), probe, connect);
        rn.1 ==> sendSequence == SequenceAfter(rx, old(sendSequence)) && lastupdated == now
                 && jsonerrors == rn.0.jsonerrors + (if updated then 0 else 1)
                 && client.Some? && (client.value, lastclosed) == HourlyClose(rn.0.client.value, old(lastclosed), now)
      ensures updated <==> Renew(old(Connection()), probe, connect).1 && Decode(rx, Status.INITIAL_STATUS).Ok?
      ensures updated ==> fresh(status) && Decode(rx, Status.INITIAL_STATUS) == Ok(status.View())
      ensures !updated ==> status == old(status)
      ensures called == if updated then Events.Present(onUpdated.handlers) else []
    {
      KeepAlive();
      RenewKeepsLinkOk(Connection(), probe, connect);
      var ok := RenewConnection(probe, connect);
      updated, called := false, [];
      if ok {
        updated, called := Update(rx, now);
      }
      r := status;
    }

    /** The part of GetStatus after a successful renewal: decode the frame,
        apply the hourly close and record the update time. */
    method Update(rx: Received, now: int) returns (updated: bool, called: seq<Events.Handler>)
      requires client.Some?
      modifies this
      ensures updated == Decode(rx, Status.INITIAL_STATUS).Ok?
      ensures updated ==> fresh(status) && Decode(rx, Status.INITIAL_STATUS) == Ok(status.View())
      ensures !updated ==> status == old(status)
      ensures called == if updated then Events.Present(onUpdated.handlers) else []
      ensures sendSequence == SequenceAfter(rx, old(sendSequence)) && lastupdated == now
      ensures jsonerrors == old(jsonerrors) + (if updated then 0 else 1)
      ensures client.Some? && (client.value, lastclosed) == HourlyClose(old(client).value, old(lastclosed), now)
      ensures nosendupdates == old(nosendupdates) && outbox == old(outbox)
    {
      updated, called := Refresh(rx);
      CloseHourly(now);
      lastupdated := now;
    }
  }

  // ---------------------------------------------------------------- the registry

  /** The class-level tables: one RinnaiSystem per address, and the socket
      last recorded for each address. */
  class Registry {
    var instances: map<string, RinnaiSystem>
    var clients: map<string, Option<Socket>>

    /** Every instance is filed under its own address, which also has an
        entry in the socket table. */
    ghost predicate Valid()
      reads this
    {
      forall ip :: ip in instances ==> instances[ip].touchIP == ip && ip in clients
    }

    constructor ()
      ensures instances == map[] && clients == map[] && Valid()
    {
      instances := map[];
      clients := map[];
    }

    /** RinnaiSystem(ip_address): a new system seeded with the socket recorded
        for the address, recorded as the address's instance. */
    method Construct(ip: string) returns (s: RinnaiSystem)
      requires Valid()
      modifies this
      ensures Valid() && fresh(s) && s.touchIP == ip && s.Valid()
      ensures s.Connection() == Link(if ip in old(clients) then old(clients)[ip] else None, 0)
      ensures instances == old(instances)[ip := s]
      ensures clients == if ip in old(clients) then old(clients) else old(clients)[ip := None]
    {
      var seed := if ip in clients then clients[ip] else None;
      s := new RinnaiSystem(ip, seed);
      if ip !in clients {
        clients := clients[ip := None];
      }
      instances := instances[ip := s];
    }

    /** getInstance: the system already filed under the address, or a new one. */
    method GetInstance(ip: string) returns (s: RinnaiSystem)
      requires Valid()
      modifies this
      ensures Valid() && ip in instances && instances[ip] == s && s.touchIP == ip
      ensures ip in old(instances) ==> s == old(instances)[ip] && instances == old(instances) && clients == old(clients)
      ensures ip !in old(instances) ==> fresh(s) && instances == old(instances)[ip := s]
    {
      if ip in instances {
        return instances[ip];
      }
      s := Construct(ip);
    }
  }
}
