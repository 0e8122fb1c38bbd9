/**
 * lib/tcp.js: a TCP server relaying one serial device. Every connected
 * socket is kept in `clients`; bytes from the device are broadcast to all
 * of them, bytes from any of them are written to the device.
 */
module Tcp {
  import opened Common
  import opened Config
  import opened Util
  import opened Relay

  /** A connected socket: its identity and `socket.name`. */
  datatype Socket = Socket(id: nat, name: string)

  /** One `client.write(message)`. */
  datatype Send = Send(to: Socket, data: seq<Byte>)

  /** What `broadcast` writes: the message once to each client, in list order. */
  function Sends(clients: seq<Socket>, message: seq<Byte>): (r: seq<Send>)
    ensures |r| == |clients|
    ensures forall i | 0 <= i < |clients| :: r[i] == Send(clients[i], message)
  {
    seq(|clients|, i requires 0 <= i < |clients| => Send(clients[i], message))
  }

  /**
   * Every connected socket gets each broadcast exactly once, and no other
   * socket gets it.
   */
  lemma BroadcastReachesEachOnce(clients: seq<Socket>, message: seq<Byte>, c: Socket)
    requires Distinct(clients)
    ensures multiset(Sends(clients, message))[Send(c, message)] == if c in clients then 1 else 0
  {
    var r := Sends(clients, message);
    assert Distinct(r);
    DistinctOccursOnce(r, Send(c, message));
    if c in clients {
      var k :| 0 <= k < |clients| && clients[k] == c;
      assert r[k] == Send(c, message);
    } else {
      assert Send(c, message) !in r;
    }
  }

  /** Removing with `splice(indexOf(x), 1)` never creates a repetition. */
  lemma SpliceKeepsDistinct(s: seq<Socket>, start: int)
    requires Distinct(s)
    ensures Distinct(SpliceOne(s, start))
  {
    var r := SpliceOne(s, start);
    var k := if start < 0 then (if |s| + start < 0 then 0 else |s| + start)
             else (if start > |s| then |s| else start);
    if k < |s| {
      assert r == s[..k] + s[k + 1..];
      forall i, j | 0 <= i < j < |r|
        ensures r[i] != r[j]
      {
        var i' := if i < k then i else i + 1;
        var j' := if j < k then j else j + 1;
        assert r[i] == s[i'] && r[j] == s[j'];
      }
    }
  }

  /**
   * When a connected socket ends, exactly that socket leaves the list and
   * the others keep their order.
   */
  lemma EndRemovesSocket(s: seq<Socket>, x: Socket)
    requires Distinct(s) && x in s
    ensures var r := SpliceOne(s, FirstIndex(s, x));
      && x !in r
      && multiset(r) == multiset(s) - multiset{x}
      && exists k | 0 <= k < |s| :: s[k] == x && r == s[..k] + s[k + 1..]
  {
    var k := FirstIndex(s, x);
    var r := SpliceOne(s, k);
    assert r == s[..k] + s[k + 1..];
    assert s == s[..k] + [x] + s[k + 1..];
    assert x !in s[k + 1..] by {
      forall j | k + 1 <= j < |s|
        ensures s[j] != x
      {
        assert s[k] != s[j];
      }
    }
  }

  /** `end` for a socket that is not in the list removes the last one instead. */
  lemma EndOfUnknownSocket(s: seq<Socket>, x: Socket)
    requires x !in s && s != []
    ensures SpliceOne(s, FirstIndex(s, x)) == s[..|s| - 1]
  {
  }

  /** The relay: its device (with the event table) and the connected sockets. */
  class TcpRelay {
    const device: Device<Socket>
    var clients: seq<Socket>
    var sent: seq<Send>

    ghost predicate Valid()
      reads this, device, device.emitter
    {
      device.Valid() && Distinct(clients)
    }

    constructor (startup: Startup, cli: bool)
      ensures Valid() && fresh(device) && fresh(device.emitter)
      ensures device.portname == startup.portname && device.options == startup.options
      ensures device.cli == cli && !device.isOpen && device.written == []
      ensures device.emitter.events == map[] && device.emitter.calls == []
      ensures clients == [] && sent == []
    {
      device := new Device<Socket>(startup, cli);
      clients := [];
      sent := [];
    }

    /**
     * A connection: the socket, named after its remote endpoint, is appended
     * to `clients`, then `client connected` is emitted. A connection is a new
     * socket, so it is not in the list yet.
     */
    method OnConnect(id: nat, remote: Remote) returns (socket: Socket)
      requires Valid()
      requires forall c | c in clients :: c.id != id
      modifies this`clients, device.emitter`calls
      ensures Valid()
      ensures socket == Socket(id, EndpointKey(remote))
      ensures clients == old(clients) + [socket]
      ensures device.emitter.calls == old(device.emitter.calls) +
        if "client connected" in device.emitter.events
        then [Call(device.emitter.events["client connected"], ClientConnected(device.portname, socket))] else []
    {
      socket := Socket(id, EndpointKey(remote));
      clients := clients + [socket];
      device.emitter.Emit("client connected", ClientConnected(device.portname, socket));
    }

    /** `end`: `client disconnected` is emitted, then `splice(indexOf(socket), 1)`. */
    method OnEnd(socket: Socket)
      requires Valid()
      modifies this`clients, device.emitter`calls
      ensures Valid()
      ensures clients == SpliceOne(old(clients), FirstIndex(old(clients), socket))
      ensures device.emitter.calls == old(device.emitter.calls) +
        if "client disconnected" in device.emitter.events
        then [Call(device.emitter.events["client disconnected"], ClientDisconnected(device.portname, socket))] else []
    {
      device.emitter.Emit("client disconnected", ClientDisconnected(device.portname, socket));
      SpliceKeepsDistinct(clients, FirstIndex(clients, socket));
      clients := SpliceOne(clients, FirstIndex(clients, socket));
    }

    /** `broadcast(message)`: `clients.forEach(client => client.write(message))`. */
    method Broadcast(message: seq<Byte>)
      modifies this`sent
      ensures sent == old(sent) + Sends(clients, message)
    {
      for i := 0 to |clients|
        invariant sent == old(sent) + Sends(clients[..i], message)
      {
        assert Sends(clients[..i + 1], message) == Sends(clients[..i], message) + [Send(clients[i], message)];
        sent := sent + [Send(clients[i], message)];
      }
      assert clients[..|clients|] == clients;
    }

    /** Serial data: `read` is emitted, then the identical bytes are broadcast. */
    method OnSerialData(data: seq<Byte>)
      requires Valid()
      modifies this`sent, device.emitter`calls
      ensures Valid()
      ensures sent == old(sent) + Sends(clients, data)
      ensures device.emitter.calls == old(device.emitter.calls) +
        if "read" in device.emitter.events
        then [Call(device.emitter.events["read"], ReadEvent(device.portname, data))] else []
    {
      device.Received(data);
      Broadcast(data);
    }

    /** Client data: `write` is emitted, then the identical bytes go to the device. */
    method OnClientData(socket: Socket, data: seq<Byte>)
      requires Valid()
      modifies device`written, device.emitter`calls
      ensures Valid()
      ensures device.written == old(device.written) + [data]
      ensures device.emitter.calls == old(device.emitter.calls) +
        if "write" in device.emitter.events
        then [Call(device.emitter.events["write"], WriteEvent(device.portname, socket, data))] else []
    {
      device.Forward(socket, data);
    }
  }

  /** `require('./lib/tcp.js')(config)`: the checks, then a relay with no clients. */
  method StartTcp(cfg: Option<Config>) returns (r: Result<TcpRelay, StartError>)
    ensures Validate(cfg).Failure? ==> r == Failure(Validate(cfg).error)
    ensures Validate(cfg).Success? ==>
      && r.Success? && fresh(r.value) && r.value.Valid()
      && r.value.device.portname == Validate(cfg).value.portname
      && r.value.device.options == Validate(cfg).value.options
      && r.value.device.cli == cfg.value.cli
      && r.value.clients == [] && r.value.sent == [] && !r.value.device.isOpen
  {
    var v := Validate(cfg);
    if v.Failure? {
      return Failure(v.error);
    }
    var relay := new TcpRelay(v.value, cfg.value.cli);
    r := Success(relay);
  }
}
