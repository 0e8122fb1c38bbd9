/**
 * lib/udp.js: a UDP socket relaying one serial device. A peer becomes a
 * client by sending a datagram; bytes from the device are sent to every
 * client learnt so far, datagrams from any peer are written to the device.
 */
module Udp {
  import opened Common
  import opened Config
  import opened Util
  import opened Relay

  /** One `server.send(data, 0, data.length, client.port, client.address)`. */
  datatype Datagram = Datagram(to: Remote, data: seq<Byte>)

  /**
   * The `clients` dictionary together with `Object.keys(clients)`, its keys in
   * insertion order: no key twice, the same keys as the dictionary, and each
   * client stored under its own `address:port`.
   */
  predicate Registered(keys: seq<string>, clients: map<string, Remote>) {
    && Distinct(keys)
    && (forall i | 0 <= i < |keys| :: keys[i] in clients)
    && (forall k | k in clients :: k in keys)
    && (forall k | k in clients :: EndpointKey(clients[k]) == k)
  }

  /** What one serial chunk sends: the chunk once to each client, in key order. */
  function Datagrams(keys: seq<string>, clients: map<string, Remote>, data: seq<Byte>): (r: seq<Datagram>)
    requires forall i | 0 <= i < |keys| :: keys[i] in clients
    ensures |r| == |keys|
    ensures forall i | 0 <= i < |keys| :: r[i] == Datagram(clients[keys[i]], data)
  {
    seq(|keys|, i requires 0 <= i < |keys| => Datagram(clients[keys[i]], data))
  }

  /**
   * Every registered client gets each serial chunk exactly once, and no
   * other peer gets it.
   */
  lemma EachClientOnce(keys: seq<string>, clients: map<string, Remote>, data: seq<Byte>, peer: Remote)
    requires Registered(keys, clients)
    ensures multiset(Datagrams(keys, clients, data))[Datagram(peer, data)] ==
      if peer in clients.Values then 1 else 0
  {
    var r := Datagrams(keys, clients, data);
    assert Distinct(r) by {
      forall i, j | 0 <= i < j < |r|
        ensures r[i] != r[j]
      {
        assert EndpointKey(r[i].to) == keys[i] != keys[j] == EndpointKey(r[j].to);
      }
    }
    DistinctOccursOnce(r, Datagram(peer, data));
    if peer in clients.Values {
      var k :| k in clients && clients[k] == peer;
      var i :| 0 <= i < |keys| && keys[i] == k;
      assert r[i] == Datagram(peer, data);
    } else {
      assert Datagram(peer, data) !in r;
    }
  }

  /** The relay: its device (with the event table) and the learnt clients. */
  class UdpRelay {
    const device: Device<Remote>
    var keys: seq<string>
    var clients: map<string, Remote>
    var sent: seq<Datagram>

    ghost predicate Valid()
      reads this, device, device.emitter
    {
      device.Valid() && Registered(keys, clients)
    }

    constructor (startup: Startup, cli: bool)
      ensures Valid() && fresh(device) && fresh(device.emitter)
      ensures device.portname == startup.portname && device.options == startup.options
      ensures device.cli == cli && !device.isOpen && device.written == []
      ensures device.emitter.events == map[] && device.emitter.calls == []
      ensures keys == [] && clients == map[] && sent == []
    {
      device := new Device<Remote>(startup, cli);
      keys := [];
      clients := map[];
      sent := [];
    }

    /**
     * A datagram: its sender is registered under `address:port` unless that
     * key is already present, `write` is emitted, and the identical bytes go
     * to the device. The dictionary only grows, and always holds the sender.
     */
    method OnMessage(message: seq<Byte>, remote: Remote)
      requires Valid()
      modifies this`keys, this`clients, device`written, device.emitter`calls
      ensures Valid()
      ensures old(EndpointKey(remote) in clients) ==> clients == old(clients) && keys == old(keys)
      ensures old(EndpointKey(remote) !in clients) ==>
        clients == old(clients)[EndpointKey(remote) := remote] && keys == old(keys) + [EndpointKey(remote)]
      ensures EndpointKey(remote) in clients && clients[EndpointKey(remote)] == remote
      ensures forall k | k in old(clients) :: k in clients && clients[k] == old(clients)[k]
      ensures device.written == old(device.written) + [message]
      ensures device.emitter.calls == old(device.emitter.calls) +
        if "write" in device.emitter.events
        then [Call(device.emitter.events["write"], WriteEvent(device.portname, remote, message))] else []
    {
      var key := EndpointKey(remote);
      if key !in clients {
        clients := clients[key := remote];
        keys := keys + [key];
      } else {
        EndpointKeyInjective(clients[key], remote);
      }
      device.Forward(remote, message);
    }

    /**
     * Serial data: `read` is emitted, then the identical bytes are sent to
     * each key of `Object.keys(clients)` in turn.
     */
    method OnSerialData(data: seq<Byte>)
      requires Valid()
      modifies this`sent, device.emitter`calls
      ensures Valid()
      ensures sent == old(sent) + Datagrams(keys, clients, data)
      ensures device.emitter.calls == old(device.emitter.calls) +
        if "read" in device.emitter.events
        then [Call(device.emitter.events["read"], ReadEvent(device.portname, data))] else []
    {
      device.Received(data);
      var names := keys;
      var i := 0;
      while i < |names|
        modifies this`sent
        invariant 0 <= i <= |names|
        invariant sent == old(sent) + Datagrams(names[..i], clients, data)
      {
        var client := clients[names[i]];
        assert Datagrams(names[..i + 1], clients, data) == Datagrams(names[..i], clients, data) + [Datagram(client, data)];
        sent := sent + [Datagram(client, data)];
        i := i + 1;
      }
      assert names[..i] == keys;
    }
  }

  /** `require('./lib/udp.js')(config)`: the checks, then a relay with no clients. */
  method StartUdp(cfg: Option<Config>) returns (r: Result<UdpRelay, StartError>)
    ensures Validate(cfg).Failure? ==> r == Failure(Validate(cfg).error)
    ensures Validate(cfg).Success? ==>
      && r.Success? && fresh(r.value) && r.value.Valid()
      && r.value.device.portname == Validate(cfg).value.portname
      && r.value.device.options == Validate(cfg).value.options
      && r.value.device.cli == cfg.value.cli
      && r.value.clients == map[] && r.value.sent == [] && !r.value.device.isOpen
  {
    var v := Validate(cfg);
    if v.Failure? {
      return Failure(v.error);
    }
    var relay := new UdpRelay(v.value, cfg.value.cli);
    r := Success(relay);
  }
}
