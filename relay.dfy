/**
 * What lib/tcp.js and lib/udp.js share: the configuration check each makes
 * before it starts, the serial device a relay drives, the events a relay
 * emits, and the `address:port` names it gives its peers.
 */
module Relay {
  import opened Common
  import opened Config
  import opened Util

  // ---------------------------------------------------------------------
  // Peers
  // ---------------------------------------------------------------------

  /** A peer's address and port, as `socket.remoteAddress/remotePort` or `rinfo`. */
  datatype Remote = Remote(address: string, port: nat)

  /** `address + ":" + port`. */
  function EndpointKey(r: Remote): string {
    r.address + ":" + NatToString(r.port)
  }

  /**
   * A key splits back into its peer: the address is everything before the
   * last colon, and `parseInt` of the rest is the port.
   */
  lemma EndpointKeySplits(r: Remote)
    ensures LastIndex(EndpointKey(r), ':') == |r.address|
    ensures EndpointKey(r)[..|r.address|] == r.address
    ensures ParseInt(EndpointKey(r)[|r.address| + 1..]) == Some(r.port)
  {
    EndpointKeyParts(r);
    ParseIntNatToString(r.port);
  }

  lemma EndpointKeyParts(r: Remote)
    ensures LastIndex(EndpointKey(r), ':') == |r.address|
    ensures EndpointKey(r)[..|r.address|] == r.address
    ensures EndpointKey(r)[|r.address| + 1..] == NatToString(r.port)
  {
    NoColonInNumeral(r.port);
    LastIndexBeforeSuffix(r.address, NatToString(r.port), ':');
  }

  lemma NoColonInNumeral(n: nat)
    ensures ':' !in NatToString(n)
  {
    var d := NatToString(n);
    forall k | 0 <= k < |d|
      ensures d[k] != ':'
    {
      assert IsDigit(d[k]);
    }
  }

  /** The position of the last `c` in `s`, or -1. */
  function LastIndex(s: string, c: char): int
    decreases |s|
  {
    if s == [] then -1
    else if s[|s| - 1] == c then |s| - 1
    else LastIndex(s[..|s| - 1], c)
  }

  lemma {:induction false} LastIndexBeforeSuffix(x: string, d: string, c: char)
    requires c !in d
    ensures LastIndex(x + [c] + d, c) == |x|
    decreases |d|
  {
    var s := x + [c] + d;
    if d != [] {
      assert s[..|s| - 1] == x + [c] + d[..|d| - 1];
      assert s[|s| - 1] == d[|d| - 1];
      LastIndexBeforeSuffix(x, d[..|d| - 1], c);
    } else {
      assert s[|s| - 1] == c;
    }
  }

  /**
   * Different peers get different keys, even when addresses contain colons
   * (IPv6): the port is the part after the last colon.
   */
  lemma EndpointKeyInjective(a: Remote, b: Remote)
    requires EndpointKey(a) == EndpointKey(b)
    ensures a == b
  {
    var key := EndpointKey(a);
    NoColonInNumeral(a.port);
    NoColonInNumeral(b.port);
    LastIndexBeforeSuffix(a.address, NatToString(a.port), ':');
    LastIndexBeforeSuffix(b.address, NatToString(b.port), ':');
    assert a.address == key[..|a.address|] == b.address;
    assert NatToString(a.port) == key[|a.address| + 1..] == NatToString(b.port);
    NatToStringInjective(a.port, b.port);
  }

  // ---------------------------------------------------------------------
  // Start-up
  // ---------------------------------------------------------------------

  datatype StartError = MissingConfig | MissingPortNumber | MissingPortName

  /** The device name and the options the device is created with. */
  datatype Startup = Startup(portname: string, options: SerialOptions)

  /**
   * The checks at the top of both relays, in order: a config, a port number
   * above 0, a non-empty serial port name. The options default to `{ }` and
   * get `autoOpen: false`.
   */
  function Validate(cfg: Option<Config>): (r: Result<Startup, StartError>)
    ensures cfg.None? ==> r == Failure(MissingConfig)
    ensures cfg.Some? && cfg.value.port <= 0 ==> r == Failure(MissingPortNumber)
    ensures cfg.Some? && cfg.value.port > 0 && cfg.value.portname.GetOr("") == "" ==> r == Failure(MissingPortName)
    ensures r.Success? <==> cfg.Some? && cfg.value.port > 0 && cfg.value.portname.GetOr("") != ""
    ensures r.Success? ==> r.value.portname == cfg.value.portname.value
    ensures r.Success? ==> r.value.options.autoOpen == Some(false)
    ensures r.Success? && cfg.value.options.Some? ==>
      r.value.options == cfg.value.options.value.(autoOpen := Some(false))
    ensures r.Success? && cfg.value.options.None? ==> r.value.options == NoOptions.(autoOpen := Some(false))
  {
    if cfg.None? then Failure(MissingConfig)
    else if !(cfg.value.port > 0) then Failure(MissingPortNumber)
    else if cfg.value.portname.None? || cfg.value.portname.value == "" then Failure(MissingPortName)
    else Success(Startup(cfg.value.portname.value, cfg.value.options.GetOr(NoOptions).(autoOpen := Some(false))))
  }

  // ---------------------------------------------------------------------
  // Events and the device
  // ---------------------------------------------------------------------

  /** The payloads a relay emits; `C` is how the transport knows a peer. */
  datatype RelayEvent<C> =
    | ClientConnected(port: string, client: C)
    | ClientDisconnected(port: string, client: C)
    | WriteEvent(port: string, client: C, data: seq<Byte>)
    | ReadEvent(port: string, data: seq<Byte>)
    | OpenEvent(port: string, options: SerialOptions)
    | ErrorEvent(port: string)

  /**
   * The relay's serial device `sp` and its event table: the options object
   * it shares with `config.options`, whether it is open, and the chunks
   * handed to `sp.write`.
   */
  class Device<C> {
    const portname: string
    const cli: bool
    var options: SerialOptions
    var isOpen: bool
    var written: seq<seq<Byte>>
    const emitter: Emitter<RelayEvent<C>>

    ghost predicate Valid()
      reads this, emitter
    {
      emitter.installed
    }

    /** `new SerialPort(config.portname, config.options)` and a fresh `emitter`. */
    constructor (startup: Startup, cli: bool)
      ensures Valid() && fresh(emitter)
      ensures portname == startup.portname && options == startup.options && this.cli == cli
      ensures !isOpen && written == [] && emitter.events == map[] && emitter.calls == []
    {
      portname := startup.portname;
      this.cli := cli;
      options := startup.options;
      isOpen := false;
      written := [];
      var e := new Emitter<RelayEvent<C>>();
      e.AddEventEmitter();
      emitter := e;
    }

    /**
     * The device reports `open`: `autoOpen` is deleted from the options and
     * `open` is emitted with what is left.
     */
    method Opened()
      requires Valid()
      modifies this`options, this`isOpen, emitter`calls
      ensures Valid() && isOpen
      ensures options == old(options).(autoOpen := None)
      ensures emitter.calls == old(emitter.calls) +
        if "open" in emitter.events then [Call(emitter.events["open"], OpenEvent(portname, options))] else []
    {
      options := options.(autoOpen := None);
      isOpen := true;
      emitter.Emit("open", OpenEvent(portname, options));
    }

    /**
     * The open callback reports an error: `error` is emitted, and a process
     * started from the command line exits with status 1.
     */
    method OpenFailed() returns (exit: Option<int>)
      requires Valid()
      modifies emitter`calls
      ensures Valid()
      ensures exit == if cli then Some(1) else None
      ensures emitter.calls == old(emitter.calls) +
        if "error" in emitter.events then [Call(emitter.events["error"], ErrorEvent(portname))] else []
    {
      emitter.Emit("error", ErrorEvent(portname));
      exit := if cli then Some(1) else None;
    }

    /** Bytes from a peer: `write` is emitted, then the same bytes go to the device. */
    method Forward(client: C, data: seq<Byte>)
      requires Valid()
      modifies this`written, emitter`calls
      ensures Valid()
      ensures written == old(written) + [data]
      ensures emitter.calls == old(emitter.calls) +
        if "write" in emitter.events then [Call(emitter.events["write"], WriteEvent(portname, client, data))] else []
    {
      emitter.Emit("write", WriteEvent(portname, client, data));
      written := written + [data];
    }

    /** Bytes from the device: `read` is emitted before they are sent on. */
    method Received(data: seq<Byte>)
      requires Valid()
      modifies emitter`calls
      ensures Valid()
      ensures emitter.calls == old(emitter.calls) +
        if "read" in emitter.events then [Call(emitter.events["read"], ReadEvent(portname, data))] else []
    {
      emitter.Emit("read", ReadEvent(portname, data));
    }
  }

  // ---------------------------------------------------------------------
  // Sends
  // ---------------------------------------------------------------------

  /** No element occurs twice. */
  predicate Distinct<T(==)>(s: seq<T>) {
    forall i, j | 0 <= i < j < |s| :: s[i] != s[j]
  }

  /** In a sequence without repetitions, each element occurs exactly once. */
  lemma {:induction false} DistinctOccursOnce<T>(s: seq<T>, x: T)
    requires Distinct(s)
    ensures multiset(s)[x] == if x in s then 1 else 0
  {
    if s != [] {
      assert s == [s[0]] + s[1..];
      assert Distinct(s[1..]);
      assert s[0] !in s[1..];
      DistinctOccursOnce(s[1..], x);
    }
  }
}
