/**
 * lib/webserver.js: the serial port manager `spm`, mapping canonical port
 * names to port records, and the REST handlers that open and close ports,
 * write to them, and drain, clear and inspect their receive buffers.
 *
 * Each handler's `sem_read`/`sem_write` critical section is one atomic
 * method here. The serial device is reduced to the `deviceOpen` flag of its
 * record and the log of chunks handed to its `write`; whether the device
 * opens, closes or writes successfully is an input.
 */
module WebServer {
  import opened Common
  import opened Config
  import opened Util

  /** The fixed size of every port's receive buffer. */
  const RxCapacity: nat := 65535

  /** A connected WebSocket client, known by an opaque identity. */
  type WebSocketId = nat

  // ---------------------------------------------------------------------
  // The receive buffer, as a value
  // ---------------------------------------------------------------------

  /** The receive buffer of a port: `rxbuffer`, `rxindex` and `rxoverflow`. */
  datatype RxState = RxState(buffer: seq<Byte>, index: nat, overflow: bool)

  /**
   * The buffer invariant: the fill index stays within the capacity, and the
   * flag is only ever up while the buffer is full.
   */
  predicate Consistent(s: RxState) {
    s.index <= |s.buffer| && (s.overflow ==> s.index == |s.buffer|)
  }

  /** The bytes received since the last drain or clear. */
  function Contents(s: RxState): seq<Byte>
    requires s.index <= |s.buffer|
  {
    s.buffer[..s.index]
  }

  /**
   * The `data` listener's critical section: copy as much of the chunk as
   * fits at the fill index, discard the rest, and record in the flag whether
   * this chunk (and only this chunk) did not fit.
   */
  function Appended(s: RxState, data: seq<Byte>): (t: RxState)
    requires s.index <= |s.buffer|
    ensures |t.buffer| == |s.buffer|
    ensures t.index == s.index + Min(|data|, |s.buffer| - s.index) <= |t.buffer|
    ensures t.buffer[..s.index] == s.buffer[..s.index]
    ensures t.buffer[s.index..t.index] == data[..t.index - s.index]
    ensures t.buffer[t.index..] == s.buffer[t.index..]
    ensures t.overflow <==> s.index == |s.buffer| || |data| > |s.buffer| - s.index
  {
    var position := s.index;
    var overflow := position >= |s.buffer|;
    var length := if overflow then 0 else Min(|data|, |s.buffer| - position);
    var overflow' := overflow || |data| > |s.buffer| - position;
    var t := RxState(s.buffer[..position] + data[..length] + s.buffer[position + length..],
                     position + length, overflow');
    assert t.buffer[position..t.index] == data[..length];
    t
  }

  /**
   * How many bytes `GET read` returns: the number `take` asks for (the whole
   * capacity when it is absent or 0, as `take || rxcapacity` has it), but
   * never more than have been received.
   */
  function TakeCount(s: RxState, take: Option<nat>): nat {
    var t := if take.None? || take.value == 0 then |s.buffer| else take.value;
    if t > s.index then s.index else t
  }

  function Zeros(n: nat): (z: seq<Byte>)
    ensures |z| == n && forall k | 0 <= k < n :: z[k] == 0
  {
    seq(n, _ => 0)
  }

  /** `rxbuffer.fill(0)`, `rxoverflow = false`, `rxindex = 0`. */
  function Cleared(s: RxState): (t: RxState)
    ensures Consistent(t) && |t.buffer| == |s.buffer|
    ensures t.index == 0 && !t.overflow && Contents(t) == []
    ensures forall k | 0 <= k < |t.buffer| :: t.buffer[k] == 0
  {
    RxState(Zeros(|s.buffer|), 0, false)
  }

  /**
   * `GET read`'s critical section: the first `TakeCount` received bytes are
   * returned, and the whole buffer is cleared, including any received bytes
   * beyond them.
   */
  function Drained(s: RxState, take: Option<nat>): (r: (seq<Byte>, RxState))
    requires s.index <= |s.buffer|
    ensures take.None? || take == Some(0) ==> r.0 == Contents(s)
    ensures take.Some? && take.value > 0 ==> |r.0| == Min(take.value, s.index)
    ensures r.0 == Contents(s)[..|r.0|]
    ensures r.1 == Cleared(s)
  {
    (s.buffer[..TakeCount(s, take)], Cleared(s))
  }

  /** The bytes of a string of decimal digits, as `new Buffer(string)` encodes them. */
  function DigitBytes(t: string): (b: seq<Byte>)
    requires forall k | 0 <= k < |t| :: IsDigit(t[k])
    ensures |b| == |t| && forall k | 0 <= k < |t| :: b[k] as int == t[k] as int
  {
    seq(|t|, k requires 0 <= k < |t| && IsDigit(t[k]) => t[k] as int as Byte)
  }

  /**
   * `GET read` as lib/webserver.js:271-281 is written, for a `take` query of
   * decimal digits. `req.query.take` is a string: an empty one gives way to
   * the capacity and one whose value exceeds `rxindex` is replaced by that
   * number, but any other reaches `new Buffer(take)` as a string, which
   * holds the string's own bytes; `copy(data, 0, 0, take)` then overwrites
   * as many of them as both lengths allow.
   */
  function DrainedAsWritten(s: RxState, take: string): (r: (seq<Byte>, RxState))
    requires s.index <= |s.buffer|
    requires forall k | 0 <= k < |take| :: IsDigit(take[k])
    ensures take == "" ==> r == Drained(s, None)
    ensures take != "" && DigitsValue(take, 10) > s.index ==> r.0 == Contents(s)
    ensures take != "" && DigitsValue(take, 10) <= s.index ==>
      && |r.0| == |take|
      && r.0[..Min(|take|, DigitsValue(take, 10))] == Contents(s)[..Min(|take|, DigitsValue(take, 10))]
      && r.0[Min(|take|, DigitsValue(take, 10))..] == DigitBytes(take)[Min(|take|, DigitsValue(take, 10))..]
    ensures r.1 == Cleared(s)
  {
    if take == "" then Drained(s, None)
    else
      var n := DigitsValue(take, 10);
      if n > s.index then (s.buffer[..s.index], Cleared(s))
      else
        var m := Min(|take|, n);
        (s.buffer[..m] + DigitBytes(take)[m..], Cleared(s))
  }

  /**
   * With ten bytes received, `?take=10` returns two bytes and `?take=0`
   * returns the character '0' itself, where the evident intent is ten bytes
   * and every received byte.
   */
  lemma TakeStringFinding(b: seq<Byte>)
    requires |b| == RxCapacity
    ensures var s := RxState(b, 10, false);
      && |DrainedAsWritten(s, "10").0| == 2 && |Drained(s, Some(10)).0| == 10
      && DrainedAsWritten(s, "0").0 == ['0' as int as Byte] && Drained(s, Some(0)).0 == b[..10]
  {
    var s := RxState(b, 10, false);
    assert DigitsValue("10", 10) == 10 by {
      assert "10"[..1] == "1" && "1"[..0] == "";
    }
    assert DigitsValue("0", 10) == 0 by {
      assert "0"[..0] == "";
    }
    assert DrainedAsWritten(s, "0").0 == b[..0] + DigitBytes("0")[0..];
  }

  /** Appending keeps the buffer invariant. */
  lemma AppendedConsistent(s: RxState, data: seq<Byte>)
    requires Consistent(s)
    ensures Consistent(Appended(s, data))
  {
  }

  /** An append extends the received contents by the part of the chunk that fit. */
  lemma AppendedContents(s: RxState, data: seq<Byte>)
    requires s.index <= |s.buffer|
    ensures var t := Appended(s, data);
      Contents(t) == Contents(s) + data[..t.index - s.index]
  {
    var t := Appended(s, data);
    assert t.buffer[..t.index] == t.buffer[..s.index] + t.buffer[s.index..t.index];
  }

  /**
   * Once the flag is up the buffer is full, so every later append, even of
   * an empty chunk, stores nothing and keeps the flag up: loss stays visible
   * until the next drain or clear.
   */
  lemma OverflowPersists(s: RxState, data: seq<Byte>)
    requires Consistent(s) && s.overflow
    ensures Appended(s, data) == s
  {
    var t := Appended(s, data);
    assert t.buffer == s.buffer[..s.index] + s.buffer[s.index..];
  }

  /** The buffer after a sequence of chunks has arrived, in order. */
  function AppendedAll(s: RxState, chunks: seq<seq<Byte>>): (t: RxState)
    requires s.index <= |s.buffer|
    ensures |t.buffer| == |s.buffer| && t.index <= |t.buffer|
    decreases |chunks|
  {
    if chunks == [] then s else AppendedAll(Appended(s, chunks[0]), chunks[1..])
  }

  function TotalLength(chunks: seq<seq<Byte>>): nat {
    if chunks == [] then 0 else |chunks[0]| + TotalLength(chunks[1..])
  }

  function Concat(chunks: seq<seq<Byte>>): seq<Byte> {
    if chunks == [] then [] else chunks[0] + Concat(chunks[1..])
  }

  /**
   * Non-empty chunks whose total length fits in the free space are all
   * stored, in order, the fill index advances by their total length, and the flag is
   * down after the last of them.
   */
  lemma {:induction false} AppendedAllWithinCapacity(s: RxState, chunks: seq<seq<Byte>>)
    requires s.index <= |s.buffer|
    requires chunks != [] && s.index + TotalLength(chunks) <= |s.buffer|
    requires forall k | 0 <= k < |chunks| :: chunks[k] != []
    ensures AppendedAll(s, chunks).index == s.index + TotalLength(chunks)
    ensures !AppendedAll(s, chunks).overflow
    ensures Contents(AppendedAll(s, chunks)) == Contents(s) + Concat(chunks)
    decreases |chunks|
  {
    var c := chunks[0];
    var t := Appended(s, c);
    assert TotalLength(chunks) == |c| + TotalLength(chunks[1..]);
    assert t.index == s.index + |c|;
    AppendedContents(s, c);
    assert c[..t.index - s.index] == c;
    assert Contents(t) == Contents(s) + c;
    assert AppendedAll(s, chunks) == AppendedAll(t, chunks[1..]);
    assert Concat(chunks) == c + Concat(chunks[1..]);
    if |chunks| == 1 {
      assert chunks[1..] == [];
    } else {
      assert forall k | 0 <= k < |chunks[1..]| :: chunks[1..][k] == chunks[k + 1];
      AppendedAllWithinCapacity(t, chunks[1..]);
    }
  }

  /**
   * A buffer of capacity 16: ten bytes, then ten more (six are dropped and
   * the flag goes up), then a drain returns the sixteen stored bytes and
   * leaves an empty buffer with the flag down.
   */
  lemma SixteenByteExample(b: seq<Byte>, x: seq<Byte>, y: seq<Byte>)
    requires |b| == 16 && |x| == 10 && |y| == 10
    ensures var s1 := Appended(RxState(b, 0, false), x);
      && s1.index == 10 && !s1.overflow
      && var s2 := Appended(s1, y);
      && s2.index == 16 && s2.overflow
      && Contents(s2) == x + y[..6]
      && var (data, s3) := Drained(s2, None);
      && data == x + y[..6] && s3.index == 0 && !s3.overflow
  {
    var s0 := RxState(b, 0, false);
    var s1 := Appended(s0, x);
    AppendedContents(s0, x);
    assert Contents(s0) == [];
    assert x[..10] == x;
    var s2 := Appended(s1, y);
    AppendedContents(s1, y);
  }

  // ---------------------------------------------------------------------
  // Port records
  // ---------------------------------------------------------------------

  /**
   * The record `spm[name]` that the open handler builds: the serial device
   * (its open state and the chunks written to it), the device options, the
   * receive buffer, and the WebSocket subscriber lists that lib/websocket.js
   * attaches on first use.
   */
  class Port {
    const config: SerialOptions
    var deviceOpen: bool
    var written: seq<seq<Byte>>
    const rxcapacity: nat
    const rxbuffer: array<Byte>
    var rxindex: nat
    var rxoverflow: bool
    var websockets: Option<seq<WebSocketId>>
    var wsc: Option<seq<WebSocketId>>

    ghost predicate Valid()
      reads this
    {
      rxbuffer.Length == rxcapacity
      && rxindex <= rxcapacity
      && (rxoverflow ==> rxindex == rxcapacity)
    }

    function State(): (s: RxState)
      reads this, rxbuffer
      requires Valid()
      ensures Consistent(s) && |s.buffer| == rxcapacity
    {
      RxState(rxbuffer[..], rxindex, rxoverflow)
    }

    /**
     * The record built once the device reports `open`: an empty buffer of
     * 65535 bytes whose contents are unspecified (`new Buffer(size)` does
     * not zero its memory), the flag down, and no subscribers yet.
     */
    constructor Opened(options: SerialOptions)
      ensures Valid() && fresh(rxbuffer)
      ensures rxcapacity == RxCapacity && rxindex == 0 && !rxoverflow
      ensures config == options && deviceOpen && written == []
      ensures websockets == None && wsc == None
    {
      config := options;
      deviceOpen := true;
      written := [];
      rxcapacity := RxCapacity;
      rxbuffer := new Byte[RxCapacity];
      rxindex := 0;
      rxoverflow := false;
      websockets := None;
      wsc := None;
    }

    /**
     * The stand-in lib/websocket.js creates for a name that is not in `spm`:
     * a device created with `autoOpen: false` and never opened. It has no
     * receive buffer; here its buffer has capacity 0.
     */
    constructor Placeholder()
      ensures Valid() && fresh(rxbuffer)
      ensures rxcapacity == 0 && !deviceOpen && written == []
      ensures config == NoOptions.(autoOpen := Some(false))
      ensures websockets == None && wsc == None
    {
      config := NoOptions.(autoOpen := Some(false));
      deviceOpen := false;
      written := [];
      rxcapacity := 0;
      rxbuffer := new Byte[0];
      rxindex := 0;
      rxoverflow := false;
      websockets := None;
      wsc := None;
    }

    /** lib/webserver.js:164-179, the `data` listener under `sem_read`. */
    method Append(data: seq<Byte>)
      requires Valid()
      modifies this`rxindex, this`rxoverflow, rxbuffer
      ensures Valid()
      ensures State() == Appended(old(State()), data)
    {
      ghost var before := State();
      var position := rxindex;
      var overflow := position >= rxcapacity;
      if !overflow {
        var available := rxcapacity - position;
        var length := |data|;
        overflow := length > available;
        length := if overflow then available else length;
        forall k | 0 <= k < length {
          rxbuffer[position + k] := data[k];
        }
        rxindex := rxindex + length;
        assert rxbuffer[..] == before.buffer[..position] + data[..length] + before.buffer[position + length..];
      } else {
        assert rxbuffer[..] == before.buffer[..position] + data[..0] + before.buffer[position..];
      }
      rxoverflow := overflow;
    }

    /** lib/webserver.js:269-283, the `GET read` critical section. */
    method Drain(take: Option<nat>) returns (data: seq<Byte>)
      requires Valid()
      modifies this`rxindex, this`rxoverflow, rxbuffer
      ensures Valid()
      ensures (data, State()) == Drained(old(State()), take)
    {
      var t := if take.None? || take.value == 0 then rxcapacity else take.value;
      if t > rxindex {
        t := rxindex;
      }
      data := rxbuffer[..t];
      forall k | 0 <= k < rxbuffer.Length {
        rxbuffer[k] := 0;
      }
      rxoverflow := false;
      rxindex := 0;
      assert rxbuffer[..] == Zeros(rxcapacity);
    }

    /** lib/webserver.js:320-324, the `DELETE read` critical section. */
    method Clear()
      requires Valid()
      modifies this`rxindex, this`rxoverflow, rxbuffer
      ensures Valid()
      ensures State() == Cleared(old(State()))
    {
      rxoverflow := false;
      forall k | 0 <= k < rxbuffer.Length {
        rxbuffer[k] := 0;
      }
      rxindex := 0;
      assert rxbuffer[..] == Zeros(rxcapacity);
    }

    /** lib/webserver.js:350-354: a snapshot, changing nothing. */
    method Available() returns (length: nat, capacity: nat, overflow: bool)
      requires Valid()
      ensures length == rxindex && capacity == rxcapacity && overflow == rxoverflow
      ensures length <= capacity && (overflow ==> length == capacity)
    {
      length := rxindex;
      capacity := rxcapacity;
      overflow := rxoverflow;
    }

    /** `serialport.write(buffer, callback)`: the chunk is handed to the device. */
    method WriteDevice(bytes: seq<Byte>)
      requires Valid()
      modifies this`written
      ensures Valid()
      ensures written == old(written) + [bytes]
    {
      written := written + [bytes];
    }

    /** `serialport.close(callback)` completing without error. */
    method CloseDevice()
      requires Valid()
      modifies this`deviceOpen
      ensures Valid() && !deviceOpen
    {
      deviceOpen := false;
    }

    /** Append a data-line subscriber, creating the list if absent. */
    method AddWebSocket(ws: WebSocketId)
      requires Valid()
      modifies this`websockets
      ensures Valid()
      ensures websockets == Some(old(websockets).GetOr([]) + [ws])
    {
      var list := if websockets.None? then [] else websockets.value;
      websockets := Some(list + [ws]);
    }

    /** Append a control-line subscriber, creating the list if absent. */
    method AddControlSocket(ws: WebSocketId)
      requires Valid()
      modifies this`wsc
      ensures Valid()
      ensures wsc == Some(old(wsc).GetOr([]) + [ws])
    {
      var list := if wsc.None? then [] else wsc.value;
      wsc := Some(list + [ws]);
    }
  }

  // ---------------------------------------------------------------------
  // The serial port manager
  // ---------------------------------------------------------------------

  /** The payload of the `received` event. */
  datatype Received = Received(port: string, data: seq<Byte>)

  /** `spm`: the open ports by canonical name, with its event table. */
  class Registry {
    var ports: map<string, Port>
    const emitter: Emitter<Received>

    ghost predicate Valid()
      reads this, ports.Values, emitter
    {
      && (forall p | p in ports.Values :: p.Valid())
      && (forall a, b | a in ports && b in ports && a != b :: ports[a] != ports[b] && ports[a].rxbuffer != ports[b].rxbuffer)
      && emitter.installed
    }

    /** `spm = { }` before `addEventEmitter` is applied to it. */
    constructor ()
      ensures ports == map[] && fresh(emitter)
      ensures !emitter.installed && emitter.calls == []
    {
      ports := map[];
      emitter := new Emitter<Received>();
    }
  }

  /** `spm = { }` in server.js, then `util.addEventEmitter(config.spm)`. */
  method NewRegistry() returns (spm: Registry)
    ensures fresh(spm) && fresh(spm.emitter)
    ensures spm.Valid() && spm.ports == map[]
    ensures spm.emitter.events == map[] && spm.emitter.calls == []
  {
    spm := new Registry();
    spm.emitter.AddEventEmitter();
  }

  datatype ApiError =
    | BadName(reason: NameError)
    | AccessDenied
    | NotOpen
    | NoWritePermission
    | NoReadPermission
    | OpenFailed
    | CloseFailed
    | WriteFailed

  /** What a handler checks before its critical section. */
  datatype Need = NameOnly | Registered | ReadAccess | WriteAccess

  /**
   * The checks every handler makes, in their order: the name is valid, the
   * port is allowed, the port is open (in `spm`), and the read or write
   * permission is on.
   */
  ghost function Admit(ports: map<string, Port>, settings: Settings, rawName: string, need: Need): Result<string, ApiError>
  {
    match GetPortName(rawName, settings.platform)
    case Failure(e) => Failure(BadName(e))
    case Success(name) =>
      if !PortAllowed(name, settings.permissions.allowedPorts) then Failure(AccessDenied)
      else if need == NameOnly then Success(name)
      else if name !in ports then Failure(NotOpen)
      else if need == ReadAccess && !settings.permissions.read then Failure(NoReadPermission)
      else if need == WriteAccess && !settings.permissions.write then Failure(NoWritePermission)
      else Success(name)
  }

  /** The record (and its buffer) a request for `rawName` may touch. */
  ghost function Target(ports: map<string, Port>, settings: Settings, rawName: string): set<object>
  {
    match GetPortName(rawName, settings.platform)
    case Failure(_) => {}
    case Success(name) => if name in ports then {ports[name], ports[name].rxbuffer} else {}
  }

  /** The admission checks, as each handler performs them. */
  method Gate(spm: Registry, settings: Settings, rawName: string, need: Need) returns (r: Result<string, ApiError>)
    ensures r == Admit(spm.ports, settings, rawName, need)
    ensures r.Success? ==> GetPortName(rawName, settings.platform) == Success(r.value)
    ensures r.Success? && need != NameOnly ==> r.value in spm.ports
  {
    var canonical := GetPortName(rawName, settings.platform);
    if canonical.Failure? {
      return Failure(BadName(canonical.error));
    }
    var name := canonical.value;
    var allowed := IsPortAllowed(name, settings.permissions.allowedPorts);
    if !allowed {
      return Failure(AccessDenied);
    }
    if need == NameOnly {
      return Success(name);
    }
    if name !in spm.ports {
      return Failure(NotOpen);
    }
    if need == ReadAccess && !settings.permissions.read {
      return Failure(NoReadPermission);
    }
    if need == WriteAccess && !settings.permissions.write {
      return Failure(NoWritePermission);
    }
    return Success(name);
  }

  /**
   * `POST /port/:name/open`. The device options are the request body with
   * `autoOpen` set to false. When the device opens, a fresh record replaces
   * whatever `spm` held under the name; there is no already-open check.
   */
  method OpenPort(spm: Registry, settings: Settings, rawName: string, body: SerialOptions, deviceOpens: bool)
    returns (r: Result<string, ApiError>)
    requires spm.Valid()
    modifies spm
    ensures spm.Valid()
    ensures Admit(old(spm.ports), settings, rawName, NameOnly).Failure? ==>
      r == Admit(old(spm.ports), settings, rawName, NameOnly) && spm.ports == old(spm.ports)
    ensures Admit(old(spm.ports), settings, rawName, NameOnly).Success? && !deviceOpens ==>
      r == Failure(OpenFailed) && spm.ports == old(spm.ports)
    ensures Admit(old(spm.ports), settings, rawName, NameOnly).Success? && deviceOpens ==>
      && r == Admit(old(spm.ports), settings, rawName, NameOnly)
      && r.value in spm.ports
      && spm.ports == old(spm.ports)[r.value := spm.ports[r.value]]
      && var port := spm.ports[r.value];
      && fresh(port) && fresh(port.rxbuffer)
      && port.rxcapacity == RxCapacity && port.rxindex == 0 && !port.rxoverflow
      && port.config == body.(autoOpen := Some(false))
      && port.deviceOpen && port.written == [] && port.websockets == None && port.wsc == None
  {
    r := Gate(spm, settings, rawName, NameOnly);
    if r.Failure? {
      return;
    }
    var options := body.(autoOpen := Some(false));
    if !deviceOpens {
      return Failure(OpenFailed);
    }
    var port := new Port.Opened(options);
    spm.ports := spm.ports[r.value := port];
  }

  /**
   * The `data` listener installed by the open handler for the canonical
   * name: the chunk goes into whatever record `spm` holds under that name
   * when it arrives, then `received` is emitted with the whole raw chunk.
   * When the name is no longer in `spm` the listener fails before either
   * step and its exception is swallowed.
   */
  method OnData(spm: Registry, name: string, data: seq<Byte>)
    requires spm.Valid()
    modifies if name in spm.ports then {spm.ports[name], spm.ports[name].rxbuffer} else {}
    modifies spm.emitter`calls
    ensures spm.Valid()
    ensures spm.emitter.events == old(spm.emitter.events)
    ensures name !in spm.ports ==> spm.emitter.calls == old(spm.emitter.calls)
    ensures name in spm.ports ==>
      var port: Port := spm.ports[name];
      && port.State() == Appended(old(port.State()), data)
      && unchanged(port`written, port`deviceOpen, port`websockets, port`wsc)
      && spm.emitter.calls == old(spm.emitter.calls) +
           if "received" in spm.emitter.events
           then [Call(spm.emitter.events["received"], Received(name, data))] else []
  {
    if name !in spm.ports {
      return;
    }
    var port := spm.ports[name];
    port.Append(data);
    spm.emitter.Emit("received", Received(name, data));
  }

  /**
   * `POST /port/:name/close`: the entry leaves `spm` as soon as the device is
   * asked to close, whether or not the close then succeeds.
   */
  method ClosePort(spm: Registry, settings: Settings, rawName: string, deviceCloses: bool)
    returns (r: Result<string, ApiError>)
    requires spm.Valid()
    modifies spm, Target(spm.ports, settings, rawName)
    ensures spm.Valid()
    ensures Admit(old(spm.ports), settings, rawName, Registered).Failure? ==>
      && r == Admit(old(spm.ports), settings, rawName, Registered) && spm.ports == old(spm.ports)
      && unchanged(Target(old(spm.ports), settings, rawName))
    ensures Admit(old(spm.ports), settings, rawName, Registered).Success? ==>
      var name := Admit(old(spm.ports), settings, rawName, Registered).value;
      var port: Port := old(spm.ports)[name];
      && spm.ports == old(spm.ports) - {name}
      && unchanged(port.rxbuffer, port`rxindex, port`rxoverflow, port`written, port`websockets, port`wsc)
      && (if deviceCloses then r == Success(name) && !port.deviceOpen
          else r == Failure(CloseFailed) && port.deviceOpen == old(port.deviceOpen))
  {
    r := Gate(spm, settings, rawName, Registered);
    if r.Failure? {
      return;
    }
    var name := r.value;
    var port := spm.ports[name];
    if deviceCloses {
      port.CloseDevice();
    } else {
      r := Failure(CloseFailed);
    }
    spm.ports := spm.ports - {name};
  }

  /**
   * `POST /port/:name/write`: under `sem_write` the body (empty when there
   * is none) is handed to the device; the reply is its length, or the error
   * the device reports.
   */
  method WritePort(spm: Registry, settings: Settings, rawName: string, body: seq<Byte>, deviceWrites: bool)
    returns (r: Result<nat, ApiError>)
    requires spm.Valid()
    modifies Target(spm.ports, settings, rawName)
    ensures spm.Valid()
    ensures Admit(spm.ports, settings, rawName, WriteAccess).Failure? ==>
      r == Failure(Admit(spm.ports, settings, rawName, WriteAccess).error)
      && unchanged(Target(spm.ports, settings, rawName))
    ensures Admit(spm.ports, settings, rawName, WriteAccess).Success? ==>
      var port: Port := spm.ports[Admit(spm.ports, settings, rawName, WriteAccess).value];
      && port.written == old(port.written) + [body]
      && port.State() == old(port.State())
      && unchanged(port.rxbuffer, port`rxindex, port`rxoverflow, port`deviceOpen, port`websockets, port`wsc)
      && r == if deviceWrites then Success(|body|) else Failure(WriteFailed)
  {
    var g := Gate(spm, settings, rawName, WriteAccess);
    if g.Failure? {
      return Failure(g.error);
    }
    var port := spm.ports[g.value];
    port.WriteDevice(body);
    r := if deviceWrites then Success(|body|) else Failure(WriteFailed);
  }

  /**
   * The content type of a read reply: plain text when the Accept header
   * mentions "text/html" or "text/plain", raw bytes otherwise.
   */
  function ContentType(accept: string): (ct: string)
    ensures ct == "text/plain" || ct == "application/octet-stream"
    ensures ct == "text/plain" <==>
      exists k :: OccursAt(accept, "text/html", k) || OccursAt(accept, "text/plain", k)
  {
    if IndexOf(accept, "text/html") != -1 || IndexOf(accept, "text/plain") != -1
    then "text/plain" else "application/octet-stream"
  }

  /** The reply to `GET read`: the body and the two X-Read headers. */
  datatype ReadReply = ReadReply(data: seq<Byte>, readLength: nat, readAvailable: nat, contentType: string)

  /**
   * `GET /port/:name/read`: a destructive drain. The `X-Read-Available`
   * header is taken after the buffer has been cleared, so it is always 0.
   */
  method ReadPort(spm: Registry, settings: Settings, rawName: string, take: Option<nat>, accept: string)
    returns (r: Result<ReadReply, ApiError>)
    requires spm.Valid()
    modifies Target(spm.ports, settings, rawName)
    ensures spm.Valid()
    ensures Admit(spm.ports, settings, rawName, ReadAccess).Failure? ==>
      r == Failure(Admit(spm.ports, settings, rawName, ReadAccess).error)
      && unchanged(Target(spm.ports, settings, rawName))
    ensures Admit(spm.ports, settings, rawName, ReadAccess).Success? ==>
      var port: Port := spm.ports[Admit(spm.ports, settings, rawName, ReadAccess).value];
      && unchanged(port`written, port`deviceOpen, port`websockets, port`wsc)
      && r.Success?
      && (r.value.data, port.State()) == Drained(old(port.State()), take)
      && r.value.readLength == |r.value.data|
      && r.value.readAvailable == 0
      && r.value.contentType == ContentType(accept)
  {
    var g := Gate(spm, settings, rawName, ReadAccess);
    if g.Failure? {
      return Failure(g.error);
    }
    var port := spm.ports[g.value];
    var data := port.Drain(take);
    r := Success(ReadReply(data, |data|, port.rxindex, ContentType(accept)));
  }

  /** `DELETE /port/:name/read`: the buffer is cleared and nothing is returned. */
  method ClearRead(spm: Registry, settings: Settings, rawName: string)
    returns (r: Result<(), ApiError>)
    requires spm.Valid()
    modifies Target(spm.ports, settings, rawName)
    ensures spm.Valid()
    ensures Admit(spm.ports, settings, rawName, ReadAccess).Failure? ==>
      r == Failure(Admit(spm.ports, settings, rawName, ReadAccess).error)
      && unchanged(Target(spm.ports, settings, rawName))
    ensures Admit(spm.ports, settings, rawName, ReadAccess).Success? ==>
      var port: Port := spm.ports[Admit(spm.ports, settings, rawName, ReadAccess).value];
      && r == Success(()) && port.State() == Cleared(old(port.State()))
      && unchanged(port`written, port`deviceOpen, port`websockets, port`wsc)
  {
    var g := Gate(spm, settings, rawName, ReadAccess);
    if g.Failure? {
      return Failure(g.error);
    }
    var port := spm.ports[g.value];
    port.Clear();
    r := Success(());
  }

  /** The reply to `GET available`. */
  datatype Availability = Availability(name: string, length: nat, capacity: nat, overflow: bool)

  /** `GET /port/:name/available`: a snapshot of the buffer, changing nothing. */
  method AvailableOf(spm: Registry, settings: Settings, rawName: string)
    returns (r: Result<Availability, ApiError>)
    requires spm.Valid()
    ensures Admit(spm.ports, settings, rawName, ReadAccess).Failure? ==>
      r == Failure(Admit(spm.ports, settings, rawName, ReadAccess).error)
    ensures Admit(spm.ports, settings, rawName, ReadAccess).Success? ==>
      var name := Admit(spm.ports, settings, rawName, ReadAccess).value;
      var s := spm.ports[name].State();
      r == Success(Availability(name, s.index, |s.buffer|, s.overflow))
  {
    var g := Gate(spm, settings, rawName, ReadAccess);
    if g.Failure? {
      return Failure(g.error);
    }
    var port := spm.ports[g.value];
    var length, capacity, overflow := port.Available();
    r := Success(Availability(g.value, length, capacity, overflow));
  }
}
