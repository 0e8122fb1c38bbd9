/**
 * lib/util.js: serial port name canonicalisation, the allow-list check and
 * the single-callback event emitter that the other modules attach to their
 * registries and relays.
 */
module Util {
  import opened Common
  import opened Config

  // ---------------------------------------------------------------------
  // getPortName
  // ---------------------------------------------------------------------

  datatype NameError = NameMissing | NotComName | NotUnixName

  /** `\w`: an ASCII letter, digit or underscore. */
  predicate IsWordChar(c: char) {
    ('a' <= c <= 'z') || ('A' <= c <= 'Z') || IsDigit(c) || c == '_'
  }

  /** One character of `[\w\d\-\._]`. */
  predicate IsNameChar(c: char) {
    IsWordChar(c) || c == '-' || c == '.'
  }

  /** `/^COM\d+$/i`: "COM" in any letter case followed by one or more digits. */
  predicate IsComName(s: string) {
    && |s| >= 4
    && (s[0] == 'C' || s[0] == 'c')
    && (s[1] == 'O' || s[1] == 'o')
    && (s[2] == 'M' || s[2] == 'm')
    && forall k | 3 <= k < |s| :: IsDigit(s[k])
  }

  /** `/^[\w\d\-\._]+$/`: a non-empty name of word characters, '-' and '.'. */
  predicate IsUnixName(s: string) {
    s != [] && forall k | 0 <= k < |s| :: IsNameChar(s[k])
  }

  const DevPrefix := "/dev/"

  /**
   * `getPortName(name)`, with `os.platform()` passed in: on "win32" a COMx
   * name is returned as it is, elsewhere a slash-free name is put under
   * /dev/.
   */
  function GetPortName(name: string, platform: string): (r: Result<string, NameError>)
    ensures name == [] ==> r == Failure(NameMissing)
    ensures r.Success? <==> if platform == "win32" then IsComName(name) else IsUnixName(name)
    ensures r.Success? ==> r.value != []
    ensures r.Success? && platform == "win32" ==> r.value == name
    ensures r.Success? && platform != "win32" ==> r.value == DevPrefix + name && '/' !in name
  {
    if name == [] then Failure(NameMissing)
    else if platform == "win32" then
      if IsComName(name) then Success(name) else Failure(NotComName)
    else
      if IsUnixName(name) then
        assert '/' !in name by {
          forall k | 0 <= k < |name| ensures name[k] != '/' {
            assert IsNameChar(name[k]);
          }
        }
        Success(DevPrefix + name)
      else Failure(NotUnixName)
  }

  /** Two different names never canonicalise to the same port. */
  lemma GetPortNameInjective(a: string, b: string, platform: string)
    requires GetPortName(a, platform).Success? && GetPortName(b, platform).Success?
    requires GetPortName(a, platform).value == GetPortName(b, platform).value
    ensures a == b
  {
    if platform != "win32" {
      assert a == (DevPrefix + a)[|DevPrefix|..];
      assert b == (DevPrefix + b)[|DevPrefix|..];
    }
  }

  /**
   * Off Windows a canonical name is never accepted again as a name: it
   * contains the slash of "/dev/". On Windows canonicalisation is the
   * identity, so it is idempotent.
   */
  lemma CanonicalNameIsFinal(name: string, platform: string)
    requires GetPortName(name, platform).Success?
    ensures platform != "win32" ==> GetPortName(GetPortName(name, platform).value, platform).Failure?
    ensures platform == "win32" ==> GetPortName(GetPortName(name, platform).value, platform) == GetPortName(name, platform)
  {
    if platform != "win32" {
      var c := GetPortName(name, platform).value;
      assert c[0] == '/' && !IsNameChar(c[0]);
    }
  }

  /**
   * Windows keeps the letter case of the name, so "com3" and "COM3" are two
   * different canonical names for one device.
   */
  lemma WindowsKeepsCase()
    ensures GetPortName("com3", "win32") == Success("com3")
    ensures GetPortName("COM3", "win32") == Success("COM3")
    ensures "com3" != "COM3"
  {
    assert IsComName("com3") by { assert "com3"[3] == '3'; }
    assert IsComName("COM3") by { assert "COM3"[3] == '3'; }
  }

  // ---------------------------------------------------------------------
  // isPortAllowed
  // ---------------------------------------------------------------------

  /** An allow-list entry that names `port` when letter case is ignored. */
  ghost predicate Lists(allowed: seq<string>, port: string) {
    exists k | 0 <= k < |allowed| :: Lower(allowed[k]) == Lower(port)
  }

  /**
   * What `isPortAllowed` decides: an empty name is refused, every other name
   * is allowed when there is no allow-list, and otherwise only a name that an
   * entry equals ignoring case.
   */
  ghost predicate PortAllowed(port: string, allowed: Option<seq<string>>) {
    port != [] && (allowed.None? || Lists(allowed.value, port))
  }

  /** `isPortAllowed(port)`, with `config.permissions.allowedPorts` passed in. */
  method IsPortAllowed(port: string, allowed: Option<seq<string>>) returns (ok: bool)
    ensures ok <==> PortAllowed(port, allowed)
  {
    if port == [] {
      return false;
    }
    if allowed.None? {
      return true;
    }
    var list := allowed.value;
    var lowered := Lower(port);
    var i := 0;
    while i < |list|
      invariant 0 <= i <= |list|
      invariant forall k | 0 <= k < i :: Lower(list[k]) != lowered
    {
      if Lower(list[i]) == lowered {
        return true;
      }
      i := i + 1;
    }
    return false;
  }

  /** Whether a name is allowed depends on its letters only up to case. */
  lemma PortAllowedIgnoresCase(p: string, q: string, allowed: Option<seq<string>>)
    requires p != [] && q != [] && Lower(p) == Lower(q)
    ensures PortAllowed(p, allowed) <==> PortAllowed(q, allowed)
  {
  }

  /** With the allow-list ["COM1"], COM1 is allowed in any case and COM2 is not. */
  lemma AllowListExample()
    ensures PortAllowed("COM1", Some(["COM1"]))
    ensures PortAllowed("com1", Some(["COM1"]))
    ensures !PortAllowed("COM2", Some(["COM1"]))
  {
    var list := ["COM1"];
    assert Lower("COM1") == Lower("com1") == "com1";
    assert Lower(list[0]) == Lower("COM1");
    assert Lower("COM2")[3] == '2' && Lower("COM1")[3] == '1';
  }

  /**
   * Off Windows the allow-list is compared with the canonical "/dev/..." name,
   * so an entry without the prefix never admits the port it names.
   */
  lemma AllowListNeedsDevPrefix(name: string, platform: string)
    requires platform != "win32" && GetPortName(name, platform).Success?
    ensures !PortAllowed(GetPortName(name, platform).value, Some([name]))
  {
    var c := GetPortName(name, platform).value;
    assert |Lower(c)| == |name| + 5;
  }

  // ---------------------------------------------------------------------
  // addEventEmitter
  // ---------------------------------------------------------------------

  /** A registered callback, known by an opaque identity. */
  type HandlerId = nat

  /** One invocation of a callback with the emitted data. */
  datatype Call<D> = Call(handler: HandlerId, data: D)

  /**
   * The event members that `addEventEmitter` installs on an object: the
   * `events` table, with one callback per event name, and the invocations
   * `emit` has made so far.
   */
  class Emitter<D> {
    var installed: bool
    var events: map<string, HandlerId>
    var calls: seq<Call<D>>

    /** An object before `addEventEmitter` has been applied to it. */
    constructor ()
      ensures !installed && events == map[] && calls == []
    {
      installed := false;
      events := map[];
      calls := [];
    }

    /** `addEventEmitter(obj)`: installs an empty table the first time only. */
    method AddEventEmitter()
      modifies this
      ensures installed
      ensures events == if old(installed) then old(events) else map[]
      ensures calls == old(calls)
    {
      if !installed {
        installed := true;
        events := map[];
      }
    }

    /** `obj.on(event, callback)`: the callback replaces any earlier one. */
    method On(event: string, handler: HandlerId)
      requires installed
      modifies this`events
      ensures events == old(events)[event := handler]
    {
      events := events[event := handler];
    }

    /** `obj.emit(event, data)`: calls the registered callback once, if any. */
    method Emit(event: string, data: D)
      requires installed
      modifies this`calls
      ensures calls == old(calls) + if event in events then [Call(events[event], data)] else []
    {
      if event in events {
        calls := calls + [Call(events[event], data)];
      }
    }
  }

  /**
   * The settings a transport reads through lib/util.js: the permissions set
   * by `setConfig` and the platform name `os.platform()` reports.
   */
  datatype Settings = Settings(permissions: Permissions, platform: string)
}
