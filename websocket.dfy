/**
 * lib/websocket.js: WebSocket clients attach to a port's data line or
 * control line through the upgrade URL ".../port/:name/:line"; data-line
 * messages are written to the port, control-line messages are parsed and
 * otherwise ignored.
 */
module WebSocket {
  import opened Common
  import opened Config
  import opened Util
  import opened WebServer

  // ---------------------------------------------------------------------
  // The upgrade path
  // ---------------------------------------------------------------------

  /** The captures of a successful match: the name and the optional line. */
  datatype PortPath = PortPath(name: string, line: Option<string>)

  const PortLiteral := "/port/"

  /**
   * The literal "/port/" at position `k`, letters matched without regard to
   * case (the pattern carries the `i` flag; for these letters only the
   * ASCII case variants match).
   */
  predicate PortLiteralAt(path: string, k: nat) {
    k + |PortLiteral| <= |path|
    && forall i | 0 <= i < |PortLiteral| :: LowerChar(path[k + i]) == PortLiteral[i]
  }

  /** `\w+`: a non-empty run of word characters. */
  predicate IsWord(w: string) {
    w != [] && forall i | 0 <= i < |w| :: IsWordChar(w[i])
  }

  /**
   * The reference meaning of the pattern `\/port\/([\w\d\-\._]+)(\/(\w+))?$`
   * matching at position `k` with captures `m`: everything from `k` to the end
   * of the path is the literal, the name, and optionally "/" and the line.
   */
  predicate Matches(path: string, k: nat, m: PortPath) {
    && PortLiteralAt(path, k)
    && IsUnixName(m.name)
    && (m.line.None? ==> path[k + |PortLiteral|..] == m.name)
    && (m.line.Some? ==> IsWord(m.line.value) && path[k + |PortLiteral|..] == m.name + "/" + m.line.value)
  }

  /** The length of the longest prefix of name characters (the greedy `+`). */
  function NameRun(s: string): (n: nat)
    ensures n <= |s|
    ensures forall i | 0 <= i < n :: IsNameChar(s[i])
    ensures n < |s| ==> !IsNameChar(s[n])
  {
    if s == [] || !IsNameChar(s[0]) then 0 else 1 + NameRun(s[1..])
  }

  /** What follows the literal: the greedy name, then the end or "/" and a word. */
  function MatchRest(rest: string): Option<PortPath> {
    var n := NameRun(rest);
    var tail := rest[n..];
    if n == 0 then None
    else if tail == [] then Some(PortPath(rest[..n], None))
    else if tail[0] == '/' && IsWord(tail[1..]) then Some(PortPath(rest[..n], Some(tail[1..])))
    else None
  }

  /** The matcher's attempt at one start position. */
  function MatchAt(path: string, k: nat): Option<PortPath> {
    if PortLiteralAt(path, k) then MatchRest(path[k + |PortLiteral|..]) else None
  }

  lemma {:induction false} NameRunStops(name: string, tail: string)
    requires forall i | 0 <= i < |name| :: IsNameChar(name[i])
    requires tail == [] || !IsNameChar(tail[0])
    ensures NameRun(name + tail) == |name|
    decreases |name|
  {
    if name != [] {
      assert (name + tail)[1..] == name[1..] + tail;
      NameRunStops(name[1..], tail);
    }
  }

  /**
   * The matcher's attempt at a position succeeds with exactly the captures
   * the reference meaning gives there: backtracking into the name never
   * helps, because a name character is never "/".
   */
  lemma MatchAtMeaning(path: string, k: nat, m: PortPath)
    ensures MatchAt(path, k) == Some(m) <==> Matches(path, k, m)
  {
    if !PortLiteralAt(path, k) {
      return;
    }
    if Matches(path, k, m) {
      var rest := path[k + |PortLiteral|..];
      var tail := if m.line.None? then "" else "/" + m.line.value;
      assert rest == m.name + tail;
      NameRunStops(m.name, tail);
      assert rest[..|m.name|] == m.name;
      assert rest[|m.name|..] == tail;
      if m.line.Some? {
        assert tail[1..] == m.line.value;
      }
    }
    if MatchAt(path, k) == Some(m) {
      var rest := path[k + |PortLiteral|..];
      var n := NameRun(rest);
      assert rest == rest[..n] + rest[n..];
      if m.line.Some? {
        assert rest[n..] == "/" + rest[n..][1..];
      }
    }
  }

  /** The leftmost match at or after position `k`. */
  function MatchFrom(path: string, k: nat): Option<PortPath>
    requires k <= |path|
    decreases |path| - k
  {
    if MatchAt(path, k).Some? then MatchAt(path, k)
    else if k == |path| then None
    else MatchFrom(path, k + 1)
  }

  /** No start position in `[k, j)` matches. */
  predicate NoMatchBetween(path: string, k: nat, j: nat) {
    forall i | k <= i < j :: MatchAt(path, i).None?
  }

  /** `MatchFrom` finds the first start position at or after `k` that matches. */
  lemma {:induction false} MatchFromLeftmost(path: string, k: nat)
    requires k <= |path|
    ensures MatchFrom(path, k).None? <==> NoMatchBetween(path, k, |path| + 1)
    ensures MatchFrom(path, k).Some? ==> exists j | k <= j <= |path| ::
      MatchFrom(path, k) == MatchAt(path, j) && NoMatchBetween(path, k, j)
    decreases |path| - k
  {
    if MatchAt(path, k).Some? {
      assert NoMatchBetween(path, k, k);
    } else if k < |path| {
      MatchFromLeftmost(path, k + 1);
      if MatchFrom(path, k).Some? {
        var j :| k + 1 <= j <= |path| && MatchFrom(path, k + 1) == MatchAt(path, j) && NoMatchBetween(path, k + 1, j);
        assert NoMatchBetween(path, k, j);
      }
    }
  }

  /** `exec` of the pattern on `u.path`: the leftmost position that matches. */
  function MatchPortPath(path: string): (r: Option<PortPath>)
    ensures r.None? <==> NoMatchBetween(path, 0, |path| + 1)
    ensures r.Some? ==> exists j | 0 <= j <= |path| :: Matches(path, j, r.value) && NoMatchBetween(path, 0, j)
  {
    LeftmostMatchMeaning(path);
    MatchFrom(path, 0)
  }

  lemma LeftmostMatchMeaning(path: string)
    ensures MatchFrom(path, 0).None? <==> NoMatchBetween(path, 0, |path| + 1)
    ensures MatchFrom(path, 0).Some? ==> exists j | 0 <= j <= |path| ::
      Matches(path, j, MatchFrom(path, 0).value) && NoMatchBetween(path, 0, j)
  {
    MatchFromLeftmost(path, 0);
    var r := MatchFrom(path, 0);
    if r.Some? {
      var j :| 0 <= j <= |path| && r == MatchAt(path, j) && NoMatchBetween(path, 0, j);
      MatchAtMeaning(path, j, r.value);
    }
  }

  const ApiPrefix := "/api/v1"

  /** "/" and the line, or nothing. */
  function LineSuffix(line: Option<string>): string {
    if line.Some? then "/" + line.value else ""
  }

  /**
   * The paths clients use, "/api/v1/port/:name" and "/api/v1/port/:name/:line",
   * yield the name and the line they spell.
   */
  lemma ApiPathMatches(name: string, line: Option<string>)
    requires IsUnixName(name) && (line.Some? ==> IsWord(line.value))
    ensures MatchPortPath(ApiPrefix + PortLiteral + name + LineSuffix(line)) == Some(PortPath(name, line))
  {
    var path := ApiPrefix + PortLiteral + name + LineSuffix(line);
    var k := |ApiPrefix|;
    var m := PortPath(name, line);
    ApiPathShape(name, line);
    assert Matches(path, k, m);
    MatchAtMeaning(path, k, m);
    NoMatchInApiPrefix(path);
    MatchFromSkip(path, 0, k);
    assert MatchFrom(path, k) == Some(m);
  }

  /** An API path is the prefix, then the literal, then the name and the line. */
  lemma ApiPathShape(name: string, line: Option<string>)
    ensures var path := ApiPrefix + PortLiteral + name + LineSuffix(line);
      && |path| >= |ApiPrefix| && path[..|ApiPrefix|] == ApiPrefix
      && PortLiteralAt(path, |ApiPrefix|)
      && path[|ApiPrefix| + |PortLiteral|..] == name + LineSuffix(line)
  {
    var path := ApiPrefix + PortLiteral + name + LineSuffix(line);
    var k := |ApiPrefix|;
    assert path == ApiPrefix + (PortLiteral + (name + LineSuffix(line)));
    assert path[..k] == ApiPrefix;
    assert path[k..k + |PortLiteral|] == PortLiteral;
    forall i | 0 <= i < |PortLiteral|
      ensures LowerChar(path[k + i]) == PortLiteral[i]
    {
      assert path[k + i] == path[k..k + |PortLiteral|][i];
    }
  }

  /**
   * `u.path` includes the query string, and everything a match covers after
   * the literal is name characters, "/" and word characters: a query string
   * after the name (an access token, say) makes the match fail there.
   */
  lemma MatchExcludesQuery(path: string, k: nat, m: PortPath)
    requires Matches(path, k, m)
    ensures '?' !in path[k + |PortLiteral|..]
  {
    var rest := path[k + |PortLiteral|..];
    forall i | 0 <= i < |rest|
      ensures rest[i] != '?'
    {
      if i < |m.name| {
        assert rest[i] == m.name[i] && IsNameChar(m.name[i]);
      } else if i > |m.name| {
        assert rest[i] == m.line.value[i - |m.name| - 1] && IsWordChar(m.line.value[i - |m.name| - 1]);
      }
    }
  }

  /** No start position inside "/api/v1" carries the literal. */
  lemma NoMatchInApiPrefix(path: string)
    requires |path| >= |ApiPrefix| && path[..|ApiPrefix|] == ApiPrefix
    ensures NoMatchBetween(path, 0, |ApiPrefix|)
  {
    forall i | 0 <= i < |ApiPrefix|
      ensures !PortLiteralAt(path, i)
    {
      assert path[i] == ApiPrefix[i];
      if i == 0 || i == 4 {
        assert path[i + 1] == ApiPrefix[i + 1];
        assert LowerChar(path[i + 1]) != PortLiteral[1];
      } else {
        assert LowerChar(path[i]) != PortLiteral[0];
      }
    }
  }

  /** Start positions that do not match are passed over. */
  lemma {:induction false} MatchFromSkip(path: string, k: nat, j: nat)
    requires k <= j <= |path| && NoMatchBetween(path, k, j)
    ensures MatchFrom(path, k) == MatchFrom(path, j)
    decreases j - k
  {
    if k < j {
      assert MatchAt(path, k).None?;
      MatchFromSkip(path, k + 1, j);
    }
  }

  // ---------------------------------------------------------------------
  // Connections
  // ---------------------------------------------------------------------

  datatype Line = DataLine | ControlLine

  datatype WsError =
    | PathMismatch
    | UnknownLine
    | WsBadName(reason: NameError)
    | WsAccessDenied
    | PortNotOpen
    | WsNoWritePermission

  /** The line a client asked for: only "data" and "control" exist. */
  function LineOf(line: Option<string>): (r: Option<Line>)
    ensures r == Some(DataLine) <==> line == Some("data")
    ensures r == Some(ControlLine) <==> line == Some("control")
  {
    match line
    case Some("data") => Some(DataLine)
    case Some("control") => Some(ControlLine)
    case _ => None
  }

  /**
   * The checks a connection passes, in their order: the path matches, the
   * line is known, the name canonicalises and the port is allowed.
   */
  ghost function Admission(settings: Settings, path: string): Result<(string, Line), WsError> {
    match MatchPortPath(path)
    case None => Failure(PathMismatch)
    case Some(m) =>
      match LineOf(m.line)
      case None => Failure(UnknownLine)
      case Some(line) =>
        match GetPortName(m.name, settings.platform)
        case Failure(e) => Failure(WsBadName(e))
        case Success(name) =>
          if PortAllowed(name, settings.permissions.allowedPorts) then Success((name, line))
          else Failure(WsAccessDenied)
  }

  /** The record a connection subscribes to, when it is already in `spm`. */
  ghost function Subscribed(ports: map<string, Port>, settings: Settings, path: string): set<object> {
    var a := Admission(settings, path);
    if a.Success? && a.value.0 in ports then {ports[a.value.0]} else {}
  }

  /**
   * A live connection: the canonical name and the record that were current
   * when it connected. Its message listener keeps using that record, even
   * after the port is closed and opened again.
   */
  datatype Connection = Connection(name: string, line: Line, port: Port)

  /** The admission checks, as the `connection` listener performs them. */
  method AdmitConnection(settings: Settings, path: string) returns (r: Result<(string, Line), WsError>)
    ensures r == Admission(settings, path)
  {
    var m := MatchPortPath(path);
    if m.None? {
      return Failure(PathMismatch);
    }
    var line := LineOf(m.value.line);
    if line.None? {
      return Failure(UnknownLine);
    }
    var canonical := GetPortName(m.value.name, settings.platform);
    if canonical.Failure? {
      return Failure(WsBadName(canonical.error));
    }
    var name := canonical.value;
    var allowed := IsPortAllowed(name, settings.permissions.allowedPorts);
    if !allowed {
      return Failure(WsAccessDenied);
    }
    return Success((name, line.value));
  }

  /** Append a client to the subscriber list of the given line. */
  method Subscribe(port: Port, line: Line, ws: WebSocketId)
    requires port.Valid()
    modifies port`websockets, port`wsc
    ensures port.Valid()
    ensures line == DataLine ==>
      port.websockets == Some(old(port.websockets).GetOr([]) + [ws]) && port.wsc == old(port.wsc)
    ensures line == ControlLine ==>
      port.wsc == Some(old(port.wsc).GetOr([]) + [ws]) && port.websockets == old(port.websockets)
  {
    if line == DataLine {
      port.AddWebSocket(ws);
    } else {
      port.AddControlSocket(ws);
    }
  }

  /**
   * The `connection` listener. An admitted client is appended to the data or
   * control subscriber list of the port's record; for a name that is not
   * open, that record is a fresh placeholder which `spm` never sees, so
   * the client is its only subscriber.
   */
  method Connect(spm: Registry, settings: Settings, path: string, ws: WebSocketId)
    returns (r: Result<Connection, WsError>)
    requires spm.Valid()
    modifies Subscribed(spm.ports, settings, path)
    ensures spm.Valid()
    ensures r.Success? ==> r.value.port.Valid()
    ensures Admission(settings, path).Failure? ==> r == Failure(Admission(settings, path).error)
    ensures Admission(settings, path).Success? && Admission(settings, path).value.0 in spm.ports ==>
      var (name, line) := Admission(settings, path).value;
      var port: Port := spm.ports[name];
      && r == Success(Connection(name, line, port))
      && unchanged(port.rxbuffer, port`rxindex, port`rxoverflow, port`written, port`deviceOpen)
      && port.State() == old(port.State())
      && (line == DataLine ==>
            port.websockets == Some(old(port.websockets).GetOr([]) + [ws]) && port.wsc == old(port.wsc))
      && (line == ControlLine ==>
            port.wsc == Some(old(port.wsc).GetOr([]) + [ws]) && port.websockets == old(port.websockets))
    ensures Admission(settings, path).Success? && Admission(settings, path).value.0 !in spm.ports ==>
      var (name, line) := Admission(settings, path).value;
      && r.Success? && r.value.name == name && r.value.line == line
      && var port := r.value.port;
      && fresh(port) && !port.deviceOpen && port.rxcapacity == 0
      && port.config == NoOptions.(autoOpen := Some(false)) && port.written == []
      && port.websockets == (if line == DataLine then Some([ws]) else None)
      && port.wsc == (if line == ControlLine then Some([ws]) else None)
  {
    var admitted := AdmitConnection(settings, path);
    if admitted.Failure? {
      return Failure(admitted.error);
    }
    var (name, line) := admitted.value;
    var port: Port;
    if name in spm.ports {
      port := spm.ports[name];
      Subscribe(port, line, ws);
    } else {
      port := new Port.Placeholder();
      Subscribe(port, line, ws);
      assert [] + [ws] == [ws];
      assert port.websockets == if line == DataLine then Some([ws]) else None;
      assert port.wsc == if line == ControlLine then Some([ws]) else None;
    }
    r := Success(Connection(name, line, port));
  }

  /**
   * A message on the data line: refused unless the connection's record has
   * an open device and writing is permitted; otherwise handed to the device
   * under `sem_write`.
   */
  method DataMessage(conn: Connection, settings: Settings, message: seq<Byte>)
    returns (r: Result<nat, WsError>)
    requires conn.port.Valid()
    modifies conn.port`written
    ensures conn.port.Valid()
    ensures !conn.port.deviceOpen ==> r == Failure(PortNotOpen) && conn.port.written == old(conn.port.written)
    ensures conn.port.deviceOpen && !settings.permissions.write ==>
      r == Failure(WsNoWritePermission) && conn.port.written == old(conn.port.written)
    ensures conn.port.deviceOpen && settings.permissions.write ==>
      r == Success(|message|) && conn.port.written == old(conn.port.written) + [message]
  {
    if !conn.port.deviceOpen {
      return Failure(PortNotOpen);
    }
    if !settings.permissions.write {
      return Failure(WsNoWritePermission);
    }
    conn.port.WriteDevice(message);
    r := Success(|message|);
  }

  /**
   * A control-line message after `JSON.parse`: either it does not parse (or
   * parses to something without properties), or it is an object whose
   * `event` property is a string or absent.
   */
  datatype ControlRequest = Unparsable | Request(event: Option<string>)

  datatype ControlOutcome = Acknowledged | NotImplemented(event: Option<string>) | ParseError

  /**
   * A control message changes nothing: "open" is accepted and ignored, every
   * other event is reported as not implemented, and no permission is ever
   * consulted.
   */
  function ControlMessage(req: ControlRequest): (r: ControlOutcome)
    ensures r == ParseError <==> req == Unparsable
    ensures r == Acknowledged <==> req == Request(Some("open"))
    ensures r.NotImplemented? ==> req.Request? && r.event == req.event != Some("open")
  {
    match req
    case Unparsable => ParseError
    case Request(event) => if event == Some("open") then Acknowledged else NotImplemented(event)
  }
}
