/**
 * The configuration record that server.js builds from the command line and
 * hands to every transport (lib/webserver.js, lib/websocket.js, lib/tcp.js,
 * lib/udp.js), and the serial-port options object inside it.
 */
module Config {
  import opened Common

  /** `config.permissions`: the capability flags and the optional allow-list. */
  datatype Permissions = Permissions(
    list: bool,
    read: bool,
    write: bool,
    ui: bool,
    ws: bool,
    allowedPorts: Option<seq<string>>)

  datatype Parity = NoParity | EvenParity | OddParity | MarkParity | SpaceParity

  /**
   * The options object passed to the serial port: every key may be absent.
   * `autoOpen` is set to false before the device is created and deleted once
   * it is open.
   */
  datatype SerialOptions = SerialOptions(
    baudRate: Option<int>,
    dataBits: Option<int>,
    stopBits: Option<int>,
    parity: Option<Parity>,
    autoOpen: Option<bool>)

  /** `{ }` */
  const NoOptions := SerialOptions(None, None, None, None, None)

  /**
   * The fields of the server.js `config` object that the core reads (`cli`
   * says the process was started from the command line). `mode`
   * and `prefix` are absent when their option is the last argument (they take
   * `args[++i]`, which is then undefined).
   */
  datatype Config = Config(
    cli: bool,
    port: int,
    mode: Option<string>,
    prefix: Option<string>,
    verbose: bool,
    debug: bool,
    permissions: Permissions,
    portname: Option<string>,
    options: Option<SerialOptions>)
}
