/** The boundary between the plugin and the console: responses the HTTP library
    sends back, exceptions a handler lets escape, the records that system services
    fill in, and the platform calls a handler makes, in order. */
module Platform {
  import opened Format

  type Byte = x: nat | x < 0x100
  type U32 = x: nat | x < 0x1_0000_0000
  type U64 = x: nat | x < 0x1_0000_0000_0000_0000

  datatype Option<+T> = None | Some(value: T)

  /** Exceptions a handler throws; the HTTP library decides what the caller sees. */
  datatype Exception =
    | RuntimeError(what: string)  // std::runtime_error with its message
    | InvalidArgument             // std::stoi / std::stoll on text that is not a number
    | OutOfRange                  // a parsed number that does not fit, or vector::at past the end

  datatype Body = NoBody | PlainText(text: string) | JsonObject(fields: map<string, string>)

  datatype Response = Response(status: nat, body: Body)

  datatype Outcome = Respond(response: Response) | Throw(exception: Exception)

  /** A request field after JSON decoding and integer parsing: the parsed value,
      or text that does not start with a number (missing fields included). */
  datatype ParsedField = Number(n: int) | NotANumber

  /** MCP application types the handlers tell apart; any other type is OtherApp. */
  datatype AppType = Game | GameWii | SystemMenu | SystemApps | AccountApps | SystemSettings | OtherApp(code: U32)

  /** One slot of an MCP title list. */
  datatype TitleEntry = TitleEntry(titleId: U64, appType: AppType)

  /** The part of a title's ACP metadata the handlers read; each longname is the
      text before the first NUL of its fixed-size field. */
  datatype MetaXml = MetaXml(
    longnameEn: string, longnameJa: string, longnameFr: string, longnameDe: string,
    longnameIt: string, longnameEs: string, longnameZhs: string, longnameKo: string,
    longnameNl: string, longnamePt: string, longnameRu: string, longnameZht: string,
    eManualVersion: U32)

  datatype SysProdSettings = SysProdSettings(serialId: string, modelNumber: string)

  datatype SystemVersion = SystemVersion(major: U32, minor: U32, patch: U32, region: char)

  /** Calls into console services, recorded in the order a handler makes them. */
  datatype Call =
    | McpOpen
    | McpClose
    | McpGetSysProdSettings
    | McpGetSystemVersion
    | McpTitleList
    | McpGetTitleInfo(titleId: U64)
    | BspGetHardwareVersion
    | AcpGetTitleIdOfMainApplication
    | AcpGetTitleMetaXml(titleId: U64)
    | RpxGetPathOfRunningExecutable
    | SysCheckTitleExists(titleId: U64)
    | SysLaunchTitle(titleId: U64)
    | SysLaunchMenu
    | SysSwitchToEManual
    | SysSwitchToHbm(mode: nat)
    | CecSend(destination: Byte, opcode: Byte, params: seq<Byte>)
    | CecReceive
    | TveCecInit
    | TveIsCecEnable
    | TveSetCecEnable(enable: bool)
    | AvmCecInit
    | AvmEnableCec

  /** What one request produced: its outcome and the platform calls it made. */
  datatype Handled = Handled(outcome: Outcome, calls: seq<Call>)

  function Ok(body: Body): Outcome {
    Respond(Response(200, body))
  }

  function ServerError(message: string): Outcome {
    Respond(Response(500, PlainText(message)))
  }

  /** The exception every handler throws when MCP_Open returns a negative handle. */
  function McpOpenFailed(handle: int): Outcome {
    Throw(RuntimeError("MCP_Open() failed with error " + IntText(handle)))
  }

  predicate HasStatus(o: Outcome, status: nat) {
    o.Respond? && o.response.status == status
  }
}
