/** The device endpoints: the combined device-information object, its four
    single-field counterparts, and the rendering of the system version. */
module DeviceEndpoints {
  import opened Format
  import opened Platform

  const InfoSettingsFailed := "Couldn't get device info! Error at MCP_GetSysProdSettings"
  const InfoVersionFailed := "Couldn't get device info! Error at MCP_GetSystemVersion"
  const InfoHardwareFailed := "Couldn't get device info! Error at bspGetHardwareVersion"
  const SerialFailed := "Couldn't get the serial! Error at MCP_GetSysProdSettings"
  const ModelFailed := "Couldn't get the model number! Error at MCP_GetSysProdSettings"
  const VersionFailed := "Couldn't get the system version! Error at MCP_SystemVersion"
  const HardwareFailed := "Couldn't get the hardware version! Error at bspGetHardwareVersion"

  /** "major.minor.patch" in decimal with the region character appended directly. */
  function VersionText(v: SystemVersion): (s: string)
    ensures |s| >= 6 && s[|s| - 1] == v.region
    ensures |s| > |Dec(v.major)| && s[..|Dec(v.major)|] == Dec(v.major) && s[|Dec(v.major)|] == '.'
  {
    var rest := "." + Dec(v.minor) + "." + Dec(v.patch) + [v.region];
    assert Dec(v.major) + "." + Dec(v.minor) + "." + Dec(v.patch) + [v.region] == Dec(v.major) + rest;
    Dec(v.major) + rest
  }

  /** The text before the first '.', and the text after it (empty when there is none). */
  function SplitAtDot(s: string): (parts: (string, string))
    ensures '.' !in parts.0
    decreases |s|
  {
    if s == [] then ([], [])
    else if s[0] == '.' then ([], s[1..])
    else
      var rest := SplitAtDot(s[1..]);
      ([s[0]] + rest.0, rest.1)
  }

  function ParseField(s: string): Option<U32> {
    if s != [] && AllDigits(s) && ParseDec(s) < 0x1_0000_0000 then Some(ParseDec(s)) else None
  }

  /** Reading a version text back: three dot-separated decimal fields, then the region. */
  function ParseVersion(s: string): Option<SystemVersion> {
    if s == [] then None
    else
      var first := SplitAtDot(s[..|s| - 1]);
      var second := SplitAtDot(first.1);
      match (ParseField(first.0), ParseField(second.0), ParseField(second.1))
      case (Some(major), Some(minor), Some(patch)) => Some(SystemVersion(major, minor, patch, s[|s| - 1]))
      case _ => None
  }

  lemma {:induction false} SplitAfterDigits(d: string, t: string)
    requires AllDigits(d)
    ensures SplitAtDot(d + "." + t) == (d, t)
    decreases |d|
  {
    if d == [] {
      assert d + "." + t == ['.'] + t;
    } else {
      assert (d + "." + t)[1..] == d[1..] + "." + t;
      SplitAfterDigits(d[1..], t);
      assert [d[0]] + d[1..] == d;
    }
  }

  lemma ParseFieldOfDec(n: U32)
    ensures ParseField(Dec(n)) == Some(n)
  {
    ParseDecOfDec(n);
  }

  /** The version text determines the version: it reads back to the record it came from. */
  lemma VersionRoundTrip(v: SystemVersion)
    ensures ParseVersion(VersionText(v)) == Some(v)
  {
    var s := VersionText(v);
    var tail := Dec(v.minor) + "." + Dec(v.patch);
    var body := Dec(v.major) + "." + tail;
    assert s == body + [v.region];
    assert s[..|s| - 1] == body;
    SplitAfterDigits(Dec(v.major), tail);
    SplitAfterDigits(Dec(v.minor), Dec(v.patch));
    assert SplitAtDot(body) == (Dec(v.major), tail);
    assert SplitAtDot(tail) == (Dec(v.minor), Dec(v.patch));
    ParseFieldOfDec(v.major);
    ParseFieldOfDec(v.minor);
    ParseFieldOfDec(v.patch);
  }

  lemma VersionTextInjective(a: SystemVersion, b: SystemVersion)
    ensures VersionText(a) == VersionText(b) ==> a == b
  {
    VersionRoundTrip(a);
    VersionRoundTrip(b);
  }

  function InfoFields(settings: SysProdSettings, version: SystemVersion, hardware: U32): map<string, string> {
    map["serial_id" := settings.serialId, "model_number" := settings.modelNumber,
        "system_version" := VersionText(version), "hardware_version" := Dec(hardware)]
  }

  /** GET /device/info. Each Option is the result of that platform query (None when it
      fails). The first failure ends the request with its own message; the two early
      returns skip closing the MCP handle. */
  function DeviceInfo(handle: int, settings: Option<SysProdSettings>, version: Option<SystemVersion>, hardware: Option<U32>): (r: Handled)
    ensures handle < 0 ==> r == Handled(McpOpenFailed(handle), [McpOpen])
    ensures handle >= 0 && settings.None? ==> r.outcome == ServerError(InfoSettingsFailed)
    ensures handle >= 0 && settings.Some? && version.None? ==> r.outcome == ServerError(InfoVersionFailed)
    ensures handle >= 0 && settings.Some? && version.Some? && hardware.None? ==> r.outcome == ServerError(InfoHardwareFailed)
    ensures handle >= 0 ==>
      |r.calls| >= 2 && r.calls <= [McpOpen, McpGetSysProdSettings, McpGetSystemVersion, McpClose, BspGetHardwareVersion]
    ensures McpClose in r.calls <==> handle >= 0 && settings.Some? && version.Some?
    ensures McpGetSystemVersion in r.calls <==> handle >= 0 && settings.Some?
    ensures BspGetHardwareVersion in r.calls <==> handle >= 0 && settings.Some? && version.Some?
    ensures HasStatus(r.outcome, 200) <==> handle >= 0 && settings.Some? && version.Some? && hardware.Some?
    ensures HasStatus(r.outcome, 200) ==>
      && r.outcome.response.body.JsonObject?
      && r.outcome.response.body.fields.Keys == {"serial_id", "model_number", "system_version", "hardware_version"}
      && r.outcome.response.body.fields["system_version"] == VersionText(version.value)
      && r.outcome.response.body.fields["hardware_version"] == Dec(hardware.value)
  {
    if handle < 0 then Handled(McpOpenFailed(handle), [McpOpen])
    else if settings.None? then Handled(ServerError(InfoSettingsFailed), [McpOpen, McpGetSysProdSettings])
    else if version.None? then
      Handled(ServerError(InfoVersionFailed), [McpOpen, McpGetSysProdSettings, McpGetSystemVersion])
    else
      var calls := [McpOpen, McpGetSysProdSettings, McpGetSystemVersion, McpClose, BspGetHardwareVersion];
      if hardware.None? then Handled(ServerError(InfoHardwareFailed), calls)
      else Handled(Ok(JsonObject(InfoFields(settings.value, version.value, hardware.value))), calls)
  }

  /** GET /device/serial_id: the handle is closed before the query's error is looked at. */
  function SerialId(handle: int, settings: Option<SysProdSettings>): (r: Handled)
    ensures handle < 0 ==> r == Handled(McpOpenFailed(handle), [McpOpen])
    ensures handle >= 0 ==> r.calls == [McpOpen, McpGetSysProdSettings, McpClose]
    ensures handle >= 0 && settings.None? ==> r.outcome == ServerError(SerialFailed)
    ensures handle >= 0 && settings.Some? ==> r.outcome == Ok(PlainText(settings.value.serialId))
  {
    if handle < 0 then Handled(McpOpenFailed(handle), [McpOpen])
    else
      var calls := [McpOpen, McpGetSysProdSettings, McpClose];
      if settings.None? then Handled(ServerError(SerialFailed), calls)
      else Handled(Ok(PlainText(settings.value.serialId)), calls)
  }

  /** GET /device/model_number. */
  function ModelNumber(handle: int, settings: Option<SysProdSettings>): (r: Handled)
    ensures handle < 0 ==> r == Handled(McpOpenFailed(handle), [McpOpen])
    ensures handle >= 0 ==> r.calls == [McpOpen, McpGetSysProdSettings, McpClose]
    ensures handle >= 0 && settings.None? ==> r.outcome == ServerError(ModelFailed)
    ensures handle >= 0 && settings.Some? ==> r.outcome == Ok(PlainText(settings.value.modelNumber))
  {
    if handle < 0 then Handled(McpOpenFailed(handle), [McpOpen])
    else
      var calls := [McpOpen, McpGetSysProdSettings, McpClose];
      if settings.None? then Handled(ServerError(ModelFailed), calls)
      else Handled(Ok(PlainText(settings.value.modelNumber)), calls)
  }

  /** GET /device/version. */
  function Version(handle: int, version: Option<SystemVersion>): (r: Handled)
    ensures handle < 0 ==> r == Handled(McpOpenFailed(handle), [McpOpen])
    ensures handle >= 0 ==> r.calls == [McpOpen, McpGetSystemVersion, McpClose]
    ensures handle >= 0 && version.None? ==> r.outcome == ServerError(VersionFailed)
    ensures handle >= 0 && version.Some? ==> r.outcome == Ok(PlainText(VersionText(version.value)))
  {
    if handle < 0 then Handled(McpOpenFailed(handle), [McpOpen])
    else
      var calls := [McpOpen, McpGetSystemVersion, McpClose];
      if version.None? then Handled(ServerError(VersionFailed), calls)
      else Handled(Ok(PlainText(VersionText(version.value))), calls)
  }

  /** GET /device/hardware_version: no MCP handle is involved. */
  function HardwareVersion(hardware: Option<U32>): (r: Handled)
    ensures r.calls == [BspGetHardwareVersion]
    ensures hardware.None? ==> r.outcome == ServerError(HardwareFailed)
    ensures hardware.Some? ==> r.outcome == Ok(PlainText(Dec(hardware.value)))
  {
    if hardware.None? then Handled(ServerError(HardwareFailed), [BspGetHardwareVersion])
    else Handled(Ok(PlainText(Dec(hardware.value))), [BspGetHardwareVersion])
  }

  /** When every query succeeds, each field of the device-information object is the
      body its single-field endpoint answers with for the same query results. */
  lemma InfoAgreesWithFieldEndpoints(handle: int, settings: SysProdSettings, version: SystemVersion, hardware: U32)
    requires handle >= 0
    ensures var info := DeviceInfo(handle, Some(settings), Some(version), Some(hardware)).outcome.response.body.fields;
      && info["serial_id"] == SerialId(handle, Some(settings)).outcome.response.body.text
      && info["model_number"] == ModelNumber(handle, Some(settings)).outcome.response.body.text
      && info["system_version"] == Version(handle, Some(version)).outcome.response.body.text
      && info["hardware_version"] == HardwareVersion(Some(hardware)).outcome.response.body.text
  {
  }
}
