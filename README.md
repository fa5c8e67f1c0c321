# Ristretto, modelled in Dafny

Ristretto is a Wii U plugin that exposes console functions over HTTP on port 8572.
This project models its core:

- **Server lifecycle.** The running flag and the three settings (server switch, CEC switch, title language) are kept as fields of a class, one class per variant:
  - the endpoint-module plugin (`AromaPlugin.Plugin`);
  - the older monolithic plugin (`LegacyPlugin.Plugin`);
  - the standalone process (`EcoProcess.EcoServer`).

  Each class carries a ghost trace of observable events: start listening, error notification, shutdown, storage writes, platform calls. Its methods are `make_server`, `stop_server`, the change callbacks, the menu-close callback, and the load, unload and application hooks.
- **Routes.** The routes each registration function adds, and the order in which each variant registers them (`Server`).
- **Button injection.** `POST /remote/key` leaves a pending button mask. The hooked `VPADRead` ORs it into the held buttons of the next successful read, once (`RemoteInput`).
- **HDMI-CEC.** The claim-active-source exchange, the single-send handlers, and the `/cec/latest` text dump (`CecEndpoints`).
- **Titles.** The choice of a title name by configured language, with an English fallback (`Languages`). The `/title/current` decision and the `/title/list` filter and map builder (`TitleEndpoints`).
- **Handler decision trees.** These cover `/switch/emanual` and `/switch/hbm`, `/launch/menu` and `/launch/title`, and the `/device/*` endpoints. Each maps the results of the platform queries to a response or an exception, plus the ordered list of platform calls made, including MCP open/close.
- **Byte order.** The byte-swap and host/big/little conversions of this big-endian host (`Endian`).

Platform services (MCP, ACP, BSP, SYS, TVE/AVM CEC, RPX loader) are not implemented. What a service returns is a parameter; `None` means the call failed. A handler returns `Handled(outcome, calls)`, where the outcome is a response (status and body) or a thrown exception.

Starting the server is described by a `StartRun`. It either gets to listening, or throws after some number of registrations. `make_server_on_thread` is described by a `Spawn`. Creating the thread can fail; otherwise `make_server` runs to completion before anything else happens.

Where the prose description of the system and the code disagree, the model follows the code:

- A start that throws leaves the running flag set. The model does not fall back to a stopped state, and no later start is attempted (`AromaPlugin.FailedStartBlocksRestart`).
- A request field that is missing or not a number makes `stoi`/`stoll` throw. It is not answered with a client error (`Throw(InvalidArgument)` / `Throw(OutOfRange)`).

## Model

| member | source | states |
|---|---|---|
| Format.Dec | src/endpoints/title.cpp:132 | the decimal rendering of a number is a non-empty digit string with no leading zero (it starts with '0' only for zero) |
| Format.ParseDecOfDec | src/endpoints/title.cpp:132 | reading the decimal rendering back gives the number: the rendering loses nothing |
| Format.DecInjective | src/endpoints/title.cpp:132 | distinct title ids give distinct decimal keys |
| Format.BoolText | src/endpoints/cec.cpp:46 | a boolean renders as the decimal of 1 or 0 |
| Format.CString | src/endpoints/title.cpp:63-65 | the text taken from a path buffer is a NUL-free prefix of it, ending just before the first NUL if there is one |
| Endian.Bswap16 | src/utils/endian.cpp:3-6 | stored in memory, the result holds the argument's two bytes in reverse order |
| Endian.Bswap32 | src/utils/endian.cpp:8-11 | stored in memory, the result holds the argument's four bytes in reverse order |
| Endian.Bswap64 | src/utils/endian.cpp:13-16 | stored in memory, the result holds the argument's eight bytes in reverse order |
| Endian.Be16toh | src/utils/endian.cpp:18-19 | the argument as stored is the big-endian encoding of the result |
| Endian.Be32toh | src/utils/endian.cpp:21-22 | the argument as stored is the big-endian encoding of the result |
| Endian.Be64toh | src/utils/endian.cpp:24-25 | the argument as stored is the big-endian encoding of the result |
| Endian.Htobe16 | src/utils/endian.cpp:27-28 | the result as stored is the big-endian encoding of the argument |
| Endian.Htobe32 | src/utils/endian.cpp:30-31 | the result as stored is the big-endian encoding of the argument |
| Endian.Htobe64 | src/utils/endian.cpp:33-34 | the result as stored is the big-endian encoding of the argument |
| Endian.Htole16 | src/utils/endian.cpp:36-37 | the result as stored is the little-endian encoding of the argument |
| Endian.Htole32 | src/utils/endian.cpp:39-40 | the result as stored is the little-endian encoding of the argument |
| Endian.Htole64 | src/utils/endian.cpp:42-43 | the result as stored is the little-endian encoding of the argument |
| Endian.Le16toh | src/utils/endian.cpp:45-46 | the argument as stored is the little-endian encoding of the result |
| Endian.Le32toh | src/utils/endian.cpp:48-49 | the argument as stored is the little-endian encoding of the result |
| Endian.Le64toh | src/utils/endian.cpp:51-52 | the argument as stored is the little-endian encoding of the result |
| Endian.BswapReversesBytes16 | src/utils/endian.cpp:3-6 | byte i of the swapped value is byte 1-i of the argument |
| Endian.BswapReversesBytes32 | src/utils/endian.cpp:8-11 | byte i of the swapped value is byte 3-i of the argument |
| Endian.BswapReversesBytes64 | src/utils/endian.cpp:13-16 | byte i of the swapped value is byte 7-i of the argument |
| Endian.BswapInvolution | src/utils/endian.cpp:3-16 | swapping twice gives the argument back, at every width |
| Endian.BigEndianIsIdentity | src/utils/endian.cpp:18-34 | the big-endian conversions are the identity on this host |
| Endian.LittleEndianIsBswap | src/utils/endian.cpp:36-52 | both little-endian conversions are the byte swap of the same width |
| Endian.LittleEndianRoundTrip | src/utils/endian.cpp:36-52 | host to little-endian and back, and the other way round, give the argument back |
| Endian.BigToLittleIsBswap | src/utils/endian.cpp:27-43 | converting a big-endian value to little-endian is a byte swap |
| Languages.LanguageIds | src/languages.h:7-21 | the twelve language ids are 0..11 in field order, and the default is English (0) |
| Languages.TitleLongname | src/languages.h:23-67 | ids 1..11 pick their own field when it is non-empty; an empty field, id 0, and any id of 12 or more give the English name; the result is English or a non-empty field; an English name makes the result non-empty; the endpoint module's copy at src/endpoints/title.cpp:6-51 is the same code |
| TitleEndpoints.CurrentTitle | src/endpoints/title.cpp:56-82 | a reported executable answers 200 with its NUL-terminated path after that one lookup; otherwise a failed title-id or metadata lookup gives 500 with its message, and success gives 200 with the localised name |
| TitleEndpoints.LegacyCurrentTitle | src/main.cpp:177-191 | the older handler has the same title-id and metadata ladder and never asks for an executable path |
| TitleEndpoints.CurrentTitleWithoutRpxIsLegacy | src/endpoints/title.cpp:68-81 | without a reported executable, the current handler answers exactly as the older one, after one extra lookup |
| TitleEndpoints.TitleLookups | src/endpoints/title.cpp:117-122 | the loop makes at most one metadata lookup per slot, and nothing but metadata lookups |
| TitleEndpoints.CollectTitles | src/endpoints/title.cpp:105-141 | the loop over every slot builds exactly the title map of the slots in order, and makes one metadata lookup per slot of an admitted type, in slot order |
| TitleEndpoints.TitleList | src/endpoints/title.cpp:85-144 | a negative handle throws after the open; a failed list call gives 500; otherwise 200 with the title map of all slots; the handle is closed before the error is looked at, and the metadata lookups of the loop follow the close; the older plugin's inline handler (src/main.cpp:194-250) is the same with account applications admitted |
| TitleEndpoints.TitleMapKeys | src/endpoints/title.cpp:114-132 | a key is in the map exactly when some slot with an admitted type, readable metadata and a non-empty English name has that decimal id |
| TitleEndpoints.TitleMapValue | src/endpoints/title.cpp:132 | every admitted slot's key maps to its title's localised name; duplicate ids agree |
| TitleEndpoints.TitleLookupsIff | src/endpoints/title.cpp:117-122 | a title id's metadata is looked up exactly when some slot of an admitted type carries it |
| TitleEndpoints.ListedTitlesWereLookedUp | src/endpoints/title.cpp:122-132 | every title in the list had its metadata looked up |
| TitleEndpoints.TitleMapNames | src/endpoints/title.cpp:129-132 | every name in the list is non-empty and is one of its title's longnames |
| TitleEndpoints.AccountAppsOnlyInLegacyList | src/main.cpp:222-227 | an account application is listed by the older plugin and left out by the endpoint module |
| CecEndpoints.CecEnabled | src/endpoints/cec.cpp:8-10 | answers 200 with "1" or "0" after one CEC-state query |
| CecEndpoints.ClaimActiveSourceCalls | src/endpoints/cec.cpp:28-44 | four calls: GIVE_PHYSICAL_ADDRESS without parameters, one receive, TEXT_VIEW_ON without parameters, and ACTIVE_SOURCE whose single parameter is the received byte; every send goes to the TV |
| CecEndpoints.RequestTvActive | src/endpoints/cec.cpp:28-47 | makes the claim-active-source exchange and answers 200 with the ACTIVE_SOURCE acknowledgement only |
| CecEndpoints.RequestTvOn | src/endpoints/cec.cpp:49-53 | one TEXT_VIEW_ON to the TV without parameters; the body is its acknowledgement |
| CecEndpoints.TvVolume | src/endpoints/cec.cpp:55-65 | one USER_CONTROL_PRESSED to the TV carrying 65 for volume up or 66 for volume down; the body is its acknowledgement |
| CecEndpoints.Latest | src/endpoints/cec.cpp:13-26 | one receive; then the header followed by one line per reported parameter in increasing index, or an out-of-range exception when the count passes the buffer |
| CecEndpoints.LatestFromBuffer | src/endpoints/cec.cpp:17-25 | with the 100-slot buffer, the handler answers exactly when at most 100 parameters are reported, with 200 and one newline per parameter |
| CecEndpoints.ParamLinesCount | src/endpoints/cec.cpp:21-23 | n parameters add exactly n lines |
| CecEndpoints.HeaderHasNoNewline | src/endpoints/cec.cpp:20 | the header is a single line |
| CecEndpoints.ParamLineHasOneNewline | src/endpoints/cec.cpp:22 | each parameter line holds exactly one newline |
| DeviceEndpoints.VersionText | src/endpoints/device.cpp:38 | the version text (also at device.cpp:100) starts with the decimal major version and a dot and ends with the region character, which follows the patch with no separator |
| DeviceEndpoints.VersionRoundTrip | src/endpoints/device.cpp:100 | the version text reads back to the version it came from |
| DeviceEndpoints.VersionTextInjective | src/endpoints/device.cpp:38 | distinct system versions render to distinct texts |
| DeviceEndpoints.DeviceInfo | src/endpoints/device.cpp:6-42 | a negative handle throws; the first failing query gives 500 with its message; with a valid handle the calls are a prefix of at least two of open, settings, version, close, hardware, so the two early 500s open the handle without closing it; the handle is closed exactly when both MCP queries succeed; later queries are made only after earlier ones succeed; 200 exactly when all succeed, with the four keys and the rendered version and hardware values |
| DeviceEndpoints.SerialId | src/endpoints/device.cpp:46-63 | the handle is closed before the error is looked at; the serial text on success, 500 with its message on failure |
| DeviceEndpoints.ModelNumber | src/endpoints/device.cpp:66-83 | the handle is closed before the error is looked at; the model text on success, 500 with its message on failure |
| DeviceEndpoints.Version | src/endpoints/device.cpp:86-102 | the handle is closed before the error is looked at; the version text on success, 500 with its message on failure |
| DeviceEndpoints.HardwareVersion | src/endpoints/device.cpp:106-116 | one BSP query; the decimal value on success, 500 with its message on failure |
| DeviceEndpoints.InfoAgreesWithFieldEndpoints | src/endpoints/device.cpp:35-41 | each field of the information object is what its single-field endpoint answers for the same query results |
| SwitchEndpoints.SwitchToEManual | src/endpoints/switch.cpp:21-65 | the 500 messages of the two lookups; it throws exactly when there is no manual version and the open fails; the status is 200, 409 or 500; one switch when the answer is 200 and none otherwise; a 409 comes only after both lookups, the open, the type query and the close; 200 exactly when the metadata declares a manual or the application is a game; a declared manual needs no MCP call; with no declared manual and an open handle, a failed type query answers 500 with its own message and leaves the handle open; the older plugin's inline handler (src/main.cpp:292-336) makes the same decision |
| SwitchEndpoints.EManualFollowsDecision | src/endpoints/switch.cpp:37-62 | once the lookups succeed, the answer is 200 exactly when the manual decision holds and 409 exactly when it does not |
| SwitchEndpoints.SwitchToHbm | src/endpoints/switch.cpp:73-76 | one switch to the HOME button menu in mode 0, then 200 |
| LaunchEndpoints.LaunchMenu | src/endpoints/launch.cpp:5-10 | one menu launch, then 200 |
| LaunchEndpoints.ToU64 | src/endpoints/launch.cpp:16 | a signed 64-bit id becomes unsigned by reduction modulo 2^64 |
| LaunchEndpoints.LaunchTitle | src/endpoints/launch.cpp:14-25 | a non-numeric or out-of-range field throws before any call; an existing id is checked, then launched, with 200; a missing id is checked and answered 404; the older plugin's inline handler (src/main.cpp:262-273) is the same |
| LaunchEndpoints.LaunchOnlyAfterCheck | src/endpoints/launch.cpp:17-24 | a launch happens only right after the existence check of the same id, only for an installed id, and exactly when the answer is 200 |
| RemoteInput.Unsigned32 | src/aroma/main.cpp:292 | the pending int enters the 32-bit mask by reduction modulo 2^32 |
| RemoteInput.InputBridge.constructor | src/main.cpp:45-46 | no button is pending and the battery level is 0 at load |
| RemoteInput.InputBridge.PostKey | src/endpoints/remote.cpp:10-15 | the parsed value replaces the pending mask and the answer is 200; a field that is not a number, or is outside int, throws and leaves the mask as it was; the older plugin's inline handler (src/main.cpp:170-175) is the same |
| RemoteInput.InputBridge.VpadRead | src/aroma/main.cpp:287-297 | the read's result is passed through; on success the battery is kept, the pending mask is ORed into the held buttons and cleared; on failure nothing changes; the older plugin's hook (src/main.cpp:485-495) is the same |
| RemoteInput.LastKeyAppliedOnce | src/endpoints/remote.cpp:13 | of two key requests the last one wins; it reaches the next successful read and is not applied by the one after |
| RemoteInput.LastKeyWaitsForSuccessfulRead | src/aroma/main.cpp:289-295 | a failed read leaves the held buttons and the pending key alone; the key reaches the next successful read |
| Server.GroupRoutes | src/aroma/main.cpp:70-82 | every route a registration function adds belongs to that function's group |
| Server.AromaPlan | src/aroma/main.cpp:65-84 | the endpoint-module plugin registers "/" first, then 25 routes with CEC enabled or 19 without |
| Server.EcoPlan | src/eco_process/main.cpp:35-47 | the standalone process registers "/" first, then 13 routes, none twice |
| Server.LegacyPlan | src/main.cpp:65-292 | the older plugin registers "/" first and no CEC, disc, SD card or vWii route |
| Server.Attempted | src/aroma/main.cpp:62-92 | the registrations a start gets through are a prefix of the plan, all of it when it gets to listening |
| Server.CecRoutesIffEnabled | src/aroma/main.cpp:66-84 | "/" is registered first; a route is in the plan exactly when it is not a CEC route or CEC is enabled |
| Server.EcoLeavesOutGroups | src/eco_process/main.cpp:35-47 | the standalone process serves exactly "/" and the device, launch, power, switch and title groups |
| Server.RemoteKeyIsPost | src/endpoints/remote.cpp:10 | the button route is registered for POST on /remote/key only, by both plugins |
| Server.LegacyRoutesKept | src/main.cpp:65-292 | every route of the older plugin is still served by the endpoint-module plugin |
| Server.RegisteredWithinPlan | src/aroma/main.cpp:62-92 | a start registers only routes of its plan, all of them when it listens, and no route without every earlier one |
| AromaPlugin.Discovery | src/aroma/main.cpp:65-67 | "/" answers 200 "Ristretto" without any platform call |
| AromaPlugin.Plugin.constructor | src/aroma/main.cpp:43-54 | at load there is no server, both switches are on and the title language is English |
| AromaPlugin.Plugin.MakeServer | src/aroma/main.cpp:56-93 | with a server already made nothing changes; otherwise the running flag is set and stays set, the plan's attempted routes are registered (CEC group only when enabled), and a failed start leaves one notification |
| AromaPlugin.Plugin.StopServer | src/aroma/main.cpp:95-103 | without a server nothing changes; otherwise exactly one shutdown and the running flag cleared |
| AromaPlugin.Plugin.MakeServerOnThread | src/aroma/main.cpp:105-112 | a thread that cannot be created changes nothing; otherwise make_server runs |
| AromaPlugin.Plugin.EnableCecChanged | src/aroma/main.cpp:114-120 | the new value is always taken and stored only when it differs; the plugin stays well-formed |
| AromaPlugin.Plugin.EnableServerChanged | src/aroma/main.cpp:122-128 | the new value is always taken and stored only when it differs; the server is left alone; the plugin stays well-formed |
| AromaPlugin.Plugin.TitleLangChanged | src/aroma/main.cpp:130-135 | the new value is always taken and stored only when it differs; the plugin stays well-formed |
| AromaPlugin.Plugin.ConfigMenuClosed | src/aroma/main.cpp:166-173 | saves first; stops a made server that is disabled, keeping the registered routes; starts a missing server that is enabled, otherwise changes nothing; a start thread that cannot be created leaves everything but the save unchanged; once a start thread is created the server is made exactly when it is enabled |
| AromaPlugin.Plugin.Initialize | src/aroma/main.cpp:198-253 | the server switch and title language come from storage (defaults stored when absent), then a save; the CEC switch keeps its initial value, and when it is on, CEC is switched on and the claim-active-source exchange runs |
| AromaPlugin.Plugin.InitializeFromStorage | src/aroma/main.cpp:213-231 | the load hook with the CEC switch read from storage too: the exchange runs only when the stored switch is on |
| AromaPlugin.Plugin.Deinitialize | src/aroma/main.cpp:256-263 | unloading leaves no server, with one shutdown if there was one |
| AromaPlugin.Plugin.ApplicationStart | src/aroma/main.cpp:266-280 | reconnects the network, switches CEC on again when enabled, and starts the server only when it is enabled |
| AromaPlugin.Plugin.ApplicationEnds | src/aroma/main.cpp:282-285 | stops the server only when it is enabled; a disabled server that still runs keeps running |
| AromaPlugin.StartIsIdempotent | src/aroma/main.cpp:56-61 | a second start registers nothing and starts nothing |
| AromaPlugin.DisableServerThenCloseMenu | src/aroma/main.cpp:166-173 | disabling the server and closing the menu stops a running server |
| AromaPlugin.FailedStartBlocksRestart | src/aroma/main.cpp:88-92 | a start that throws leaves the flag set and the server not listening, and later start requests change nothing |
| AromaPlugin.CecSettingLostOnReload | src/aroma/main.cpp:213-231 | a CEC switch turned off and stored is on again after a reload, and the next successful start registers the CEC routes |
| AromaPlugin.CecSettingKeptOnReload | src/aroma/main.cpp:213-231 | with the switch read from storage, a stored "off" stays off and no CEC route is registered |
| LegacyPlugin.Plugin.constructor | src/main.cpp:43-52 | at load there is no server, the server switch is on and the title language is English |
| LegacyPlugin.Plugin.MakeServer | src/main.cpp:54-343 | with a server already made nothing changes; otherwise the flag is set and stays set, the plan's attempted routes are registered, and a failed start is only logged |
| LegacyPlugin.Plugin.StopServer | src/main.cpp:345-351 | nothing changes when the server switch is off or there is no server; otherwise exactly one shutdown |
| LegacyPlugin.Plugin.MakeServerOnThread | src/main.cpp:353-360 | a thread that cannot be created changes nothing; otherwise make_server runs |
| LegacyPlugin.Plugin.EnableServerChanged | src/main.cpp:362-368 | the new value is always taken and stored only when it differs; the plugin stays well-formed |
| LegacyPlugin.Plugin.TitleLangChanged | src/main.cpp:370-375 | the new value is always taken and stored only when it differs; the plugin stays well-formed |
| LegacyPlugin.Plugin.ConfigMenuClosed | src/main.cpp:408-415 | saves first; a made server stays made whatever the switch says; a missing enabled server is started, and left missing when its thread cannot be created |
| LegacyPlugin.Plugin.Initialize | src/main.cpp:440-462 | the server switch and title language come from storage (defaults stored when absent), then a save |
| LegacyPlugin.Plugin.Deinitialize | src/main.cpp:465-470 | unloading stops the server only when the switch is on |
| LegacyPlugin.Plugin.ApplicationStart | src/main.cpp:473-478 | reconnects the network and starts the server only when it is enabled |
| LegacyPlugin.Plugin.ApplicationEnds | src/main.cpp:480-483 | stops the server only when it is enabled |
| LegacyPlugin.DisableServerThenCloseMenu | src/main.cpp:408-415 | disabling the server and closing the menu leaves a made server made, and listening if it was |
| EcoProcess.EcoServer.constructor | src/eco_process/main.cpp:20-21 | the process starts without a server |
| EcoProcess.EcoServer.CreateServer | src/eco_process/main.cpp:23-56 | returns 0 in every case; with a server already made nothing changes; otherwise the flag is set before registering and stays set, and the five groups and "/" are attempted |
| EcoProcess.Discovery | src/eco_process/main.cpp:35-37 | "/" answers 200 "Ristretto (ECO)" |
| EcoProcess.SecondCreateIsNoOp | src/eco_process/main.cpp:26-28 | a second create returns 0 and changes nothing |
| EcoProcess.NoRemoteControl | src/eco_process/main.cpp:45-47 | the standalone process never registers the button or battery routes |

## Left out

- HTTP transport: dispatch, answering unknown paths, the conversion of a thrown exception into a response, and the library's behaviour when a route is registered twice. A second registration of a route is taken as a no-op (routes form a set).
- Threads: the detached start thread is taken to run `make_server` to completion before anything else happens. Races on the running flag, and the standalone process's main thread and join, are not modelled.
- Platform services (MCP, ACP, BSP, SYS, TVE/AVM CEC, RPX loader, nn::ac) are inputs or trace events, not implementations. Numeric values of application types and of the CEC logical address constants come from the platform headers, which are not part of this model; the TV is address 0 and the opcodes are those of the HDMI 1.4 CEC supplement.
- The power, SD card, disc drive, gamepad battery and vWii handlers are single platform calls. Their routes are listed, but their handlers are not modelled.
- JSON parsing and the full `stoi`/`stoll` grammar: the parsed integer, or the failure to parse, is an input (`ParsedField`).
- Logging and standard-output redirection, the notification text, and the construction of the configuration menu.
- Storage persistence beyond the Store and SaveStorage events. A failed storage call is only logged by the source, so it is not modelled.
- Heap allocation and the leaks of buffers in handlers.
- The receive of the claim-active-source exchange writes a parameter array into a one-byte `tvAddress`, both at load (src/aroma/main.cpp:240-245) and in `/cec/request_tv_active` (src/endpoints/cec.cpp:36-38). Only the first byte is modelled (`received`); the overflow is not.
- `/cec/latest` takes the receive's parameter buffer as a sequence and does not model the receive writing past it.
- Of the gamepad status record only `hold` and `battery` are modelled.
- The `/gamepad/battery` handler, which answers the stored battery level, is not modelled; that level is the field `RemoteInput.InputBridge.vpadBattery` the read hook writes.
- `src/utils/endian.h` holds declarations only.

## Findings

| source | as written | input that shows it | evidently intended | confidence | as-written member | corrected member |
|---|---|---|---|---|---|---|
| src/main.cpp:346 | `stop_server` also returns when the server switch is off, so the menu-close branch that stops a made, disabled server does nothing | start the server, turn "Enable Server" off, close the menu: the server keeps running | closing the menu with the switch off stops the server, as in src/aroma/main.cpp:95-103 | high, not executed | LegacyPlugin.DisableServerThenCloseMenu | AromaPlugin.DisableServerThenCloseMenu |
| src/aroma/main.cpp:213-231 | the load hook reads the server switch and the title language from storage but never the CEC switch | turn "Enable CEC" off (stored as false), reload the plugin: CEC is on again, the exchange runs and the CEC routes are registered | the stored CEC switch is read like the other two | medium, not executed | AromaPlugin.CecSettingLostOnReload | AromaPlugin.CecSettingKeptOnReload |
