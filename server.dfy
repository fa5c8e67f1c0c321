/** What the three plugin variants share about their HTTP server: the routes each
    registration function adds, the order a variant registers them in, how a start
    attempt ends, and the events the lifecycle operations leave behind. */
module Server {
  import opened Platform

  datatype Verb = Get | Post

  /** The first path segment; Root is the discovery path "/". */
  datatype Group = Root | Cec | Device | Gamepad | Launch | Odd | Power | Remote | Sdhc | Switch | Title | Vwii

  /** Every route any variant registers, identified by its verb and path. */
  datatype Route =
    | Discovery
    | CecEnabled | CecLatest | CecRequestTvActive | CecRequestTvOn | CecTvVolDown | CecTvVolUp
    | DeviceInfo | DeviceSerialId | DeviceModelNumber | DeviceVersion | DeviceHardwareVersion
    | GamepadBattery
    | LaunchMenu | LaunchTitle
    | OddTitleId
    | PowerShutdown | PowerReboot
    | RemoteKey
    | SdhcMounted
    | SwitchEManual | SwitchHbm
    | TitleCurrent | TitleList
    | VwiiLaunchMenu | VwiiLaunchDataManager

  const Port := 8572

  function GroupOf(r: Route): Group {
    match r
    case Discovery => Root
    case CecEnabled | CecLatest | CecRequestTvActive | CecRequestTvOn | CecTvVolDown | CecTvVolUp => Cec
    case DeviceInfo | DeviceSerialId | DeviceModelNumber | DeviceVersion | DeviceHardwareVersion => Device
    case GamepadBattery => Gamepad
    case LaunchMenu | LaunchTitle => Launch
    case OddTitleId => Odd
    case PowerShutdown | PowerReboot => Power
    case RemoteKey => Remote
    case SdhcMounted => Sdhc
    case SwitchEManual | SwitchHbm => Switch
    case TitleCurrent | TitleList => Title
    case VwiiLaunchMenu | VwiiLaunchDataManager => Vwii
  }

  /** `requested` handlers answer GET, `posted` handlers answer POST. */
  function VerbOf(r: Route): Verb {
    match r
    case Discovery | CecEnabled | CecLatest | DeviceInfo | DeviceSerialId | DeviceModelNumber
      | DeviceVersion | DeviceHardwareVersion | GamepadBattery | OddTitleId | SdhcMounted
      | TitleCurrent | TitleList => Get
    case _ => Post
  }

  function PathOf(r: Route): string {
    match r
    case Discovery => "/"
    case CecEnabled => "/cec/enabled"
    case CecLatest => "/cec/latest"
    case CecRequestTvActive => "/cec/request_tv_active"
    case CecRequestTvOn => "/cec/request_tv_on"
    case CecTvVolDown => "/cec/tv_vol_down"
    case CecTvVolUp => "/cec/tv_vol_up"
    case DeviceInfo => "/device/info"
    case DeviceSerialId => "/device/serial_id"
    case DeviceModelNumber => "/device/model_number"
    case DeviceVersion => "/device/version"
    case DeviceHardwareVersion => "/device/hardware_version"
    case GamepadBattery => "/gamepad/battery"
    case LaunchMenu => "/launch/menu"
    case LaunchTitle => "/launch/title"
    case OddTitleId => "/odd/titleid"
    case PowerShutdown => "/power/shutdown"
    case PowerReboot => "/power/reboot"
    case RemoteKey => "/remote/key"
    case SdhcMounted => "/sdhc/mounted"
    case SwitchEManual => "/switch/emanual"
    case SwitchHbm => "/switch/hbm"
    case TitleCurrent => "/title/current"
    case TitleList => "/title/list"
    case VwiiLaunchMenu => "/vwii/launch/menu"
    case VwiiLaunchDataManager => "/vwii/launch/data_manager"
  }

  /** The routes of each registration function, in registration order. */
  function GroupRoutes(g: Group): (routes: seq<Route>)
    ensures forall i :: 0 <= i < |routes| ==> GroupOf(routes[i]) == g
  {
    match g
    case Root => [Discovery]
    case Cec => [CecEnabled, CecLatest, CecRequestTvActive, CecRequestTvOn, CecTvVolDown, CecTvVolUp]
    case Device => [DeviceInfo, DeviceSerialId, DeviceModelNumber, DeviceVersion, DeviceHardwareVersion]
    case Gamepad => [GamepadBattery]
    case Launch => [LaunchMenu, LaunchTitle]
    case Odd => [OddTitleId]
    case Power => [PowerShutdown, PowerReboot]
    case Remote => [RemoteKey]
    case Sdhc => [SdhcMounted]
    case Switch => [SwitchEManual, SwitchHbm]
    case Title => [TitleCurrent, TitleList]
    case Vwii => [VwiiLaunchMenu, VwiiLaunchDataManager]
  }

  /** Each route belongs to the registration function of its group. */
  lemma InOwnGroup(r: Route)
    ensures r in GroupRoutes(GroupOf(r))
  {
  }

  /** The endpoint-module plugin: "/", the CEC group when CEC is enabled, then the other ten groups. */
  function AromaPlan(enableCEC: bool): (plan: seq<Route>)
    ensures |plan| > 0 && plan[0] == Discovery
    ensures |plan| == if enableCEC then 26 else 20
  {
    GroupRoutes(Root) + (if enableCEC then GroupRoutes(Cec) else [])
    + GroupRoutes(Device) + GroupRoutes(Gamepad) + GroupRoutes(Launch) + GroupRoutes(Odd) + GroupRoutes(Power)
    + GroupRoutes(Remote) + GroupRoutes(Sdhc) + GroupRoutes(Switch) + GroupRoutes(Title) + GroupRoutes(Vwii)
  }

  /** The older monolithic plugin registers its handlers inline, in this order. */
  function LegacyPlan(): (plan: seq<Route>)
    ensures |plan| > 0 && plan[0] == Discovery
    ensures forall r :: r in plan ==> GroupOf(r) !in {Cec, Odd, Sdhc, Vwii}
  {
    [Discovery, PowerShutdown, PowerReboot, DeviceSerialId, DeviceModelNumber, DeviceVersion,
     DeviceHardwareVersion, GamepadBattery, RemoteKey, TitleCurrent, TitleList, LaunchMenu,
     LaunchTitle, SwitchEManual]
  }

  /** The standalone process: "/" and five groups. */
  function EcoPlan(): (plan: seq<Route>)
    ensures |plan| == 14 && plan[0] == Discovery
    ensures forall i, j :: 0 <= i < j < |plan| ==> plan[i] != plan[j]
  {
    GroupRoutes(Root) + GroupRoutes(Device) + GroupRoutes(Launch) + GroupRoutes(Power)
    + GroupRoutes(Switch) + GroupRoutes(Title)
  }

  /** How a start attempt ends: every route registered and listening on the port, or an
      exception once `registered` registrations have been made (a count at least the
      plan's length means listening itself threw). */
  datatype StartRun = Listens | ThrowsAfter(registered: nat)

  /** A request to start the server on its own thread: creating the thread can fail,
      otherwise the start runs to completion before anything else happens. */
  datatype Spawn = SpawnFails | Spawned(run: StartRun)

  /** The registrations a start attempt gets through: the whole plan, or the
      first `registered` of its routes. */
  function Attempted(plan: seq<Route>, run: StartRun): (prefix: seq<Route>)
    ensures prefix <= plan
    ensures run.Listens? ==> prefix == plan
    ensures run.ThrowsAfter? ==> |prefix| == if run.registered < |plan| then run.registered else |plan|
  {
    match run
    case Listens => plan
    case ThrowsAfter(k) => if k < |plan| then plan[..k] else plan
  }

  /** The routes a start attempt leaves registered. */
  function RegisteredBy(plan: seq<Route>, run: StartRun): set<Route> {
    set r | r in Attempted(plan, run)
  }

  datatype ConfigValue = BoolValue(b: bool) | NumberValue(n: U32)

  const EnableServerKey := "enableServer"
  const EnableCecKey := "enableCEC"
  const TitleLangKey := "titleLang"

  /** What the plugin storage holds for each setting at load time (None: never stored). */
  datatype StoredConfig = StoredConfig(enableServer: Option<bool>, enableCEC: Option<bool>, titleLang: Option<U32>)

  /** GetOrStoreDefault: a setting absent from storage has its default stored. */
  function DefaultStored(key: string, absent: bool, default: ConfigValue): seq<Event> {
    if absent then [Store(key, default)] else []
  }

  /** Observable effects of the lifecycle operations, in order. */
  datatype Event =
    | StartListening(port: nat)
    | ErrorNotification
    | Shutdown
    | Store(key: string, value: ConfigValue)
    | SaveStorage
    | NetworkConnect
    | PlatformCall(call: Call)

  function CallEvents(calls: seq<Call>): (events: seq<Event>)
    ensures |events| == |calls|
    ensures forall i :: 0 <= i < |calls| ==> events[i] == PlatformCall(calls[i])
  {
    seq(|calls|, i requires 0 <= i < |calls| => PlatformCall(calls[i]))
  }

  /** The events of a start attempt that gets past the running check. */
  function StartEvents(run: StartRun, notifies: bool): seq<Event> {
    if run.Listens? then [StartListening(Port)] else if notifies then [ErrorNotification] else []
  }

  /** The CEC routes are there exactly when CEC is enabled at start; every other
      route of the endpoint-module plugin is always there. */
  lemma CecRoutesIffEnabled(enableCEC: bool)
    ensures AromaPlan(enableCEC)[0] == Discovery
    ensures forall r :: r in AromaPlan(enableCEC) <==> (GroupOf(r) == Cec ==> enableCEC)
  {
    var plan := AromaPlan(enableCEC);
    forall r ensures r in plan <==> (GroupOf(r) == Cec ==> enableCEC) {
      InOwnGroup(r);
    }
  }

  /** The standalone process serves "/" and the device, launch, power, switch and
      title groups, and nothing of the gamepad, remote, CEC, disc, SD card or vWii groups. */
  lemma EcoLeavesOutGroups()
    ensures EcoPlan()[0] == Discovery
    ensures forall r :: r in EcoPlan() <==> GroupOf(r) in {Root, Device, Launch, Power, Switch, Title}
    ensures forall r :: r in EcoPlan() ==> !(GroupOf(r) in {Gamepad, Remote, Cec, Odd, Sdhc, Vwii})
  {
    var plan := EcoPlan();
    forall r ensures r in plan <==> GroupOf(r) in {Root, Device, Launch, Power, Switch, Title} {
      InOwnGroup(r);
    }
  }

  /** The button route answers POST only, in every variant that has it. */
  lemma RemoteKeyIsPost(enableCEC: bool)
    ensures RemoteKey in AromaPlan(enableCEC) && RemoteKey in LegacyPlan()
    ensures VerbOf(RemoteKey) == Post && PathOf(RemoteKey) == "/remote/key"
    ensures forall r :: PathOf(r) == "/remote/key" ==> r == RemoteKey
  {
    CecRoutesIffEnabled(enableCEC);
    assert GroupOf(RemoteKey) == Remote;
    assert LegacyPlan()[8] == RemoteKey;
  }

  /** Every route of the older plugin is still served by the endpoint-module plugin. */
  lemma LegacyRoutesKept(enableCEC: bool)
    ensures forall r :: r in LegacyPlan() ==> r in AromaPlan(enableCEC)
  {
  }

  /** A start registers only routes of its plan, all of them when it gets to listening,
      and never a later registration without every earlier one. */
  lemma RegisteredWithinPlan(plan: seq<Route>, run: StartRun, i: nat, j: nat)
    ensures RegisteredBy(plan, run) <= set r | r in plan
    ensures run.Listens? ==> RegisteredBy(plan, run) == set r | r in plan
    ensures i <= j < |Attempted(plan, run)| ==> plan[i] in RegisteredBy(plan, run)
  {
    var prefix := Attempted(plan, run);
    if i <= j < |prefix| {
      assert prefix[i] == plan[i];
    }
  }
}
