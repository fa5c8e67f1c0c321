/** The endpoint-module plugin: its settings, the server it starts and stops, the
    configuration callbacks, and the load, unload and application hooks. */
module AromaPlugin {
  import opened Platform
  import opened Server
  import opened Languages
  import CecEndpoints

  /** The text "/" answers with, so that clients can discover the console. */
  const DiscoveryText := "Ristretto"

  /** GET "/" of the plugin (both the endpoint-module and the older monolithic one). */
  function Discovery(): (r: Handled)
    ensures r.calls == [] && HasStatus(r.outcome, 200)
    ensures r.outcome.response.body == PlainText(DiscoveryText)
  {
    Handled(Ok(PlainText(DiscoveryText)), [])
  }

  class Plugin {
    var serverMade: bool
    var listening: bool
    var routes: set<Route>
    var enableServer: bool
    var enableCEC: bool
    var titleLang: U32
    ghost var trace: seq<Event>

    /** A listening server is one the plugin made. */
    ghost predicate Valid()
      reads this
    {
      listening ==> serverMade
    }

    /** The globals at load time: no server, both switches on, English titles. */
    constructor ()
      ensures Valid() && !serverMade && !listening && routes == {}
      ensures enableServer && enableCEC && titleLang == TitleLangDefault
      ensures trace == []
    {
      serverMade, listening, routes := false, false, {};
      enableServer, enableCEC, titleLang := true, true, TitleLangDefault;
      trace := [];
    }

    /** make_server. The running flag is set before anything is registered and stays
        set whatever the start attempt does; the CEC group is registered only when
        CEC is enabled at this moment; a failed start raises one notification. */
    method MakeServer(run: StartRun)
      requires Valid()
      modifies this
      ensures Valid()
      ensures old(serverMade) ==> unchanged(this)
      ensures !old(serverMade) ==> serverMade
      ensures !old(serverMade) ==> routes == old(routes) + RegisteredBy(AromaPlan(enableCEC), run)
      ensures !old(serverMade) ==> listening == run.Listens?
      ensures !old(serverMade) ==> trace == old(trace) + StartEvents(run, true)
      ensures enableServer == old(enableServer) && enableCEC == old(enableCEC) && titleLang == old(titleLang)
    {
      if serverMade {
        return;
      }
      serverMade := true;
      routes := routes + RegisteredBy(AromaPlan(enableCEC), run);
      if run.Listens? {
        listening := true;
        trace := trace + [StartListening(Port)];
      } else {
        trace := trace + [ErrorNotification];
      }
    }

    /** stop_server: nothing to do without a server; otherwise one shutdown. */
    method StopServer()
      requires Valid()
      modifies this
      ensures Valid()
      ensures !old(serverMade) ==> unchanged(this)
      ensures old(serverMade) ==> !serverMade && !listening && trace == old(trace) + [Shutdown]
      ensures routes == old(routes)
      ensures enableServer == old(enableServer) && enableCEC == old(enableCEC) && titleLang == old(titleLang)
    {
      if !serverMade {
        return;
      }
      listening := false;
      trace := trace + [Shutdown];
      serverMade := false;
    }

    /** make_server_on_thread: a thread that cannot be created changes nothing;
        otherwise make_server runs to completion. */
    method MakeServerOnThread(spawn: Spawn)
      requires Valid()
      modifies this
      ensures Valid()
      ensures spawn.SpawnFails? || old(serverMade) ==> unchanged(this)
      ensures spawn.Spawned? && !old(serverMade) ==>
        && serverMade && listening == spawn.run.Listens?
        && routes == old(routes) + RegisteredBy(AromaPlan(enableCEC), spawn.run)
        && trace == old(trace) + StartEvents(spawn.run, true)
      ensures enableServer == old(enableServer) && enableCEC == old(enableCEC) && titleLang == old(titleLang)
    {
      if spawn.Spawned? {
        MakeServer(spawn.run);
      }
    }

    /** enableCECChanged: storage is written only for a real change; the value is always taken. */
    method EnableCecChanged(newValue: bool)
      requires Valid()
      modifies this
      ensures Valid()
      ensures enableCEC == newValue
      ensures trace == old(trace) + (if newValue != old(enableCEC) then [Store(EnableCecKey, BoolValue(newValue))] else [])
      ensures serverMade == old(serverMade) && listening == old(listening) && routes == old(routes)
      ensures enableServer == old(enableServer) && titleLang == old(titleLang)
    {
      if newValue != enableCEC {
        trace := trace + [Store(EnableCecKey, BoolValue(newValue))];
      }
      enableCEC := newValue;
    }

    /** enableServerChanged: the server itself is left alone until the menu closes. */
    method EnableServerChanged(newValue: bool)
      requires Valid()
      modifies this
      ensures Valid()
      ensures enableServer == newValue
      ensures trace == old(trace) + (if newValue != old(enableServer) then [Store(EnableServerKey, BoolValue(newValue))] else [])
      ensures serverMade == old(serverMade) && listening == old(listening) && routes == old(routes)
      ensures enableCEC == old(enableCEC) && titleLang == old(titleLang)
    {
      if newValue != enableServer {
        trace := trace + [Store(EnableServerKey, BoolValue(newValue))];
      }
      enableServer := newValue;
    }

    /** titleLangChanged. */
    method TitleLangChanged(newValue: U32)
      requires Valid()
      modifies this
      ensures Valid()
      ensures titleLang == newValue
      ensures trace == old(trace) + (if newValue != old(titleLang) then [Store(TitleLangKey, NumberValue(newValue))] else [])
      ensures serverMade == old(serverMade) && listening == old(listening) && routes == old(routes)
      ensures enableServer == old(enableServer) && enableCEC == old(enableCEC)
    {
      if newValue != titleLang {
        trace := trace + [Store(TitleLangKey, NumberValue(newValue))];
      }
      titleLang := newValue;
    }

    /** ConfigMenuClosedCallback: save, then bring the server in line with the
        setting. Once a start thread is created, the server is made exactly when it is enabled. */
    method ConfigMenuClosed(spawn: Spawn)
      requires Valid()
      modifies this
      ensures Valid()
      ensures enableServer == old(enableServer) && enableCEC == old(enableCEC) && titleLang == old(titleLang)
      ensures |trace| > |old(trace)| && trace[..|old(trace)| + 1] == old(trace) + [SaveStorage]
      ensures old(serverMade) && !enableServer ==>
        !serverMade && !listening && routes == old(routes) && trace == old(trace) + [SaveStorage, Shutdown]
      ensures old(serverMade) == enableServer ==>
        && serverMade == old(serverMade) && listening == old(listening) && routes == old(routes)
        && trace == old(trace) + [SaveStorage]
      ensures !old(serverMade) && enableServer && spawn.Spawned? ==>
        && serverMade && listening == spawn.run.Listens?
        && routes == old(routes) + RegisteredBy(AromaPlan(enableCEC), spawn.run)
        && trace == old(trace) + [SaveStorage] + StartEvents(spawn.run, true)
      ensures !old(serverMade) && enableServer && spawn.SpawnFails? ==>
        && serverMade == old(serverMade) && listening == old(listening) && routes == old(routes)
        && trace == old(trace) + [SaveStorage]
      ensures spawn.Spawned? ==> serverMade == enableServer
      ensures spawn.SpawnFails? ==> serverMade == (old(serverMade) && enableServer)
    {
      trace := trace + [SaveStorage];
      if serverMade && !enableServer {
        StopServer();
      } else if !serverMade && enableServer {
        MakeServerOnThread(spawn);
      }
    }

    /** INITIALIZE_PLUGIN. The server switch and the title language are read from
        storage (their defaults stored when absent); then, when CEC is enabled, CEC
        is switched on and the claim-active-source exchange runs with every
        acknowledgement ignored. The stored CEC switch is never read here. */
    method Initialize(stored: StoredConfig, received: Byte)
      requires Valid()
      modifies this
      ensures Valid()
      ensures enableServer == (if stored.enableServer.Some? then stored.enableServer.value else true)
      ensures titleLang == (if stored.titleLang.Some? then stored.titleLang.value else TitleLangDefault)
      ensures enableCEC == old(enableCEC)
      ensures serverMade == old(serverMade) && listening == old(listening) && routes == old(routes)
      ensures trace == old(trace)
        + DefaultStored(EnableServerKey, stored.enableServer.None?, BoolValue(true))
        + DefaultStored(TitleLangKey, stored.titleLang.None?, NumberValue(TitleLangDefault))
        + [SaveStorage]
        + (if old(enableCEC) then CallEvents(CecEndpoints.EnableCecCalls() + CecEndpoints.ClaimActiveSourceCalls(received)) else [])
    {
      enableServer := if stored.enableServer.Some? then stored.enableServer.value else true;
      trace := trace + DefaultStored(EnableServerKey, stored.enableServer.None?, BoolValue(true));
      titleLang := if stored.titleLang.Some? then stored.titleLang.value else TitleLangDefault;
      trace := trace + DefaultStored(TitleLangKey, stored.titleLang.None?, NumberValue(TitleLangDefault));
      trace := trace + [SaveStorage];
      if enableCEC {
        trace := trace + CallEvents(CecEndpoints.EnableCecCalls() + CecEndpoints.ClaimActiveSourceCalls(received));
      }
    }

    /** The load hook as its settings evidently intend: the CEC switch is read from
        storage like the other two, so the exchange runs only when it was left on. */
    method InitializeFromStorage(stored: StoredConfig, received: Byte)
      requires Valid()
      modifies this
      ensures Valid()
      ensures enableServer == (if stored.enableServer.Some? then stored.enableServer.value else true)
      ensures enableCEC == (if stored.enableCEC.Some? then stored.enableCEC.value else true)
      ensures titleLang == (if stored.titleLang.Some? then stored.titleLang.value else TitleLangDefault)
      ensures serverMade == old(serverMade) && listening == old(listening) && routes == old(routes)
      ensures trace == old(trace)
        + DefaultStored(EnableServerKey, stored.enableServer.None?, BoolValue(true))
        + DefaultStored(EnableCecKey, stored.enableCEC.None?, BoolValue(true))
        + DefaultStored(TitleLangKey, stored.titleLang.None?, NumberValue(TitleLangDefault))
        + [SaveStorage]
        + (if enableCEC then CallEvents(CecEndpoints.EnableCecCalls() + CecEndpoints.ClaimActiveSourceCalls(received)) else [])
    {
      enableServer := if stored.enableServer.Some? then stored.enableServer.value else true;
      trace := trace + DefaultStored(EnableServerKey, stored.enableServer.None?, BoolValue(true));
      enableCEC := if stored.enableCEC.Some? then stored.enableCEC.value else true;
      trace := trace + DefaultStored(EnableCecKey, stored.enableCEC.None?, BoolValue(true));
      titleLang := if stored.titleLang.Some? then stored.titleLang.value else TitleLangDefault;
      trace := trace + DefaultStored(TitleLangKey, stored.titleLang.None?, NumberValue(TitleLangDefault));
      trace := trace + [SaveStorage];
      if enableCEC {
        trace := trace + CallEvents(CecEndpoints.EnableCecCalls() + CecEndpoints.ClaimActiveSourceCalls(received));
      }
    }

    /** DEINITIALIZE_PLUGIN: stop the server if there is one. */
    method Deinitialize()
      requires Valid()
      modifies this
      ensures Valid() && !serverMade && !listening
      ensures trace == old(trace) + (if old(serverMade) then [Shutdown] else [])
      ensures routes == old(routes)
      ensures enableServer == old(enableServer) && enableCEC == old(enableCEC) && titleLang == old(titleLang)
    {
      StopServer();
    }

    /** ON_APPLICATION_START: reconnect the network, switch CEC on again when enabled
        (no claim-active-source exchange here), and start the server only when enabled. */
    method ApplicationStart(spawn: Spawn)
      requires Valid()
      modifies this
      ensures Valid()
      ensures enableServer == old(enableServer) && enableCEC == old(enableCEC) && titleLang == old(titleLang)
      ensures var prefix := old(trace) + [NetworkConnect] + (if enableCEC then CallEvents(CecEndpoints.EnableCecCalls()) else []);
        && (!enableServer || old(serverMade) || spawn.SpawnFails? ==>
              trace == prefix && serverMade == old(serverMade) && listening == old(listening) && routes == old(routes))
        && (enableServer && !old(serverMade) && spawn.Spawned? ==>
              && serverMade && listening == spawn.run.Listens?
              && routes == old(routes) + RegisteredBy(AromaPlan(enableCEC), spawn.run)
              && trace == prefix + StartEvents(spawn.run, true))
    {
      trace := trace + [NetworkConnect];
      if enableCEC {
        trace := trace + CallEvents(CecEndpoints.EnableCecCalls());
      }
      if !enableServer {
        return;
      }
      MakeServerOnThread(spawn);
    }

    /** ON_APPLICATION_ENDS: the server is stopped only when it is enabled, so a server
        still running after the switch was turned off keeps running. */
    method ApplicationEnds()
      requires Valid()
      modifies this
      ensures Valid()
      ensures enableServer && old(serverMade) ==> !serverMade && !listening && trace == old(trace) + [Shutdown]
      ensures !enableServer || !old(serverMade) ==> unchanged(this)
      ensures routes == old(routes)
      ensures enableServer == old(enableServer) && enableCEC == old(enableCEC) && titleLang == old(titleLang)
    {
      if !enableServer {
        return;
      }
      StopServer();
    }
  }

  /** Starting twice registers nothing new and starts nothing new. */
  method StartIsIdempotent(first: StartRun, second: StartRun) returns (made: bool, registered: set<Route>, listens: bool, sameRoutes: bool)
    ensures made && registered == RegisteredBy(AromaPlan(true), first) && listens == first.Listens?
    ensures sameRoutes
  {
    var p := new Plugin();
    p.MakeServer(first);
    var before := p.routes;
    p.MakeServer(second);
    made, registered, listens := p.serverMade, p.routes, p.listening;
    sameRoutes := before == p.routes;
  }

  /** Turning the server off in the menu and closing it stops a running server. */
  method DisableServerThenCloseMenu(run: StartRun, spawn: Spawn) returns (made: bool, listens: bool)
    ensures !made && !listens
  {
    var p := new Plugin();
    p.MakeServer(run);
    p.EnableServerChanged(false);
    p.ConfigMenuClosed(spawn);
    made, listens := p.serverMade, p.listening;
  }

  /** A start that throws leaves the running flag set, so no later start is attempted. */
  method FailedStartBlocksRestart(k: nat, later: StartRun) returns (made: bool, listens: bool, routes: set<Route>)
    ensures made && !listens
    ensures routes == RegisteredBy(AromaPlan(true), ThrowsAfter(k))
  {
    var p := new Plugin();
    p.MakeServer(ThrowsAfter(k));
    p.MakeServerOnThread(Spawned(later));
    p.ConfigMenuClosed(Spawned(later));
    made, listens, routes := p.serverMade, p.listening, p.routes;
  }

  /** The CEC switch does not survive a reload: turned off and stored, it is on again
      after the load hook, and the CEC routes are registered at the next start. */
  method CecSettingLostOnReload(received: Byte, run: StartRun) returns (cecEnabled: bool, cecRouted: bool)
    ensures cecEnabled
    ensures run.Listens? ==> cecRouted
  {
    var before := new Plugin();
    before.EnableCecChanged(false);
    var stored := StoredConfig(Some(before.enableServer), Some(before.enableCEC), Some(before.titleLang));
    var after := new Plugin();
    after.Initialize(stored, received);
    assert after.enableCEC && after.routes == {} && !after.serverMade;
    after.MakeServer(run);
    assert after.routes == RegisteredBy(AromaPlan(true), run);
    CecRoutesIffEnabled(true);
    RegisteredWithinPlan(AromaPlan(true), run, 0, 0);
    cecEnabled := after.enableCEC;
    cecRouted := CecLatest in after.routes;
  }

  /** With the switch read from storage, a stored "off" keeps CEC off and unrouted. */
  method CecSettingKeptOnReload(received: Byte, run: StartRun) returns (cecEnabled: bool, cecRouted: bool)
    ensures !cecEnabled && !cecRouted
  {
    var before := new Plugin();
    before.EnableCecChanged(false);
    var stored := StoredConfig(Some(before.enableServer), Some(before.enableCEC), Some(before.titleLang));
    var after := new Plugin();
    after.InitializeFromStorage(stored, received);
    assert !after.enableCEC && after.routes == {} && !after.serverMade;
    after.MakeServer(run);
    assert after.routes == RegisteredBy(AromaPlan(false), run);
    CecRoutesIffEnabled(false);
    RegisteredWithinPlan(AromaPlan(false), run, 0, 0);
    cecEnabled := after.enableCEC;
    cecRouted := CecLatest in after.routes;
  }
}
