/** The older monolithic plugin: the same server switch and title language, no
    CEC, handlers registered inline, and a stop operation that also consults the
    server switch. */
module LegacyPlugin {
  import opened Platform
  import opened Server
  import opened Languages

  class Plugin {
    var serverMade: bool
    var listening: bool
    var routes: set<Route>
    var enableServer: bool
    var titleLang: U32
    ghost var trace: seq<Event>

    ghost predicate Valid()
      reads this
    {
      listening ==> serverMade
    }

    constructor ()
      ensures Valid() && !serverMade && !listening && routes == {}
      ensures enableServer && titleLang == TitleLangDefault
      ensures trace == []
    {
      serverMade, listening, routes := false, false, {};
      enableServer, titleLang := true, TitleLangDefault;
      trace := [];
    }

    /** make_server: as in the endpoint-module plugin, but a failed start is only logged. */
    method MakeServer(run: StartRun)
      requires Valid()
      modifies this
      ensures Valid()
      ensures old(serverMade) ==> unchanged(this)
      ensures !old(serverMade) ==> serverMade && listening == run.Listens?
      ensures !old(serverMade) ==> routes == old(routes) + RegisteredBy(LegacyPlan(), run)
      ensures !old(serverMade) ==> trace == old(trace) + StartEvents(run, false)
      ensures enableServer == old(enableServer) && titleLang == old(titleLang)
    {
      if serverMade {
        return;
      }
      serverMade := true;
      routes := routes + RegisteredBy(LegacyPlan(), run);
      listening := run.Listens?;
      trace := trace + StartEvents(run, false);
    }

    /** stop_server: returns without shutting down when the server switch is off or
        there is no server. */
    method StopServer()
      requires Valid()
      modifies this
      ensures Valid()
      ensures !old(enableServer) || !old(serverMade) ==> unchanged(this)
      ensures old(enableServer) && old(serverMade) ==> !serverMade && !listening && trace == old(trace) + [Shutdown]
      ensures routes == old(routes) && enableServer == old(enableServer) && titleLang == old(titleLang)
    {
      if !enableServer || !serverMade {
        return;
      }
      listening := false;
      trace := trace + [Shutdown];
      serverMade := false;
    }

    method MakeServerOnThread(spawn: Spawn)
      requires Valid()
      modifies this
      ensures Valid()
      ensures spawn.SpawnFails? || old(serverMade) ==> unchanged(this)
      ensures spawn.Spawned? && !old(serverMade) ==>
        && serverMade && listening == spawn.run.Listens?
        && routes == old(routes) + RegisteredBy(LegacyPlan(), spawn.run)
        && trace == old(trace) + StartEvents(spawn.run, false)
      ensures enableServer == old(enableServer) && titleLang == old(titleLang)
    {
      if spawn.Spawned? {
        MakeServer(spawn.run);
      }
    }

    method EnableServerChanged(newValue: bool)
      requires Valid()
      modifies this
      ensures Valid()
      ensures enableServer == newValue
      ensures trace == old(trace) + (if newValue != old(enableServer) then [Store(EnableServerKey, BoolValue(newValue))] else [])
      ensures serverMade == old(serverMade) && listening == old(listening) && routes == old(routes)
      ensures titleLang == old(titleLang)
    {
      if newValue != enableServer {
        trace := trace + [Store(EnableServerKey, BoolValue(newValue))];
      }
      enableServer := newValue;
    }

    method TitleLangChanged(newValue: U32)
      requires Valid()
      modifies this
      ensures Valid()
      ensures titleLang == newValue
      ensures trace == old(trace) + (if newValue != old(titleLang) then [Store(TitleLangKey, NumberValue(newValue))] else [])
      ensures serverMade == old(serverMade) && listening == old(listening) && routes == old(routes)
      ensures enableServer == old(enableServer)
    {
      if newValue != titleLang {
        trace := trace + [Store(TitleLangKey, NumberValue(newValue))];
      }
      titleLang := newValue;
    }

    /** ConfigMenuClosedCallback, with the same branches as the endpoint-module plugin.
        Its stop branch runs only when the switch is off, which is exactly when this
        stop_server returns early: a running server is never stopped from the menu. */
    method ConfigMenuClosed(spawn: Spawn)
      requires Valid()
      modifies this
      ensures Valid()
      ensures enableServer == old(enableServer) && titleLang == old(titleLang)
      ensures old(serverMade) ==>
        && serverMade && listening == old(listening) && routes == old(routes)
        && trace == old(trace) + [SaveStorage]
      ensures !old(serverMade) && !enableServer ==> unchanged(`serverMade, `listening, `routes) && trace == old(trace) + [SaveStorage]
      ensures !old(serverMade) && enableServer && spawn.Spawned? ==>
        && serverMade && listening == spawn.run.Listens?
        && routes == old(routes) + RegisteredBy(LegacyPlan(), spawn.run)
        && trace == old(trace) + [SaveStorage] + StartEvents(spawn.run, false)
      ensures !old(serverMade) && enableServer && spawn.SpawnFails? ==>
        && serverMade == old(serverMade) && listening == old(listening) && routes == old(routes)
        && trace == old(trace) + [SaveStorage]
    {
      trace := trace + [SaveStorage];
      if serverMade && !enableServer {
        StopServer();
      } else if !serverMade && enableServer {
        MakeServerOnThread(spawn);
      }
    }

    /** INITIALIZE_PLUGIN: read both settings, storing defaults when absent, then save. */
    method Initialize(stored: StoredConfig)
      requires Valid()
      modifies this
      ensures Valid()
      ensures enableServer == (if stored.enableServer.Some? then stored.enableServer.value else true)
      ensures titleLang == (if stored.titleLang.Some? then stored.titleLang.value else TitleLangDefault)
      ensures serverMade == old(serverMade) && listening == old(listening) && routes == old(routes)
      ensures trace == old(trace)
        + DefaultStored(EnableServerKey, stored.enableServer.None?, BoolValue(true))
        + DefaultStored(TitleLangKey, stored.titleLang.None?, NumberValue(TitleLangDefault))
        + [SaveStorage]
    {
      enableServer := if stored.enableServer.Some? then stored.enableServer.value else true;
      trace := trace + DefaultStored(EnableServerKey, stored.enableServer.None?, BoolValue(true));
      titleLang := if stored.titleLang.Some? then stored.titleLang.value else TitleLangDefault;
      trace := trace + DefaultStored(TitleLangKey, stored.titleLang.None?, NumberValue(TitleLangDefault));
      trace := trace + [SaveStorage];
    }

    /** DEINITIALIZE_PLUGIN: this stop_server, so a server survives unloading when the switch is off. */
    method Deinitialize()
      requires Valid()
      modifies this
      ensures Valid()
      ensures enableServer ==> !serverMade && !listening && trace == old(trace) + (if old(serverMade) then [Shutdown] else [])
      ensures !enableServer ==> unchanged(this)
      ensures routes == old(routes) && enableServer == old(enableServer) && titleLang == old(titleLang)
    {
      StopServer();
    }

    /** ON_APPLICATION_START: reconnect the network, then start the server only when enabled. */
    method ApplicationStart(spawn: Spawn)
      requires Valid()
      modifies this
      ensures Valid()
      ensures enableServer == old(enableServer) && titleLang == old(titleLang)
      ensures !enableServer || old(serverMade) || spawn.SpawnFails? ==>
        && trace == old(trace) + [NetworkConnect]
        && serverMade == old(serverMade) && listening == old(listening) && routes == old(routes)
      ensures enableServer && !old(serverMade) && spawn.Spawned? ==>
        && serverMade && listening == spawn.run.Listens?
        && routes == old(routes) + RegisteredBy(LegacyPlan(), spawn.run)
        && trace == old(trace) + [NetworkConnect] + StartEvents(spawn.run, false)
    {
      trace := trace + [NetworkConnect];
      if !enableServer {
        return;
      }
      MakeServerOnThread(spawn);
    }

    /** ON_APPLICATION_ENDS: stop only when enabled. */
    method ApplicationEnds()
      requires Valid()
      modifies this
      ensures Valid()
      ensures enableServer && old(serverMade) ==> !serverMade && !listening && trace == old(trace) + [Shutdown]
      ensures !enableServer || !old(serverMade) ==> unchanged(this)
      ensures routes == old(routes) && enableServer == old(enableServer) && titleLang == old(titleLang)
    {
      if !enableServer {
        return;
      }
      StopServer();
    }
  }

  /** Turning the server off in the menu and closing it leaves a running server running. */
  method DisableServerThenCloseMenu(run: StartRun, spawn: Spawn) returns (made: bool, listens: bool)
    ensures made && listens == run.Listens?
  {
    var p := new Plugin();
    p.MakeServer(run);
    p.EnableServerChanged(false);
    p.ConfigMenuClosed(spawn);
    made, listens := p.serverMade, p.listening;
  }
}
