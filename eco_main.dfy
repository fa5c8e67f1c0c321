/** The standalone process: one server start guarded by a running flag, with a
    reduced set of routes. */
module EcoProcess {
  import opened Platform
  import opened Server

  /** The text "/" answers with, telling this process apart from the plugin. */
  const EcoDiscoveryText := "Ristretto (ECO)"

  class EcoServer {
    var serverMade: bool
    var listening: bool
    var routes: set<Route>
    ghost var trace: seq<Event>

    ghost predicate Valid()
      reads this
    {
      listening ==> serverMade
    }

    constructor ()
      ensures Valid() && !serverMade && !listening && routes == {} && trace == []
    {
      serverMade, listening, routes := false, false, {};
      trace := [];
    }

    /** create_server: 0 in every case. The flag is set before registration and
        never cleared, even when the start throws (which is only logged). */
    method CreateServer(run: StartRun) returns (status: int)
      requires Valid()
      modifies this
      ensures Valid() && status == 0
      ensures old(serverMade) ==> unchanged(this)
      ensures !old(serverMade) ==> serverMade && listening == run.Listens?
      ensures !old(serverMade) ==> routes == old(routes) + RegisteredBy(EcoPlan(), run)
      ensures !old(serverMade) ==> trace == old(trace) + StartEvents(run, false)
    {
      if serverMade {
        return 0;
      }
      serverMade := true;
      routes := routes + RegisteredBy(EcoPlan(), run);
      listening := run.Listens?;
      trace := trace + StartEvents(run, false);
      return 0;
    }
  }

  /** GET "/" of the standalone process. */
  function Discovery(): (r: Handled)
    ensures r.calls == [] && HasStatus(r.outcome, 200)
    ensures r.outcome.response.body == PlainText(EcoDiscoveryText)
  {
    Handled(Ok(PlainText(EcoDiscoveryText)), [])
  }

  /** Two starts in a row: both report 0, the second registers and starts nothing. */
  method SecondCreateIsNoOp(first: StartRun, second: StartRun) returns (s1: int, s2: int, listens: bool, registered: set<Route>)
    ensures s1 == 0 && s2 == 0
    ensures listens == first.Listens?
    ensures registered == RegisteredBy(EcoPlan(), first)
  {
    var server := new EcoServer();
    s1 := server.CreateServer(first);
    s2 := server.CreateServer(second);
    listens, registered := server.listening, server.routes;
  }

  /** Whatever a start gets through, no gamepad or remote route is ever registered. */
  method NoRemoteControl(run: StartRun) returns (registered: set<Route>)
    ensures RemoteKey !in registered && GamepadBattery !in registered
  {
    var server := new EcoServer();
    var _ := server.CreateServer(run);
    registered := server.routes;
    EcoLeavesOutGroups();
    RegisteredWithinPlan(EcoPlan(), run, 0, 0);
  }
}
