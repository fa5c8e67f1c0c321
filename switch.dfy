/** The switch endpoints: opening the running title's electronic manual, and the
    HOME button menu. */
module SwitchEndpoints {
  import opened Platform
  import TitleEndpoints

  const TitleTypeFailed := "Couldn't get the title type! Error at MCP_GetTitleInfo"
  const NoManual := "The current application has no manual."

  /** The decision the handler makes once both title lookups have succeeded: a
      manual is opened when the metadata declares one, or else when MCP says the
      running application is a game. */
  predicate OpensManual(eManualVersion: U32, appType: Option<AppType>) {
    eManualVersion > 0 || appType == Some(Game)
  }

  function SwitchCount(calls: seq<Call>): nat {
    multiset(calls)[SysSwitchToEManual]
  }

  /** POST /switch/emanual. `mainTitle` is the main application's title id (None when
      that lookup fails), `metas` the metadata of every title whose lookup succeeds,
      `handle` what MCP_Open returns if it is reached, and `titleInfo` the application
      type MCP_GetTitleInfo reports (None when it fails). */
  function SwitchToEManual(mainTitle: Option<U64>, metas: map<U64, MetaXml>, handle: int, titleInfo: Option<AppType>): (r: Handled)
    ensures mainTitle.None? ==> r == Handled(ServerError(TitleEndpoints.CurrentTitleFailed), [AcpGetTitleIdOfMainApplication])
    ensures mainTitle.Some? && mainTitle.value !in metas ==> r.outcome == ServerError(TitleEndpoints.TitleMetaFailed)
    ensures r.outcome.Throw? <==>
      mainTitle.Some? && mainTitle.value in metas && metas[mainTitle.value].eManualVersion == 0 && handle < 0
    ensures r.outcome.Throw? ==> r.outcome == McpOpenFailed(handle)
    ensures r.outcome.Respond? ==> r.outcome.response.status in {200, 409, 500}
    ensures SwitchCount(r.calls) == if HasStatus(r.outcome, 200) then 1 else 0
    ensures HasStatus(r.outcome, 200) <==>
      mainTitle.Some? && mainTitle.value in metas
      && (metas[mainTitle.value].eManualVersion > 0 || (handle >= 0 && titleInfo == Some(Game)))
    ensures HasStatus(r.outcome, 409) ==> r.outcome.response.body == PlainText(NoManual)
    ensures HasStatus(r.outcome, 409) ==>
      mainTitle.Some? && r.calls == [AcpGetTitleIdOfMainApplication, AcpGetTitleMetaXml(mainTitle.value),
                                     McpOpen, McpGetTitleInfo(mainTitle.value), McpClose]
    ensures mainTitle.Some? && mainTitle.value in metas && metas[mainTitle.value].eManualVersion > 0 ==>
      McpOpen !in r.calls && r == Handled(Respond(Response(200, NoBody)), r.calls)
    ensures (mainTitle.Some? && mainTitle.value in metas && metas[mainTitle.value].eManualVersion == 0
             && handle >= 0 && titleInfo.None?) ==>
      r.outcome == ServerError(TitleTypeFailed) && McpOpen in r.calls && McpClose !in r.calls
    ensures McpOpen in r.calls && McpClose !in r.calls ==>
      r.outcome.Throw? || r.outcome == ServerError(TitleTypeFailed)
  {
    match mainTitle
    case None =>
      Handled(ServerError(TitleEndpoints.CurrentTitleFailed), [AcpGetTitleIdOfMainApplication])
    case Some(id) =>
      var (acpMain, acpMeta) := (AcpGetTitleIdOfMainApplication, AcpGetTitleMetaXml(id));
      if id !in metas then Handled(ServerError(TitleEndpoints.TitleMetaFailed), [acpMain, acpMeta])
      else if metas[id].eManualVersion > 0 then Handled(Ok(NoBody), [acpMain, acpMeta, SysSwitchToEManual])
      else if handle < 0 then Handled(McpOpenFailed(handle), [acpMain, acpMeta, McpOpen])
      else
        var info := McpGetTitleInfo(id);
        match titleInfo
        case None => Handled(ServerError(TitleTypeFailed), [acpMain, acpMeta, McpOpen, info])
        case Some(appType) =>
          if appType == Game then Handled(Ok(NoBody), [acpMain, acpMeta, McpOpen, info, McpClose, SysSwitchToEManual])
          else Handled(Respond(Response(409, PlainText(NoManual))), [acpMain, acpMeta, McpOpen, info, McpClose])
  }

  /** With both title lookups and the MCP queries succeeding, the handler answers 200
      exactly when the manual decision says so, and 409 otherwise. */
  lemma EManualFollowsDecision(id: U64, metas: map<U64, MetaXml>, handle: int, appType: AppType)
    requires id in metas && handle >= 0
    ensures var r := SwitchToEManual(Some(id), metas, handle, Some(appType));
      (HasStatus(r.outcome, 200) <==> OpensManual(metas[id].eManualVersion, Some(appType)))
      && (HasStatus(r.outcome, 409) <==> !OpensManual(metas[id].eManualVersion, Some(appType)))
  {
  }

  /** POST /switch/hbm: one switch to the HOME button menu in mode 0, then 200. */
  function SwitchToHbm(): (r: Handled)
    ensures r.calls == [SysSwitchToHbm(0)]
    ensures r.outcome == Respond(Response(200, NoBody))
  {
    Handled(Ok(NoBody), [SysSwitchToHbm(0)])
  }
}
