/** The title endpoints: the name or executable path of what is running, and the
    list of installed titles keyed by decimal title id. */
module TitleEndpoints {
  import opened Format
  import opened Platform
  import opened Languages

  const CurrentTitleFailed := "Couldn't get the current title! Error at ACPGetTitleIdOfMainApplication"
  const TitleMetaFailed := "Couldn't get the title! Error at ACPGetTitleMetaXml"
  const TitleListFailed := "Couldn't get the title list! Error at MCP_TitleList"

  /** GET /title/current. `rpxPath` is the path buffer when the homebrew loader reports
      a running executable, None when it does not; `mainTitle` is the main
      application's title id, None when that lookup fails; `metas` holds the metadata
      of every title whose metadata lookup succeeds. */
  function CurrentTitle(rpxPath: Option<seq<char>>, mainTitle: Option<U64>, metas: map<U64, MetaXml>, titleLang: U32): (r: Handled)
    ensures rpxPath.Some? ==> r.outcome == Ok(PlainText(CString(rpxPath.value)))
    ensures rpxPath.Some? ==> r.calls == [RpxGetPathOfRunningExecutable]
    ensures rpxPath.None? && mainTitle.None? ==> r.outcome == ServerError(CurrentTitleFailed)
    ensures rpxPath.None? && mainTitle.Some? && mainTitle.value !in metas ==> r.outcome == ServerError(TitleMetaFailed)
    ensures rpxPath.None? && mainTitle.Some? && mainTitle.value in metas ==>
      r.outcome == Ok(PlainText(TitleLongname(metas[mainTitle.value], titleLang)))
    ensures r.outcome.Respond? && (r.outcome.response.status == 200 || r.outcome.response.status == 500)
  {
    match rpxPath
    case Some(buf) =>
      Handled(Ok(PlainText(CString(buf))), [RpxGetPathOfRunningExecutable])
    case None =>
      match mainTitle
      case None =>
        Handled(ServerError(CurrentTitleFailed), [RpxGetPathOfRunningExecutable, AcpGetTitleIdOfMainApplication])
      case Some(id) =>
        var calls := [RpxGetPathOfRunningExecutable, AcpGetTitleIdOfMainApplication, AcpGetTitleMetaXml(id)];
        if id in metas then Handled(Ok(PlainText(TitleLongname(metas[id], titleLang))), calls)
        else Handled(ServerError(TitleMetaFailed), calls)
  }

  /** GET /title/current of the older monolithic plugin: no executable-path lookup,
      straight to the main application's metadata. */
  function LegacyCurrentTitle(mainTitle: Option<U64>, metas: map<U64, MetaXml>, titleLang: U32): (r: Handled)
    ensures mainTitle.None? ==> r == Handled(ServerError(CurrentTitleFailed), [AcpGetTitleIdOfMainApplication])
    ensures mainTitle.Some? && mainTitle.value !in metas ==> r.outcome == ServerError(TitleMetaFailed)
    ensures mainTitle.Some? && mainTitle.value in metas ==>
      r.outcome == Ok(PlainText(TitleLongname(metas[mainTitle.value], titleLang)))
    ensures RpxGetPathOfRunningExecutable !in r.calls
  {
    match mainTitle
    case None => Handled(ServerError(CurrentTitleFailed), [AcpGetTitleIdOfMainApplication])
    case Some(id) =>
      var calls := [AcpGetTitleIdOfMainApplication, AcpGetTitleMetaXml(id)];
      if id in metas then Handled(Ok(PlainText(TitleLongname(metas[id], titleLang))), calls)
      else Handled(ServerError(TitleMetaFailed), calls)
  }

  /** When no homebrew executable is reported, the current handler answers exactly as
      the older one did, after one extra lookup in front. */
  lemma CurrentTitleWithoutRpxIsLegacy(mainTitle: Option<U64>, metas: map<U64, MetaXml>, titleLang: U32)
    ensures CurrentTitle(None, mainTitle, metas, titleLang).outcome == LegacyCurrentTitle(mainTitle, metas, titleLang).outcome
    ensures CurrentTitle(None, mainTitle, metas, titleLang).calls
      == [RpxGetPathOfRunningExecutable] + LegacyCurrentTitle(mainTitle, metas, titleLang).calls
  {
  }

  /** The application types the title list admits. The endpoint module leaves
      account applications out; the older monolithic plugin admits them. */
  predicate AllowedType(t: AppType, admitAccountApps: bool) {
    t == Game || t == GameWii || t == SystemMenu || t == SystemApps || t == SystemSettings
    || (admitAccountApps && t == AccountApps)
  }

  /** An entry makes it into the title list: its type is admitted, its metadata can
      be read, and its English longname is not empty. */
  predicate Admitted(entry: TitleEntry, metas: map<U64, MetaXml>, admitAccountApps: bool) {
    AllowedType(entry.appType, admitAccountApps) && entry.titleId in metas && metas[entry.titleId].longnameEn != ""
  }

  /** The title map after visiting the slots in order: each admitted entry writes its
      name under its decimal title id, a later write replacing an earlier one. */
  function TitleMap(slots: seq<TitleEntry>, metas: map<U64, MetaXml>, titleLang: U32, admitAccountApps: bool): map<string, string>
    decreases |slots|
  {
    if slots == [] then map[]
    else
      var res := TitleMap(slots[..|slots| - 1], metas, titleLang, admitAccountApps);
      var title := slots[|slots| - 1];
      if Admitted(title, metas, admitAccountApps)
      then res[Dec(title.titleId) := TitleLongname(metas[title.titleId], titleLang)]
      else res
  }

  /** The metadata lookups the loop makes: one per slot of an admitted type, in slot
      order, whether or not the lookup then succeeds. */
  function TitleLookups(slots: seq<TitleEntry>, admitAccountApps: bool): (calls: seq<Call>)
    ensures |calls| <= |slots|
    ensures forall k :: 0 <= k < |calls| ==> calls[k].AcpGetTitleMetaXml?
    decreases |slots|
  {
    if slots == [] then []
    else
      var title := slots[|slots| - 1];
      TitleLookups(slots[..|slots| - 1], admitAccountApps)
      + (if AllowedType(title.appType, admitAccountApps) then [AcpGetTitleMetaXml(title.titleId)] else [])
  }

  /** The loop of GET /title/list over every slot of the title-list vector, with the
      metadata lookups it makes. */
  method CollectTitles(slots: seq<TitleEntry>, metas: map<U64, MetaXml>, titleLang: U32, admitAccountApps: bool)
    returns (res: map<string, string>, lookups: seq<Call>)
    ensures res == TitleMap(slots, metas, titleLang, admitAccountApps)
    ensures lookups == TitleLookups(slots, admitAccountApps)
  {
    res := map[];
    lookups := [];
    for i := 0 to |slots|
      invariant res == TitleMap(slots[..i], metas, titleLang, admitAccountApps)
      invariant lookups == TitleLookups(slots[..i], admitAccountApps)
    {
      var title := slots[i];
      if AllowedType(title.appType, admitAccountApps) {
        lookups := lookups + [AcpGetTitleMetaXml(title.titleId)];
        if title.titleId in metas {
          var meta := metas[title.titleId];
          if meta.longnameEn != "" {
            res := res[Dec(title.titleId) := TitleLongname(meta, titleLang)];
          }
        }
      }
      assert slots[..i + 1][..i] == slots[..i];
    }
    assert slots[..|slots|] == slots;
  }

  /** GET /title/list. `handle` is what MCP_Open returned; `listed` is the whole
      1000-slot vector as MCP_TitleList left it, None when that call fails. The handle
      is closed before the error is looked at, and the count of filled slots is not
      consulted: every slot is visited. */
  method TitleList(handle: int, listed: Option<seq<TitleEntry>>, metas: map<U64, MetaXml>, titleLang: U32, admitAccountApps: bool)
    returns (r: Handled)
    ensures handle < 0 ==> r == Handled(McpOpenFailed(handle), [McpOpen])
    ensures handle >= 0 && listed.None? ==> r == Handled(ServerError(TitleListFailed), [McpOpen, McpTitleList, McpClose])
    ensures handle >= 0 && listed.Some? ==>
      && r.outcome == Ok(JsonObject(TitleMap(listed.value, metas, titleLang, admitAccountApps)))
      && r.calls == [McpOpen, McpTitleList, McpClose] + TitleLookups(listed.value, admitAccountApps)
  {
    if handle < 0 {
      return Handled(McpOpenFailed(handle), [McpOpen]);
    }
    var calls := [McpOpen, McpTitleList, McpClose];
    match listed
    case None =>
      r := Handled(ServerError(TitleListFailed), calls);
    case Some(slots) =>
      var res, lookups := CollectTitles(slots, metas, titleLang, admitAccountApps);
      r := Handled(Ok(JsonObject(res)), calls + lookups);
  }

  /** The metadata of a title id is looked up exactly when some slot of an admitted
      type carries that id. */
  lemma {:induction false} TitleLookupsIff(slots: seq<TitleEntry>, admitAccountApps: bool, id: U64)
    ensures AcpGetTitleMetaXml(id) in TitleLookups(slots, admitAccountApps) <==>
      exists i :: 0 <= i < |slots| && AllowedType(slots[i].appType, admitAccountApps) && slots[i].titleId == id
    decreases |slots|
  {
    if slots != [] {
      var init, last := slots[..|slots| - 1], slots[|slots| - 1];
      TitleLookupsIff(init, admitAccountApps, id);
      if AcpGetTitleMetaXml(id) in TitleLookups(slots, admitAccountApps) {
        if AcpGetTitleMetaXml(id) !in TitleLookups(init, admitAccountApps) {
          assert AllowedType(slots[|slots| - 1].appType, admitAccountApps) && slots[|slots| - 1].titleId == id;
        } else {
          var i :| 0 <= i < |init| && AllowedType(init[i].appType, admitAccountApps) && init[i].titleId == id;
          assert slots[i] == init[i];
        }
      } else {
        forall i | 0 <= i < |slots| && AllowedType(slots[i].appType, admitAccountApps)
          ensures slots[i].titleId != id
        {
          if i < |init| {
            assert init[i] == slots[i];
          }
        }
      }
    }
  }

  /** Every title in the list had its metadata looked up. */
  lemma ListedTitlesWereLookedUp(slots: seq<TitleEntry>, metas: map<U64, MetaXml>, titleLang: U32, admitAccountApps: bool, i: nat)
    requires i < |slots| && Admitted(slots[i], metas, admitAccountApps)
    ensures AcpGetTitleMetaXml(slots[i].titleId) in TitleLookups(slots, admitAccountApps)
  {
    TitleLookupsIff(slots, admitAccountApps, slots[i].titleId);
  }

  /** A key is in the title map exactly when some admitted slot has that decimal title id. */
  lemma {:induction false} TitleMapKeys(slots: seq<TitleEntry>, metas: map<U64, MetaXml>, titleLang: U32, admitAccountApps: bool, key: string)
    ensures key in TitleMap(slots, metas, titleLang, admitAccountApps) <==>
      exists i :: 0 <= i < |slots| && Admitted(slots[i], metas, admitAccountApps) && key == Dec(slots[i].titleId)
    decreases |slots|
  {
    if slots != [] {
      var init, last := slots[..|slots| - 1], slots[|slots| - 1];
      TitleMapKeys(init, metas, titleLang, admitAccountApps, key);
      if key in TitleMap(slots, metas, titleLang, admitAccountApps) {
        if key !in TitleMap(init, metas, titleLang, admitAccountApps) {
          assert Admitted(slots[|slots| - 1], metas, admitAccountApps) && key == Dec(slots[|slots| - 1].titleId);
        } else {
          var i :| 0 <= i < |init| && Admitted(init[i], metas, admitAccountApps) && key == Dec(init[i].titleId);
          assert slots[i] == init[i];
        }
      } else {
        forall i | 0 <= i < |slots| && Admitted(slots[i], metas, admitAccountApps)
          ensures key != Dec(slots[i].titleId)
        {
          if i < |init| {
            assert init[i] == slots[i];
          }
        }
      }
    }
  }

  /** Every admitted slot's decimal id maps to its localised name, whatever was
      written under that key before or after. */
  lemma {:induction false} TitleMapValue(slots: seq<TitleEntry>, metas: map<U64, MetaXml>, titleLang: U32, admitAccountApps: bool, i: nat)
    requires i < |slots| && Admitted(slots[i], metas, admitAccountApps)
    ensures Dec(slots[i].titleId) in TitleMap(slots, metas, titleLang, admitAccountApps)
    ensures TitleMap(slots, metas, titleLang, admitAccountApps)[Dec(slots[i].titleId)]
      == TitleLongname(metas[slots[i].titleId], titleLang)
    decreases |slots|
  {
    var init, last := slots[..|slots| - 1], slots[|slots| - 1];
    if i < |slots| - 1 {
      assert init[i] == slots[i];
      TitleMapValue(init, metas, titleLang, admitAccountApps, i);
      DecInjective(last.titleId, slots[i].titleId);
    }
  }

  /** Every name in the title list is non-empty and is one of its title's longnames. */
  lemma TitleMapNames(slots: seq<TitleEntry>, metas: map<U64, MetaXml>, titleLang: U32, admitAccountApps: bool, key: string)
    requires key in TitleMap(slots, metas, titleLang, admitAccountApps)
    ensures exists i ::
              && 0 <= i < |slots| && Admitted(slots[i], metas, admitAccountApps)
              && key == Dec(slots[i].titleId)
              && TitleMap(slots, metas, titleLang, admitAccountApps)[key] != ""
              && TitleMap(slots, metas, titleLang, admitAccountApps)[key] in Longnames(metas[slots[i].titleId])
  {
    TitleMapKeys(slots, metas, titleLang, admitAccountApps, key);
    var i :| 0 <= i < |slots| && Admitted(slots[i], metas, admitAccountApps) && key == Dec(slots[i].titleId);
    TitleMapValue(slots, metas, titleLang, admitAccountApps, i);
  }

  /** The two variants differ on account applications: an account application with
      readable metadata and an English name is listed by the older plugin only. */
  lemma AccountAppsOnlyInLegacyList(id: U64, metas: map<U64, MetaXml>, titleLang: U32)
    requires id in metas && metas[id].longnameEn != ""
    ensures Dec(id) in TitleMap([TitleEntry(id, AccountApps)], metas, titleLang, true)
    ensures Dec(id) !in TitleMap([TitleEntry(id, AccountApps)], metas, titleLang, false)
  {
    TitleMapKeys([TitleEntry(id, AccountApps)], metas, titleLang, false, Dec(id));
  }
}
