/** The launch endpoints: the Wii U Menu, and a title by id after an existence check. */
module LaunchEndpoints {
  import opened Platform

  const Int64Min := -0x8000_0000_0000_0000
  const Int64Max := 0x7FFF_FFFF_FFFF_FFFF

  /** POST /launch/menu: one menu launch, then 200. */
  function LaunchMenu(): (r: Handled)
    ensures r.calls == [SysLaunchMenu]
    ensures r.outcome == Respond(Response(200, NoBody))
  {
    Handled(Ok(NoBody), [SysLaunchMenu])
  }

  /** The conversion of a signed 64-bit value to uint64_t: reduction modulo 2^64. */
  function ToU64(n: int): (id: U64)
    requires Int64Min <= n <= Int64Max
    ensures n >= 0 ==> id == n
    ensures n < 0 ==> id == n + 0x1_0000_0000_0000_0000
  {
    n % 0x1_0000_0000_0000_0000
  }

  /** POST /launch/title. `title` is the "title" field after std::stoll (NotANumber when
      stoll rejects it); `installed` is the set of ids SYSCheckTitleExists accepts. */
  function LaunchTitle(title: ParsedField, installed: set<U64>): (r: Handled)
    ensures title.NotANumber? ==> r == Handled(Throw(InvalidArgument), [])
    ensures title.Number? && !(Int64Min <= title.n <= Int64Max) ==> r == Handled(Throw(OutOfRange), [])
    ensures title.Number? && Int64Min <= title.n <= Int64Max ==>
      var id := ToU64(title.n);
      && (id in installed ==> r == Handled(Respond(Response(200, NoBody)), [SysCheckTitleExists(id), SysLaunchTitle(id)]))
      && (id !in installed ==> r == Handled(Respond(Response(404, NoBody)), [SysCheckTitleExists(id)]))
  {
    match title
    case NotANumber => Handled(Throw(InvalidArgument), [])
    case Number(n) =>
      if !(Int64Min <= n <= Int64Max) then Handled(Throw(OutOfRange), [])
      else
        var id := ToU64(n);
        if id in installed then Handled(Ok(NoBody), [SysCheckTitleExists(id), SysLaunchTitle(id)])
        else Handled(Respond(Response(404, NoBody)), [SysCheckTitleExists(id)])
  }

  /** A launch happens at most once, only with 200, and only for an id that was
      checked first and exists. */
  lemma LaunchOnlyAfterCheck(title: ParsedField, installed: set<U64>)
    ensures var r := LaunchTitle(title, installed);
      forall k :: 0 <= k < |r.calls| && r.calls[k].SysLaunchTitle? ==>
        && k > 0 && r.calls[k - 1] == SysCheckTitleExists(r.calls[k].titleId)
        && r.calls[k].titleId in installed
        && HasStatus(r.outcome, 200)
    ensures var r := LaunchTitle(title, installed);
      HasStatus(r.outcome, 200) <==> exists id :: SysLaunchTitle(id) in r.calls
  {
    var r := LaunchTitle(title, installed);
    if title.Number? && Int64Min <= title.n <= Int64Max && ToU64(title.n) in installed {
      assert SysLaunchTitle(ToU64(title.n)) in r.calls;
    }
  }
}
