/**
  The command builder of the `crl_url` active check: from the rule's
  parameters and the host's macros it produces the one command the monitoring
  core runs, a service description plus the probe's argument list.
 */
module CrlUrl {
  import opened Wrappers
  import Decimal
  import Macros

  /** The (warning, critical) pair of a fixed limit, in seconds, as Python floats. */
  datatype Levels = Levels(warn: real, crit: real)

  /**
    The rule's `limit` tuple: a tag (`'fixed'` or `'no_levels'` from the
    rule form) and the level pair, which is None unless the levels are fixed.
   */
  datatype Limit = Limit(tag: string, levels: Option<Levels>)

  /** The frozen parameter record the rule's values are validated into. */
  datatype Params = Params(name: string, url: string, proxy: Option<string>, limit: Limit)

  /** The part of the host configuration the builder reads. */
  datatype HostConfig = HostConfig(name: string, macros: Macros.MacroList)

  /** One active-check command: the service it feeds and the probe's arguments. */
  datatype Command = Command(serviceDescription: string, commandArguments: seq<string>)

  /** A `'fixed'` limit without a level pair: subscripting None raises a TypeError. */
  datatype Error = LevelsMissing

  /** The platform's macro substitution, which is not part of this model. */
  type MacroReplacer = (string, Macros.MacroList) -> string

  /** The settings the probe receives, as read back from an argument list. */
  datatype Invocation = Invocation(url: string, proxy: Option<string>, levels: Option<(int, int)>)

  const FixedTag: string := "fixed"
  const ServicePrefix: string := "CRL "

  /** Python's truthiness test on `proxy`: present and not the empty string. */
  predicate HasProxy(params: Params) {
    params.proxy.Some? && |params.proxy.value| > 0
  }

  predicate IsFixed(limit: Limit) {
    limit.tag == FixedTag
  }

  /** The limit can be read without raising: a fixed limit carries its pair. */
  predicate LevelsPresent(limit: Limit) {
    IsFixed(limit) ==> limit.levels.Some?
  }

  /** Python's `int()` on a float: truncation toward zero. */
  function TruncateToInt(x: real): (r: int)
    ensures 0.0 <= x ==> r as real <= x < r as real + 1.0
    ensures x < 0.0 ==> r as real - 1.0 < x <= r as real
  {
    if x >= 0.0 then x.Floor else -((-x).Floor)
  }

  /** `str(int(x))` for a level. */
  function LevelString(x: real): string {
    Decimal.IntToString(TruncateToInt(x))
  }

  /** The probe's argument list: url group, then proxy group, then level group. */
  function CommandArguments(params: Params, macros: Macros.MacroList, replaceMacros: MacroReplacer): (args: seq<string>)
    requires LevelsPresent(params.limit)
    ensures |args| == 2 + (if HasProxy(params) then 2 else 0) + (if IsFixed(params.limit) then 4 else 0)
  {
    var urlGroup := ["--url", replaceMacros(params.url, macros)];
    var proxyGroup := if HasProxy(params) then ["--proxy", params.proxy.value] else [];
    var levelGroup :=
      if IsFixed(params.limit)
      then ["--warning", LevelString(params.limit.levels.value.warn),
            "--critical", LevelString(params.limit.levels.value.crit)]
      else [];
    urlGroup + proxyGroup + levelGroup
  }

  /**
    `commands_function`: exactly one command, or the error the level lookup
    raises before anything is yielded.
   */
  function CommandsFunction(params: Params, host: HostConfig, replaceMacros: MacroReplacer): (r: Result<seq<Command>, Error>)
    ensures r.Failure? <==> IsFixed(params.limit) && params.limit.levels.None?
    ensures r.Success? ==> |r.value| == 1
    ensures r.Success? ==>
              && |r.value[0].serviceDescription| == |params.name| + 4
              && r.value[0].serviceDescription[..4] == "CRL "
              && r.value[0].serviceDescription[4..] == params.name
    ensures r.Success? ==> r.value[0].commandArguments == CommandArguments(params, host.macros, replaceMacros)
  {
    if !LevelsPresent(params.limit) then Failure(LevelsMissing)
    else
      var args := CommandArguments(params, host.macros, replaceMacros);
      Success([Command(ServicePrefix + params.name, args)])
  }

  /** What the argument list is meant to convey to the probe. */
  function Settings(params: Params, macros: Macros.MacroList, replaceMacros: MacroReplacer): Invocation
    requires LevelsPresent(params.limit)
  {
    Invocation(
      replaceMacros(params.url, macros),
      if HasProxy(params) then params.proxy else None,
      if IsFixed(params.limit)
      then Some((TruncateToInt(params.limit.levels.value.warn), TruncateToInt(params.limit.levels.value.crit)))
      else None)
  }

  /** Reads the optional trailing `--warning w --critical c` group. */
  function ReadLevels(rest: seq<string>): Option<Option<(int, int)>> {
    if |rest| == 0 then Some(None)
    else if |rest| == 4 && rest[0] == "--warning" && rest[2] == "--critical"
            && Decimal.ParseInt(rest[1]).Some? && Decimal.ParseInt(rest[3]).Some?
    then Some(Some((Decimal.ParseInt(rest[1]).value, Decimal.ParseInt(rest[3]).value)))
    else None
  }

  /**
    Reads an argument list of the probe's shape: `--url u`, optionally
    `--proxy p`, optionally `--warning w --critical c`, nothing else.
   */
  function ReadArguments(args: seq<string>): (r: Option<Invocation>)
    ensures r.Some? ==> |args| in {2, 4, 6, 8} && args[0] == "--url" && r.value.url == args[1]
  {
    if |args| < 2 || args[0] != "--url" then None
    else if |args| >= 4 && args[2] == "--proxy" then
      match ReadLevels(args[4..])
      case Some(levels) => Some(Invocation(args[1], Some(args[3]), levels))
      case None => None
    else
      match ReadLevels(args[2..])
      case Some(levels) => Some(Invocation(args[1], None, levels))
      case None => None
  }

  /** Reading the built argument list back recovers the url, proxy and truncated levels. */
  lemma ArgumentsRoundTrip(params: Params, macros: Macros.MacroList, replaceMacros: MacroReplacer)
    requires LevelsPresent(params.limit)
    ensures ReadArguments(CommandArguments(params, macros, replaceMacros)) == Some(Settings(params, macros, replaceMacros))
  {
    var args := CommandArguments(params, macros, replaceMacros);
    var k := if HasProxy(params) then 4 else 2;
    if IsFixed(params.limit) {
      var lv := params.limit.levels.value;
      Decimal.IntRoundTrip(TruncateToInt(lv.warn));
      Decimal.IntRoundTrip(TruncateToInt(lv.crit));
      assert args[k..] == ["--warning", LevelString(lv.warn), "--critical", LevelString(lv.crit)];
    } else {
      assert args[k..] == [];
    }
  }

  /** Two parameter sets with the same argument list ask the probe for the same thing. */
  lemma ArgumentsDetermineSettings(p1: Params, p2: Params, macros: Macros.MacroList, replaceMacros: MacroReplacer)
    requires LevelsPresent(p1.limit) && LevelsPresent(p2.limit)
    requires CommandArguments(p1, macros, replaceMacros) == CommandArguments(p2, macros, replaceMacros)
    ensures Settings(p1, macros, replaceMacros) == Settings(p2, macros, replaceMacros)
  {
    ArgumentsRoundTrip(p1, macros, replaceMacros);
    ArgumentsRoundTrip(p2, macros, replaceMacros);
  }

  /** The list opens with `--url` and the macro-substituted url. */
  lemma UrlGroupFirst(params: Params, macros: Macros.MacroList, replaceMacros: MacroReplacer)
    requires LevelsPresent(params.limit)
    ensures var args := CommandArguments(params, macros, replaceMacros);
            args[..2] == ["--url", replaceMacros(params.url, macros)]
  {
  }

  /**
    `--proxy` and the proxy, verbatim, sit at positions 2 and 3 exactly when
    the proxy is present and non-empty.
   */
  lemma ProxyGroup(params: Params, macros: Macros.MacroList, replaceMacros: MacroReplacer)
    requires LevelsPresent(params.limit)
    ensures var args := CommandArguments(params, macros, replaceMacros);
            (|args| >= 4 && args[2] == "--proxy") <==> HasProxy(params)
    ensures var args := CommandArguments(params, macros, replaceMacros);
            HasProxy(params) ==> args[2..4] == ["--proxy", params.proxy.value]
  {
  }

  /**
    The last four arguments are `--warning w --critical c`, with the levels
    truncated and in input order, exactly when the limit is tagged fixed.
   */
  lemma LevelGroup(params: Params, macros: Macros.MacroList, replaceMacros: MacroReplacer)
    requires LevelsPresent(params.limit)
    ensures var args := CommandArguments(params, macros, replaceMacros);
            (|args| >= 6 && args[|args| - 4] == "--warning") <==> IsFixed(params.limit)
    ensures var args := CommandArguments(params, macros, replaceMacros);
            IsFixed(params.limit) ==>
              args[|args| - 4..] == ["--warning", Decimal.IntToString(TruncateToInt(params.limit.levels.value.warn)),
                                     "--critical", Decimal.IntToString(TruncateToInt(params.limit.levels.value.crit))]
  {
  }

  /** Without levels and without a proxy the list is just the url group. */
  lemma UrlOnly(params: Params, macros: Macros.MacroList, replaceMacros: MacroReplacer)
    requires !IsFixed(params.limit) && !HasProxy(params)
    ensures CommandArguments(params, macros, replaceMacros) == ["--url", replaceMacros(params.url, macros)]
  {
  }

  /** The service description determines the rule's name. */
  lemma DescriptionDeterminesName(p1: Params, p2: Params, host: HostConfig, replaceMacros: MacroReplacer)
    requires CommandsFunction(p1, host, replaceMacros).Success? && CommandsFunction(p2, host, replaceMacros).Success?
    requires CommandsFunction(p1, host, replaceMacros).value[0].serviceDescription
             == CommandsFunction(p2, host, replaceMacros).value[0].serviceDescription
    ensures p1.name == p2.name
  {
  }
}
