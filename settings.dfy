/**
 * The settings page of the dashboard: four locally editable port fields that
 * mirror the daemon's `general` configuration, per-field commits through
 * `updateConfig`, immediate commits for the discrete choices, and the option
 * lists the page offers.
 *
 * The network client, the `general` and clashX fetch hooks and the native
 * bridge are not executed: every call the page would make is appended to the
 * ghost log `calls` of the page object, in the order the handler awaits them.
 */
module Settings {
  import opened NumberCoercion

  datatype Option<T> = None | Some(value: T) {
    /** `this ?? default` */
    function GetOr(default: T): T {
      match this
      case Some(v) => v
      case None => default
    }
  }

  /** The four port fields of the local `info` record. */
  datatype PortField = MixedProxyPort | Socks5ProxyPort | HttpProxyPort | RedirProxyPort

  /** The daemon's key under which a port field is committed. */
  function ExternalKey(f: PortField): (r: string)
    ensures r == "port" <==> f == HttpProxyPort
    ensures r == "socks-port" <==> f == Socks5ProxyPort
    ensures r == "mixed-port" <==> f == MixedProxyPort
    ensures r == "redir-port" <==> f == RedirProxyPort
  {
    match f
    case HttpProxyPort => "port"
    case Socks5ProxyPort => "socks-port"
    case MixedProxyPort => "mixed-port"
    case RedirProxyPort => "redir-port"
  }

  /** Distinct port fields are committed under distinct keys. */
  lemma ExternalKeyInjective(f: PortField, g: PortField)
    ensures ExternalKey(f) == ExternalKey(g) ==> f == g
  {
  }

  /** The local `info` record as a value. */
  datatype PortInfo = PortInfo(mixedProxyPort: Num, socks5ProxyPort: Num, httpProxyPort: Num, redirProxyPort: Num)
  {
    function Get(f: PortField): (r: Num) {
      match f
      case MixedProxyPort => mixedProxyPort
      case Socks5ProxyPort => socks5ProxyPort
      case HttpProxyPort => httpProxyPort
      case RedirProxyPort => redirProxyPort
    }

    /** `set(f, v)`: the record with one field replaced. */
    function With(f: PortField, v: Num): (r: PortInfo)
      ensures r.Get(f) == v
      ensures forall g :: g != f ==> r.Get(g) == Get(g)
    {
      match f
      case MixedProxyPort => this.(mixedProxyPort := v)
      case Socks5ProxyPort => this.(socks5ProxyPort := v)
      case HttpProxyPort => this.(httpProxyPort := v)
      case RedirProxyPort => this.(redirProxyPort := v)
    }
  }

  /** The seed of `info` before any remote data has been seen. */
  const DefaultPorts := PortInfo(Int(0), Int(7891), Int(7890), Int(7892))

  /** The part of the remote `general` snapshot the page reads; absent values are `None`. */
  datatype General = General(
    port: Option<int>,
    socksPort: Option<int>,
    mixedPort: Option<int>,
    redirPort: Option<int>,
    allowLan: bool,
    mode: string,
    logLevel: string)

  /** The remote value that corresponds to a local port field. */
  function RemotePort(g: General, f: PortField): (r: Option<int>) {
    match f
    case MixedProxyPort => g.mixedPort
    case Socks5ProxyPort => g.socksPort
    case HttpProxyPort => g.port
    case RedirProxyPort => g.redirPort
  }

  /**
   * The port record after the resync effect has run for a new `general`
   * (which may itself be undefined): every field is the remote value, or 0
   * where there is none.
   */
  function Resynced(general: Option<General>): (r: PortInfo)
    ensures forall f :: r.Get(f) == Int(if general.Some? && RemotePort(general.value, f).Some?
                                        then RemotePort(general.value, f).value else 0)
  {
    var info := DefaultPorts;
    var info := info.With(Socks5ProxyPort, Int(if general.Some? then general.value.socksPort.GetOr(0) else 0));
    var info := info.With(HttpProxyPort, Int(if general.Some? then general.value.port.GetOr(0) else 0));
    var info := info.With(MixedProxyPort, Int(if general.Some? then general.value.mixedPort.GetOr(0) else 0));
    info.With(RedirProxyPort, Int(if general.Some? then general.value.redirPort.GetOr(0) else 0))
  }

  /** A value in a partial configuration object. */
  datatype ConfigValue = NumberValue(n: Num) | TextValue(s: string) | FlagValue(b: bool)

  /** A call the page makes to a collaborator. */
  datatype Call =
    | UpdateConfig(patch: map<string, ConfigValue>)   // client.updateConfig(patch)
    | FetchGeneral                                    // refetch of `general`
    | SetStartAtLogin(state: bool)                    // jsBridge.setStartAtLogin
    | SetSystemProxy(state: bool)                     // jsBridge.setSystemProxy
    | FetchClashXData                                 // refetch of the clashX data
    | SetLang(lang: string)                           // the i18n store's setLang

  /**
   * The calls of a single-key commit: one update carrying only `key`, then,
   * if the update was accepted, a refetch of `general`. A rejected update
   * ends the handler before the refetch.
   */
  function Commit(key: string, value: ConfigValue, accepted: bool): (r: seq<Call>)
    ensures |r| == if accepted then 2 else 1
    ensures r[0].UpdateConfig? && r[0].patch.Keys == {key} && r[0].patch[key] == value
    ensures accepted ==> r[1] == FetchGeneral
  {
    [UpdateConfig(map[key := value])] + if accepted then [FetchGeneral] else []
  }

  /** The calls made when a port field loses focus. */
  function SavePortCalls(info: PortInfo, f: PortField, accepted: bool): (r: seq<Call>) {
    Commit(ExternalKey(f), NumberValue(info.Get(f)), accepted)
  }

  /** Saving one port sends that port's key and the current local value, and no other port's key. */
  lemma SavePortSendsOnlyItsField(info: PortInfo, f: PortField, accepted: bool)
    ensures SavePortCalls(info, f, accepted)[0].patch[ExternalKey(f)] == NumberValue(info.Get(f))
    ensures forall g :: g != f ==> ExternalKey(g) !in SavePortCalls(info, f, accepted)[0].patch
  {
    forall g | g != f
      ensures ExternalKey(g) !in SavePortCalls(info, f, accepted)[0].patch
    {
      ExternalKeyInjective(f, g);
    }
  }

  /**
   * Typing the decimal text of `n` into a port field and leaving the field
   * commits `n` under that field's key, whatever the other fields hold.
   */
  lemma EditThenSave(info: PortInfo, f: PortField, n: int)
    ensures SavePortCalls(info.With(f, ToNumber(ShowInt(n))), f, true)
         == [UpdateConfig(map[ExternalKey(f) := NumberValue(Int(n))]), FetchGeneral]
  {
    ToNumberShowInt(n);
  }

  /** Setting the HTTP port to 8080 and saving it sends exactly `{ port: 8080 }`, then refetches. */
  lemma HttpPort8080(info: PortInfo)
    ensures SavePortCalls(info.With(HttpProxyPort, ToNumber("8080")), HttpProxyPort, true)
         == [UpdateConfig(map["port" := NumberValue(Int(8080))]), FetchGeneral]
  {
    assert ShowInt(8080) == "8080" by {
      assert ShowNat(8) == "8";
      assert ShowNat(80) == "80";
      assert ShowNat(808) == "808";
    }
    EditThenSave(info, HttpProxyPort, 8080);
  }

  /** The settings page's local state and the calls it has issued. */
  class SettingsPage {
    var mixedProxyPort: Num
    var socks5ProxyPort: Num
    var httpProxyPort: Num
    var redirProxyPort: Num
    ghost var calls: seq<Call>

    function Info(): (r: PortInfo)
      reads this
    {
      PortInfo(mixedProxyPort, socks5ProxyPort, httpProxyPort, redirProxyPort)
    }

    /** Mounting the page: `info` is seeded with the defaults and nothing has been called. */
    constructor ()
      ensures Info() == DefaultPorts
      ensures Info().Get(MixedProxyPort) == Int(0) && Info().Get(Socks5ProxyPort) == Int(7891)
      ensures Info().Get(HttpProxyPort) == Int(7890) && Info().Get(RedirProxyPort) == Int(7892)
      ensures calls == []
    {
      mixedProxyPort := Int(0);
      socks5ProxyPort := Int(7891);
      httpProxyPort := Int(7890);
      redirProxyPort := Int(7892);
      calls := [];
    }

    /** The effect that runs when `general` changes: every field is overwritten, edits or not. */
    method Resync(general: Option<General>)
      modifies this
      ensures Info() == Resynced(general)
      ensures calls == old(calls)
    {
      socks5ProxyPort := Int(if general.Some? then general.value.socksPort.GetOr(0) else 0);
      httpProxyPort := Int(if general.Some? then general.value.port.GetOr(0) else 0);
      mixedProxyPort := Int(if general.Some? then general.value.mixedPort.GetOr(0) else 0);
      redirProxyPort := Int(if general.Some? then general.value.redirPort.GetOr(0) else 0);
    }

    /** A keystroke in a port input: that field becomes `+text`; nothing is sent. */
    method ChangePort(f: PortField, text: string)
      modifies this
      ensures Info() == old(Info()).With(f, ToNumber(text))
      ensures Info().Get(f) == ToNumber(text)
      ensures forall g :: g != f ==> Info().Get(g) == old(Info()).Get(g)
      ensures calls == old(calls)
    {
      var v := ToNumber(text);
      match f
      case MixedProxyPort => mixedProxyPort := v;
      case Socks5ProxyPort => socks5ProxyPort := v;
      case HttpProxyPort => httpProxyPort := v;
      case RedirProxyPort => redirProxyPort := v;
    }

    /**
     * A port input loses focus: its current local value is committed under
     * its key, then `general` is refetched. `accepted` is the outcome of the
     * update call.
     */
    method SavePort(f: PortField, accepted: bool)
      modifies this`calls
      ensures calls == old(calls) + SavePortCalls(Info(), f, accepted)
    {
      calls := calls + [UpdateConfig(map[ExternalKey(f) := NumberValue(Info().Get(f))])];
      if accepted {
        calls := calls + [FetchGeneral];
      }
    }

    method ProxyModeChange(mode: string, accepted: bool)
      modifies this`calls
      ensures calls == old(calls) + Commit("mode", TextValue(mode), accepted)
    {
      calls := calls + [UpdateConfig(map["mode" := TextValue(mode)])];
      if accepted {
        calls := calls + [FetchGeneral];
      }
    }

    method LogLevelChange(logLevel: string, accepted: bool)
      modifies this`calls
      ensures calls == old(calls) + Commit("log-level", TextValue(logLevel), accepted)
    {
      calls := calls + [UpdateConfig(map["log-level" := TextValue(logLevel)])];
      if accepted {
        calls := calls + [FetchGeneral];
      }
    }

    method AllowLanChange(state: bool, accepted: bool)
      modifies this`calls
      ensures calls == old(calls) + Commit("allow-lan", FlagValue(state), accepted)
    {
      calls := calls + [UpdateConfig(map["allow-lan" := FlagValue(state)])];
      if accepted {
        calls := calls + [FetchGeneral];
      }
    }

    /**
     * `jsBridge?.setStartAtLogin(state)`, then a refetch of the clashX data.
     * Without a bridge only the refetch happens; a rejected bridge call ends
     * the handler before it.
     */
    method StartAtLoginChange(state: bool, hasBridge: bool, accepted: bool)
      modifies this`calls
      ensures calls == old(calls) + (if hasBridge then [SetStartAtLogin(state)] else [])
                                  + (if !hasBridge || accepted then [FetchClashXData] else [])
    {
      if hasBridge {
        calls := calls + [SetStartAtLogin(state)];
      }
      if !hasBridge || accepted {
        calls := calls + [FetchClashXData];
      }
    }

    /** `jsBridge?.setSystemProxy(state)`, then a refetch of the clashX data, as for the start-at-login switch. */
    method SystemProxyChange(state: bool, hasBridge: bool, accepted: bool)
      modifies this`calls
      ensures calls == old(calls) + (if hasBridge then [SetSystemProxy(state)] else [])
                                  + (if !hasBridge || accepted then [FetchClashXData] else [])
    {
      if hasBridge {
        calls := calls + [SetSystemProxy(state)];
      }
      if !hasBridge || accepted {
        calls := calls + [FetchClashXData];
      }
    }

    method ChangeLanguage(lang: string)
      modifies this`calls
      ensures calls == old(calls) + [SetLang(lang)]
    {
      calls := calls + [SetLang(lang)];
    }
  }

  /** An uncommitted edit is committed on blur and then discarded by the resync that follows the refetch. */
  method EditSaveResyncScenario(remote: General)
  {
    var page := new SettingsPage();
    page.ChangePort(HttpProxyPort, "8080");
    page.SavePort(HttpProxyPort, true);
    HttpPort8080(DefaultPorts);
    assert page.calls == [UpdateConfig(map["port" := NumberValue(Int(8080))]), FetchGeneral];
    page.ChangePort(Socks5ProxyPort, "1080");
    page.Resync(Some(remote));
    assert page.Info().Get(Socks5ProxyPort) == Int(remote.socksPort.GetOr(0));
    assert page.calls == [UpdateConfig(map["port" := NumberValue(Int(8080))]), FetchGeneral];
  }

  /** The caption (`label`) of a select option: a translation key, or text shown as it is. */
  datatype Label = Translated(key: string) | Literal(text: string)

  datatype SelectOption = SelectOption(caption: Label, value: string)

  function Values(options: seq<SelectOption>): (r: seq<string>)
    ensures |r| == |options| && forall i :: 0 <= i < |options| ==> r[i] == options[i].value
  {
    seq(|options|, i requires 0 <= i < |options| => options[i].value)
  }

  /** The proxy modes offered: Global, Rule, Direct, and Script last for the premium core only. */
  function ProxyModeOptions(premium: bool): (r: seq<SelectOption>)
    ensures |r| == if premium then 4 else 3
    ensures Values(r)[..3] == ["Global", "Rule", "Direct"]
    ensures (exists i :: 0 <= i < |r| && r[i].value == "Script") <==> premium
    ensures premium ==> r[3].value == "Script"
    ensures forall i :: 0 <= i < |r| ==> r[i].caption.Translated?
  {
    var options := [
      SelectOption(Translated("values.global"), "Global"),
      SelectOption(Translated("values.rules"), "Rule"),
      SelectOption(Translated("values.direct"), "Direct")
    ];
    if premium then
      var withScript := options + [SelectOption(Translated("values.script"), "Script")];
      assert withScript[3].value == "Script";
      withScript
    else
      options
  }

  /** The log levels offered, labelled by their own name except `warning`, labelled `warn`. */
  function LogLevelOptions(): (r: seq<SelectOption>)
    ensures Values(r) == ["debug", "info", "warning", "error", "silent"]
    ensures forall i :: 0 <= i < |r| ==> r[i].caption == Literal(if r[i].value == "warning" then "warn" else r[i].value)
  {
    [
      SelectOption(Literal("debug"), "debug"),
      SelectOption(Literal("info"), "info"),
      SelectOption(Literal("warn"), "warning"),
      SelectOption(Literal("error"), "error"),
      SelectOption(Literal("silent"), "silent")
    ]
  }

  /** The clashX data as fetched; any field may be absent. */
  datatype ClashXData = ClashXData(startAtLogin: Option<bool>, systemProxy: Option<bool>, isClashX: Option<bool>)

  datatype ClashXFlags = ClashXFlags(startAtLogin: bool, systemProxy: bool, isClashX: bool)

  /** `clashXData?.x ?? false` for the three flags: a flag is on only when the data is present and says so. */
  function Flags(data: Option<ClashXData>): (r: ClashXFlags)
    ensures data.None? ==> !r.startAtLogin && !r.systemProxy && !r.isClashX
    ensures r.startAtLogin <==> data.Some? && data.value.startAtLogin == Some(true)
    ensures r.systemProxy <==> data.Some? && data.value.systemProxy == Some(true)
    ensures r.isClashX <==> data.Some? && data.value.isClashX == Some(true)
  {
    match data
    case None => ClashXFlags(false, false, false)
    case Some(d) => ClashXFlags(d.startAtLogin.GetOr(false), d.systemProxy.GetOr(false), d.isClashX.GetOr(false))
  }
}
