/** src/stores/tradingStore.ts: the persisted settings store. The store's
    top-level settings are the fields of a class; `set` merges the object it is
    given into the state one level deep, which is the function Merge. */
module TradingStore {
  import opened Wrappers

  datatype Theme = Dark | Light | Auto
  datatype Language = Fa | En
  datatype Level = Low | Medium | High

  datatype Notifications = Notifications(
    enabled: bool, sound: bool, desktop: bool, mobile: bool,
    whaleAlerts: bool, signalAlerts: bool, priceAlerts: bool)

  datatype RsiThreshold = RsiThreshold(overbought: real, oversold: real)

  /** `whaleMinAmount` is in millions of dollars. */
  datatype Analysis = Analysis(
    rsiThreshold: RsiThreshold, whaleMinAmount: real, confidenceLevel: Level, timeframes: seq<string>)

  datatype Risk = Risk(maxRiskLevel: Level, stopLossPercent: real, takeProfitPercent: real, positionSize: real)

  datatype Endpoints = Endpoints(market: string, whale: string, signals: string)
  datatype Keys = Keys(primary: string, backup: string)
  datatype Api = Api(enabled: bool, endpoints: Endpoints, keys: Keys)

  /** TradingSettings; `refreshInterval` is in milliseconds. */
  datatype Settings = Settings(
    autoMode: bool, refreshInterval: real, theme: Theme, language: Language,
    notifications: Notifications, analysis: Analysis, risk: Risk, api: Api)

  /** `Partial<TradingSettings>`: a top-level field is either supplied whole or absent. */
  datatype PartialSettings = PartialSettings(
    autoMode: Option<bool>, refreshInterval: Option<real>, theme: Option<Theme>, language: Option<Language>,
    notifications: Option<Notifications>, analysis: Option<Analysis>, risk: Option<Risk>, api: Option<Api>)

  const Empty := PartialSettings(None, None, None, None, None, None, None, None)

  const Defaults := Settings(
    autoMode := true,
    refreshInterval := 3000.0,
    theme := Dark,
    language := Fa,
    notifications := Notifications(true, true, true, true, true, true, true),
    analysis := Analysis(RsiThreshold(80.0, 20.0), 1.0, Medium, ["1m", "5m", "15m", "1h", "4h", "1d"]),
    risk := Risk(Medium, 2.0, 5.0, 1000.0),
    api := Api(false, Endpoints("", "", ""), Keys("", "")))

  /** Every field of `s`, supplied: what `set(defaultSettings)` passes. */
  function Whole(s: Settings): (p: PartialSettings)
    ensures p.autoMode.Some? && p.refreshInterval.Some? && p.theme.Some? && p.language.Some?
    ensures p.notifications.Some? && p.analysis.Some? && p.risk.Some? && p.api.Some?
  {
    PartialSettings(Some(s.autoMode), Some(s.refreshInterval), Some(s.theme), Some(s.language),
      Some(s.notifications), Some(s.analysis), Some(s.risk), Some(s.api))
  }

  /** `{...state, ...p}`: each supplied top-level field replaces the state's,
      and every absent one keeps the state's value. */
  function Merge(s: Settings, p: PartialSettings): (r: Settings)
    ensures r.autoMode == p.autoMode.GetOr(s.autoMode)
    ensures r.refreshInterval == p.refreshInterval.GetOr(s.refreshInterval)
    ensures r.theme == p.theme.GetOr(s.theme)
    ensures r.language == p.language.GetOr(s.language)
    ensures r.notifications == p.notifications.GetOr(s.notifications)
    ensures r.analysis == p.analysis.GetOr(s.analysis)
    ensures r.risk == p.risk.GetOr(s.risk)
    ensures r.api == p.api.GetOr(s.api)
  {
    Settings(
      p.autoMode.GetOr(s.autoMode), p.refreshInterval.GetOr(s.refreshInterval),
      p.theme.GetOr(s.theme), p.language.GetOr(s.language),
      p.notifications.GetOr(s.notifications), p.analysis.GetOr(s.analysis),
      p.risk.GetOr(s.risk), p.api.GetOr(s.api))
  }

  /** Two updates in a row are one update where the later partial wins. */
  function Override(p: PartialSettings, q: PartialSettings): (r: PartialSettings)
    ensures r.autoMode == (if q.autoMode.Some? then q.autoMode else p.autoMode)
    ensures r.refreshInterval == (if q.refreshInterval.Some? then q.refreshInterval else p.refreshInterval)
    ensures r.theme == (if q.theme.Some? then q.theme else p.theme)
    ensures r.language == (if q.language.Some? then q.language else p.language)
    ensures r.notifications == (if q.notifications.Some? then q.notifications else p.notifications)
    ensures r.analysis == (if q.analysis.Some? then q.analysis else p.analysis)
    ensures r.risk == (if q.risk.Some? then q.risk else p.risk)
    ensures r.api == (if q.api.Some? then q.api else p.api)
  {
    PartialSettings(
      if q.autoMode.Some? then q.autoMode else p.autoMode,
      if q.refreshInterval.Some? then q.refreshInterval else p.refreshInterval,
      if q.theme.Some? then q.theme else p.theme,
      if q.language.Some? then q.language else p.language,
      if q.notifications.Some? then q.notifications else p.notifications,
      if q.analysis.Some? then q.analysis else p.analysis,
      if q.risk.Some? then q.risk else p.risk,
      if q.api.Some? then q.api else p.api)
  }

  /** An empty partial changes nothing. */
  lemma MergeEmpty(s: Settings)
    ensures Merge(s, Empty) == s
  {
  }

  /** Applying the same partial twice is applying it once. */
  lemma MergeIdempotent(s: Settings, p: PartialSettings)
    ensures Merge(Merge(s, p), p) == Merge(s, p)
  {
  }

  /** Successive updates compose. */
  lemma MergeCompose(s: Settings, p: PartialSettings, q: PartialSettings)
    ensures Merge(Merge(s, p), q) == Merge(s, Override(p, q))
  {
  }

  /** A fully supplied object replaces the whole state, whatever it was. */
  lemma MergeWhole(s: Settings, t: Settings)
    ensures Merge(s, Whole(t)) == t
  {
  }

  /** The merge is shallow: a supplied `analysis` group replaces the old one
      entirely, so a caller that wants to change one threshold has to copy the
      rest of the group in itself; the copy then keeps every other field. */
  lemma ShallowGroupReplace(s: Settings, g: Analysis, oversold: real)
    ensures Merge(s, Empty.(analysis := Some(g))).analysis == g
    ensures var spread := s.analysis.(rsiThreshold := s.analysis.rsiThreshold.(oversold := oversold));
      var r := Merge(s, Empty.(analysis := Some(spread)));
      && r.analysis.rsiThreshold.oversold == oversold
      && r.analysis.rsiThreshold.overbought == s.analysis.rsiThreshold.overbought
      && r.analysis.whaleMinAmount == s.analysis.whaleMinAmount
      && r.analysis.timeframes == s.analysis.timeframes
      && r.(analysis := s.analysis) == s
  {
  }

  /** The default RSI band is oversold 20 below overbought 80, refreshed every 3 s. */
  lemma DefaultsSane()
    ensures Defaults.analysis.rsiThreshold.oversold < Defaults.analysis.rsiThreshold.overbought
    ensures Defaults.refreshInterval == 3000.0
  {
  }

  class Store {
    var autoMode: bool
    var refreshInterval: real
    var theme: Theme
    var language: Language
    var notifications: Notifications
    var analysis: Analysis
    var risk: Risk
    var api: Api

    /** The store's settings as one record. */
    function Current(): Settings
      reads this
    {
      Settings(autoMode, refreshInterval, theme, language, notifications, analysis, risk, api)
    }

    method Assign(s: Settings)
      modifies this
      ensures Current() == s
    {
      autoMode := s.autoMode;
      refreshInterval := s.refreshInterval;
      theme := s.theme;
      language := s.language;
      notifications := s.notifications;
      analysis := s.analysis;
      risk := s.risk;
      api := s.api;
    }

    /** A store with nothing persisted starts from the defaults. */
    constructor ()
      ensures Current() == Defaults
    {
      autoMode := Defaults.autoMode;
      refreshInterval := Defaults.refreshInterval;
      theme := Defaults.theme;
      language := Defaults.language;
      notifications := Defaults.notifications;
      analysis := Defaults.analysis;
      risk := Defaults.risk;
      api := Defaults.api;
    }

    /** updateSettings: the supplied top-level fields overwrite the state's. */
    method UpdateSettings(p: PartialSettings)
      modifies this
      ensures Current() == Merge(old(Current()), p)
    {
      Assign(Merge(Current(), p));
    }

    /** resetSettings: every setting back to its default. */
    method ResetSettings()
      modifies this
      ensures Current() == Defaults
      ensures Current() == Merge(old(Current()), Whole(Defaults))
    {
      MergeWhole(Current(), Defaults);
      Assign(Defaults);
    }

    /** importSettings: `parsed` is the result of JSON.parse, None when it threw.
        A parsed object is merged like an update; a parse failure is swallowed
        and leaves every setting as it was. */
    method ImportSettings(parsed: Option<PartialSettings>)
      modifies this
      ensures parsed.None? ==> Current() == old(Current())
      ensures parsed.Some? ==> Current() == Merge(old(Current()), parsed.value)
    {
      if parsed.Some? {
        Assign(Merge(Current(), parsed.value));
      }
    }
  }

  /** Resetting twice is resetting once. */
  lemma ResetIdempotent(s: Settings)
    ensures Merge(Merge(s, Whole(Defaults)), Whole(Defaults)) == Merge(s, Whole(Defaults))
  {
    MergeWhole(s, Defaults);
    MergeWhole(Defaults, Defaults);
  }
}
