/**
 * The background application's lifecycle (src/app/index.ts): `main` migrates
 * persisted data and builds the services, `start` is a one-shot sequence that
 * starts the background, registers every request handler and wires the
 * configuration watchers to their side effects.
 *
 * Every step the background takes is recorded, in order, in the `trace` of
 * the `Host`, which stands for the browser process the application runs in.
 */
module Lifecycle {
  import opened Wrappers
  import opened Config
  import opened RequestHandlers

  /**
   * The persistent configuration storage. `stored` is the configuration it
   * holds once migration has run (its internals are not part of this model).
   */
  class ConfigStorage {
    const stored: AppConfig

    constructor (stored: AppConfig)
      ensures this.stored == stored
    {
      this.stored := stored;
    }
  }

  /** The observable wrapper that every handler and watcher reads configuration through. */
  class ObservableConfig {
    const storage: ConfigStorage

    constructor (storage: ConfigStorage)
      ensures this.storage == storage
    {
      this.storage := storage;
    }
  }

  /** The background context handed to every handler factory. */
  class Background {
    const config: ObservableConfig

    constructor (config: ObservableConfig)
      ensures this.config == config
    {
      this.config := config;
    }
  }

  /** The configuration watchers, in the order `handleConfigUpdates` subscribes them. */
  datatype Watcher =
    | ConfigBroadcast
    | IconWatcher
    | CacheWatcher
    | RememberTextWatcher
    | SelectionMenuWatcher
    | PageMenuWatcher

  const ConfigWatchers: seq<Watcher> :=
    [ConfigBroadcast, IconWatcher, CacheWatcher, RememberTextWatcher, SelectionMenuWatcher, PageMenuWatcher]

  datatype Event =
    | DataMigrated
    | ConfigStorageCreated
    | ObservableConfigCreated
    | BackgroundCreated
    | AppCreated
    | BackgroundStarted
    | FactoryCalled(factory: Factory, config: ObservableConfig, background: Background)
    | ConfigWatched(watcher: Watcher)
    | Reacted(reaction: Reaction)

  datatype StartError = AlreadyStarted
  {
    /** The message of the error `start` throws. */
    function Message(): string
    {
      "Application already started"
    }
  }

  /** The browser process: whether it is the background context, and what it has done so far. */
  class Host {
    const isBackgroundContext: bool
    /** How many entries `ttsRequestHandlers` spreads into the handler list. */
    const ttsCount: nat
    var trace: seq<Event>

    constructor (isBackgroundContext: bool, ttsCount: nat)
      ensures this.isBackgroundContext == isBackgroundContext && this.ttsCount == ttsCount
      ensures trace == []
    {
      this.isBackgroundContext := isBackgroundContext;
      this.ttsCount := ttsCount;
      trace := [];
    }
  }

  /** One call of each factory of `factories`, in order, with the same dependencies. */
  function Registrations(factories: seq<Factory>, config: ObservableConfig, background: Background): (r: seq<Event>)
    ensures |r| == |factories|
    ensures forall i :: 0 <= i < |r| ==> r[i] == FactoryCalled(factories[i], config, background)
  {
    seq(|factories|, i requires 0 <= i < |factories| => FactoryCalled(factories[i], config, background))
  }

  lemma RegistrationsExtend(factories: seq<Factory>, i: nat, config: ObservableConfig, background: Background)
    requires i < |factories|
    ensures Registrations(factories[..i + 1], config, background) ==
      Registrations(factories[..i], config, background) + [FactoryCalled(factories[i], config, background)]
  {
    var longer := Registrations(factories[..i + 1], config, background);
    var shorter := Registrations(factories[..i], config, background);
    assert forall k :: 0 <= k < i ==> longer[k] == shorter[k];
  }

  /** What `setupRequestHandlers` does: nothing outside the background context. */
  function SetupTrace(isBackgroundContext: bool, ttsCount: nat, config: ObservableConfig, background: Background): seq<Event>
  {
    if isBackgroundContext then Registrations(Handlers(ttsCount), config, background) else []
  }

  function ReactionEvents(reactions: seq<Reaction>): (r: seq<Event>)
    ensures |r| == |reactions|
    ensures forall i :: 0 <= i < |r| ==> r[i] == Reacted(reactions[i])
  {
    seq(|reactions|, i requires 0 <= i < |reactions| => Reacted(reactions[i]))
  }

  /**
   * Subscribing the watchers `ws` in order while the configuration is `c`:
   * each subscription immediately runs its callback on the projection of `c`.
   */
  function SubscribeTrace(ws: seq<Watcher>, c: AppConfig): seq<Event>
  {
    if ws == [] then [] else [ConfigWatched(ws[0])] + ReactionEvents(Fire(ws[0], c)) + SubscribeTrace(ws[1..], c)
  }

  /** Subscribing two lists in turn records the subscription of their concatenation. */
  lemma {:induction false} SubscribeTraceAppend(a: seq<Watcher>, b: seq<Watcher>, c: AppConfig)
    ensures SubscribeTrace(a + b, c) == SubscribeTrace(a, c) + SubscribeTrace(b, c)
  {
    if a == [] {
      assert a + b == b;
    } else {
      assert (a + b)[1..] == a[1..] + b;
      SubscribeTraceAppend(a[1..], b, c);
    }
  }

  /**
   * Subscribing one more watcher extends the record of the ones before it:
   * if `done` records the subscription of `prefix` after `before`, and `next`
   * adds that of `w`, then `next` records the subscription of `prefix + [w]`.
   */
  lemma SubscribeStep(prefix: seq<Watcher>, w: Watcher, c: AppConfig, before: seq<Event>, done: seq<Event>, next: seq<Event>)
    requires done == before + SubscribeTrace(prefix, c)
    requires next == done + SubscribeTrace([w], c)
    ensures next == before + SubscribeTrace(prefix + [w], c)
  {
    SubscribeTraceAppend(prefix, [w], c);
  }


  /**
   * Subscribing records only subscriptions and reactions, and the reactions
   * it records are exactly those of `OnSubscribe`.
   */
  lemma {:induction false} SubscribeTraceEvents(ws: seq<Watcher>, c: AppConfig)
    ensures forall e :: e in SubscribeTrace(ws, c) ==> e.ConfigWatched? || e.Reacted?
    ensures forall r :: Reacted(r) in SubscribeTrace(ws, c) <==> r in OnSubscribe(ws, c)
  {
    if ws != [] {
      SubscribeTraceEvents(ws[1..], c);
      var head := [ConfigWatched(ws[0])] + ReactionEvents(Fire(ws[0], c));
      assert SubscribeTrace(ws, c) == head + SubscribeTrace(ws[1..], c);
      forall r
        ensures Reacted(r) in head <==> r in Fire(ws[0], c)
      {
        if r in Fire(ws[0], c) {
          var i :| 0 <= i < |Fire(ws[0], c)| && Fire(ws[0], c)[i] == r;
          assert head[i + 1] == Reacted(r);
        }
      }
    }
  }

  /** What a successful `start` does, in order. */
  function StartTrace(isBackgroundContext: bool, ttsCount: nat, config: ObservableConfig, background: Background): seq<Event>
  {
    [BackgroundStarted] + SetupTrace(isBackgroundContext, ttsCount, config, background)
      + SubscribeTrace(ConfigWatchers, config.storage.stored)
  }

  /** The steps `main` takes before it calls `start`. */
  const LaunchPrefix: seq<Event> :=
    [DataMigrated, ConfigStorageCreated, ObservableConfigCreated, BackgroundCreated, AppCreated]

  class App {
    const config: ObservableConfig
    const background: Background
    const host: Host
    var isStarted: bool

    constructor (config: ObservableConfig, background: Background, host: Host)
      ensures this.config == config && this.background == background && this.host == host
      ensures !isStarted
    {
      this.config := config;
      this.background := background;
      this.host := host;
      isStarted := false;
    }

    /**
     * `App.main`: migration completes before the configuration storage, the
     * background or the application is built; then the application starts.
     */
    static method Launch(host: Host, stored: AppConfig) returns (app: App, r: Outcome<StartError>)
      modifies host
      ensures fresh(app) && app.host == host && app.isStarted && r == Pass
      ensures app.background.config == app.config && app.config.storage.stored == stored
      ensures host.trace ==
        old(host.trace) + LaunchPrefix + StartTrace(host.isBackgroundContext, host.ttsCount, app.config, app.background)
    {
      host.trace := host.trace + [DataMigrated];
      var storage := new ConfigStorage(stored);
      host.trace := host.trace + [ConfigStorageCreated];
      var observable := new ObservableConfig(storage);
      host.trace := host.trace + [ObservableConfigCreated];
      var background := new Background(observable);
      host.trace := host.trace + [BackgroundCreated];
      app := new App(observable, background, host);
      host.trace := host.trace + [AppCreated];
      r := app.Start();
    }

    /**
     * `start`: fails without side effects when already started; otherwise
     * starts the background, registers the handlers and wires the watchers.
     */
    method Start() returns (r: Outcome<StartError>)
      modifies this`isStarted, host
      ensures isStarted
      ensures r == (if old(isStarted) then Fail(AlreadyStarted) else Pass)
      ensures host.trace ==
        if old(isStarted) then old(host.trace)
        else old(host.trace) + StartTrace(host.isBackgroundContext, host.ttsCount, config, background)
    {
      r := BeginStart();
      if r.Pass? {
        CompleteStart();
      }
    }

    /**
     * The part of `start` that runs before its first `await`: the guard and
     * the flag. Any `start` issued while the rest is awaited sees the flag set.
     */
    method BeginStart() returns (r: Outcome<StartError>)
      modifies this`isStarted
      ensures isStarted
      ensures r == (if old(isStarted) then Fail(AlreadyStarted) else Pass)
    {
      if isStarted {
        return Fail(AlreadyStarted);
      }
      isStarted := true;
      r := Pass;
    }

    /** The awaited part of `start`; it cannot touch `isStarted`, only the host. */
    method CompleteStart()
      modifies host
      ensures host.trace == old(host.trace) + StartTrace(host.isBackgroundContext, host.ttsCount, config, background)
    {
      ghost var before := host.trace;
      ghost var setup := SetupTrace(host.isBackgroundContext, host.ttsCount, config, background);
      ghost var watch := SubscribeTrace(ConfigWatchers, config.storage.stored);
      assert StartTrace(host.isBackgroundContext, host.ttsCount, config, background) == [BackgroundStarted] + setup + watch;
      host.trace := host.trace + [BackgroundStarted];
      SetupRequestHandlers();
      assert host.trace == before + [BackgroundStarted] + setup;
      HandleConfigUpdates();
      assert host.trace == before + [BackgroundStarted] + setup + watch;
    }

    /** `setupRequestHandlers`: calls each factory in list order, in the background context only. */
    method SetupRequestHandlers()
      modifies host
      ensures host.trace == old(host.trace) + SetupTrace(host.isBackgroundContext, host.ttsCount, config, background)
    {
      if host.isBackgroundContext {
        CallEach(Handlers(host.ttsCount));
      }
    }

    /** `factories.forEach(factory => factory({ config, backgroundContext }))`. */
    method CallEach(factories: seq<Factory>)
      modifies host
      ensures host.trace == old(host.trace) + Registrations(factories, config, background)
    {
      for i := 0 to |factories|
        invariant host.trace == old(host.trace) + Registrations(factories[..i], config, background)
      {
        RegistrationsExtend(factories, i, config, background);
        host.trace := host.trace + [FactoryCalled(factories[i], config, background)];
      }
      assert factories[..|factories|] == factories;
    }

    /**
     * `handleConfigUpdates`: subscribes the watchers in their fixed order;
     * each subscription runs its callback on the current configuration.
     */
    method HandleConfigUpdates()
      modifies host
      ensures host.trace == old(host.trace) + SubscribeTrace(ConfigWatchers, config.storage.stored)
    {
      ghost var before := host.trace;
      ghost var c := config.storage.stored;
      ghost var watched: seq<Watcher> := [];
      ghost var t0 := host.trace;
      Watch(ConfigBroadcast);
      SubscribeStep(watched, ConfigBroadcast, c, before, t0, host.trace);
      watched := watched + [ConfigBroadcast];
      ghost var t1 := host.trace;
      Watch(IconWatcher);
      SubscribeStep(watched, IconWatcher, c, before, t1, host.trace);
      watched := watched + [IconWatcher];
      ghost var t2 := host.trace;
      Watch(CacheWatcher);
      SubscribeStep(watched, CacheWatcher, c, before, t2, host.trace);
      watched := watched + [CacheWatcher];
      ghost var t3 := host.trace;
      Watch(RememberTextWatcher);
      SubscribeStep(watched, RememberTextWatcher, c, before, t3, host.trace);
      watched := watched + [RememberTextWatcher];
      ghost var t4 := host.trace;
      Watch(SelectionMenuWatcher);
      SubscribeStep(watched, SelectionMenuWatcher, c, before, t4, host.trace);
      watched := watched + [SelectionMenuWatcher];
      ghost var t5 := host.trace;
      Watch(PageMenuWatcher);
      SubscribeStep(watched, PageMenuWatcher, c, before, t5, host.trace);
      watched := watched + [PageMenuWatcher];
      assert watched == ConfigWatchers;
    }

    /** `$appConfig.map(projection).watch(callback)` for one watcher. */
    method Watch(w: Watcher)
      modifies host
      ensures host.trace == old(host.trace) + SubscribeTrace([w], config.storage.stored)
    {
      var current := config.storage.stored;
      host.trace := host.trace + [ConfigWatched(w)] + ReactionEvents(Fire(w, current));
      assert SubscribeTrace([w], current) == [ConfigWatched(w)] + ReactionEvents(Fire(w, current)) + SubscribeTrace([], current);
    }
  }

  /** Outside the background context, `start` calls no handler factory. */
  lemma NoFactoryOutsideBackground(ttsCount: nat, config: ObservableConfig, background: Background)
    ensures forall e :: e in StartTrace(false, ttsCount, config, background) ==> !e.FactoryCalled?
  {
    var t := StartTrace(false, ttsCount, config, background);
    SubscribeTraceEvents(ConfigWatchers, config.storage.stored);
    assert t == [BackgroundStarted] + SubscribeTrace(ConfigWatchers, config.storage.stored);
  }

  /**
   * In the background context each factory of the list is called exactly
   * once, in list order, with the same configuration and background.
   */
  lemma EachFactoryCalledOnce(ttsCount: nat, config: ObservableConfig, background: Background)
    ensures var regs := Registrations(Handlers(ttsCount), config, background);
      && (forall f :: f in Handlers(ttsCount) ==> FactoryCalled(f, config, background) in regs)
      && (forall i, j :: 0 <= i < j < |regs| ==> regs[i] != regs[j])
      && (forall e :: e in regs ==> e.FactoryCalled? && e.config == config && e.background == background)
  {
    var h := Handlers(ttsCount);
    var regs := Registrations(h, config, background);
    HandlersDistinct(ttsCount);
    forall f | f in h
      ensures FactoryCalled(f, config, background) in regs
    {
      var i := IndexOf(h, f);
      assert regs[i] == FactoryCalled(f, config, background);
    }
    forall i, j | 0 <= i < j < |regs|
      ensures regs[i] != regs[j]
    {
      assert h[i] != h[j];
    }
  }

  /**
   * Readiness: in every prefix of the registrations, once `pingFactory` has
   * been called, every factory of the list has been called.
   */
  lemma PingLiveImpliesAllLive(ttsCount: nat, config: ObservableConfig, background: Background, k: nat)
    requires k <= |Handlers(ttsCount)|
    ensures var regs := Registrations(Handlers(ttsCount), config, background);
      FactoryCalled(Ping, config, background) in regs[..k] ==>
        forall f :: f in Handlers(ttsCount) ==> FactoryCalled(f, config, background) in regs[..k]
  {
    var h := Handlers(ttsCount);
    var regs := Registrations(h, config, background);
    if FactoryCalled(Ping, config, background) in regs[..k] {
      PingIsLast(ttsCount);
      var i :| 0 <= i < k && regs[..k][i] == FactoryCalled(Ping, config, background);
      assert h[i] == Ping;
      assert k == |h|;
      assert regs[..k] == regs;
      EachFactoryCalledOnce(ttsCount, config, background);
    }
  }

  /**
   * `start` runs the background start first, every factory call next, and
   * the watcher subscriptions last.
   */
  lemma StartOrder(isBackgroundContext: bool, ttsCount: nat, config: ObservableConfig, background: Background)
    ensures var t := StartTrace(isBackgroundContext, ttsCount, config, background);
      && t[0] == BackgroundStarted
      && (forall i, j :: 0 <= i < j < |t| && t[i].FactoryCalled? ==> t[j].FactoryCalled? || Subscribing(t[j]))
      && (forall i, j :: 0 <= i < j < |t| && Subscribing(t[i]) ==> Subscribing(t[j]))
      && (forall i :: 0 < i < |t| ==> t[i].FactoryCalled? || Subscribing(t[i]))
  {
    var s := SetupTrace(isBackgroundContext, ttsCount, config, background);
    assert forall e :: e in s ==> e.FactoryCalled?;
    SubscribeTraceEvents(ConfigWatchers, config.storage.stored);
    PhasesInOrder(s, SubscribeTrace(ConfigWatchers, config.storage.stored));
  }

  /** Factory calls followed by subscriptions, after the background has started. */
  lemma PhasesInOrder(setup: seq<Event>, watch: seq<Event>)
    requires forall e :: e in setup ==> e.FactoryCalled?
    requires forall e :: e in watch ==> Subscribing(e)
    ensures var t := [BackgroundStarted] + setup + watch;
      && (forall i :: 0 < i <= |setup| ==> t[i].FactoryCalled?)
      && (forall i :: |setup| < i < |t| ==> Subscribing(t[i]))
  {
    var t := [BackgroundStarted] + setup + watch;
    forall i | 0 < i < |t|
      ensures i <= |setup| ==> t[i].FactoryCalled?
      ensures i > |setup| ==> Subscribing(t[i])
    {
      if i <= |setup| {
        assert t[i] == setup[i - 1];
      } else {
        assert t[i] == watch[i - 1 - |setup|];
      }
    }
  }


  /** A step of `handleConfigUpdates`: a subscription or a callback's reaction. */
  predicate Subscribing(e: Event)
  {
    e.ConfigWatched? || e.Reacted?
  }

  /**
   * The reactions a start records are exactly those the watchers owe the
   * configuration held in storage when they subscribe.
   */
  lemma StartReactsToStoredConfig(isBackgroundContext: bool, ttsCount: nat, config: ObservableConfig, background: Background)
    ensures forall r ::
      Reacted(r) in StartTrace(isBackgroundContext, ttsCount, config, background) <==>
      r in OnSubscribe(ConfigWatchers, config.storage.stored)
  {
    var s := SetupTrace(isBackgroundContext, ttsCount, config, background);
    assert forall e :: e in s ==> e.FactoryCalled?;
    SubscribeTraceEvents(ConfigWatchers, config.storage.stored);
  }


  // Configuration watchers: each maps the configuration to a projected value
  // and reacts to it. The observable store (not part of this model) calls a
  // watcher once on subscription and again on every commit that changes its
  // projected value; `OnSubscribe` and `OnCommit` state that contract.

  /** A watcher's projected value. */
  datatype Projected = WholeConfig(config: AppConfig) | IconPreference(icon: string) | Flag(on: bool)

  /** The side effects the watcher callbacks perform. */
  datatype Reaction =
    | SendConfigUpdate(config: AppConfig)
    | SetIconPreferences(icon: string)
    | ClearAllCache
    | ForgetText
    | EnableSelectionMenu
    | DisableSelectionMenu
    | EnablePageMenu
    | DisablePageMenu

  /** The selection context menu's projection. */
  function SelectionMenuEnabled(c: AppConfig): bool
  {
    c.selectTranslator.enabled && c.selectTranslator.mode == ContextMenuMode
  }

  /** The `.map(...)` projection of each watcher. */
  function Project(w: Watcher, c: AppConfig): Projected
  {
    match w
    case ConfigBroadcast => WholeConfig(c)
    case IconWatcher => IconPreference(c.appIcon)
    case CacheWatcher => Flag(c.scheduler.useCache)
    case RememberTextWatcher => Flag(c.textTranslator.rememberText)
    case SelectionMenuWatcher => Flag(SelectionMenuEnabled(c))
    case PageMenuWatcher => Flag(c.pageTranslator.enableContextMenu)
  }

  /** The `.watch(...)` callback of each watcher, run on the projection of `c`. */
  function Fire(w: Watcher, c: AppConfig): seq<Reaction>
  {
    match w
    case ConfigBroadcast => [SendConfigUpdate(c)]
    case IconWatcher => [SetIconPreferences(c.appIcon)]
    case CacheWatcher => if !c.scheduler.useCache then [ClearAllCache] else []
    case RememberTextWatcher => if !c.textTranslator.rememberText then [ForgetText] else []
    case SelectionMenuWatcher => if SelectionMenuEnabled(c) then [EnableSelectionMenu] else [DisableSelectionMenu]
    case PageMenuWatcher => if c.pageTranslator.enableContextMenu then [EnablePageMenu] else [DisablePageMenu]
  }

  /** Every callback reads the configuration only through its projection. */
  lemma FireDependsOnlyOnProjection(w: Watcher, a: AppConfig, b: AppConfig)
    requires Project(w, a) == Project(w, b)
    ensures Fire(w, a) == Fire(w, b)
  {
    match w
    case ConfigBroadcast =>
      assert a == b;
    case IconWatcher =>
      assert a.appIcon == b.appIcon;
    case CacheWatcher =>
      assert a.scheduler.useCache == b.scheduler.useCache;
    case RememberTextWatcher =>
      assert a.textTranslator.rememberText == b.textTranslator.rememberText;
    case SelectionMenuWatcher =>
      assert SelectionMenuEnabled(a) == SelectionMenuEnabled(b);
    case PageMenuWatcher =>
      assert a.pageTranslator.enableContextMenu == b.pageTranslator.enableContextMenu;
  }

  /** The reactions on subscription: every watcher fires once, in subscription order. */
  function OnSubscribe(ws: seq<Watcher>, c: AppConfig): seq<Reaction>
  {
    if ws == [] then [] else Fire(ws[0], c) + OnSubscribe(ws[1..], c)
  }

  /** The reactions on a commit from `prev` to `next`: a watcher fires only if its projection changed. */
  function OnCommit(ws: seq<Watcher>, prev: AppConfig, next: AppConfig): seq<Reaction>
  {
    if ws == [] then [] else
      var fired := if Project(ws[0], prev) == Project(ws[0], next) then [] else Fire(ws[0], next);
      fired + OnCommit(ws[1..], prev, next)
  }

  lemma {:induction false} InOnSubscribe(ws: seq<Watcher>, c: AppConfig, r: Reaction)
    ensures r in OnSubscribe(ws, c) <==> exists w :: w in ws && r in Fire(w, c)
  {
    if ws != [] {
      InOnSubscribe(ws[1..], c, r);
      assert forall w :: w in ws <==> w == ws[0] || w in ws[1..];
    }
  }

  lemma {:induction false} InOnCommit(ws: seq<Watcher>, prev: AppConfig, next: AppConfig, r: Reaction)
    ensures r in OnCommit(ws, prev, next) <==>
      exists w :: w in ws && Project(w, prev) != Project(w, next) && r in Fire(w, next)
  {
    if ws != [] {
      InOnCommit(ws[1..], prev, next, r);
      assert forall w :: w in ws <==> w == ws[0] || w in ws[1..];
    }
  }

  /** The watcher whose callback performs a reaction. */
  function Owner(r: Reaction): Watcher
  {
    match r
    case SendConfigUpdate(_) => ConfigBroadcast
    case SetIconPreferences(_) => IconWatcher
    case ClearAllCache => CacheWatcher
    case ForgetText => RememberTextWatcher
    case EnableSelectionMenu => SelectionMenuWatcher
    case DisableSelectionMenu => SelectionMenuWatcher
    case EnablePageMenu => PageMenuWatcher
    case DisablePageMenu => PageMenuWatcher
  }

  /** Each callback performs only reactions of its own. */
  lemma FireOwnsItsReactions(w: Watcher, c: AppConfig)
    ensures forall r :: r in Fire(w, c) ==> Owner(r) == w
  {
  }

  /**
   * A watcher whose projection a commit leaves unchanged stays silent: the
   * commit performs none of its reactions, whatever the other watchers do.
   */
  lemma UnchangedProjectionStaysSilent(w: Watcher, prev: AppConfig, next: AppConfig)
    requires Project(w, prev) == Project(w, next)
    ensures forall r :: r in OnCommit(ConfigWatchers, prev, next) ==> Owner(r) != w
  {
    forall r | r in OnCommit(ConfigWatchers, prev, next)
      ensures Owner(r) != w
    {
      InOnCommit(ConfigWatchers, prev, next, r);
      var v :| v in ConfigWatchers && Project(v, prev) != Project(v, next) && r in Fire(v, next);
      FireOwnsItsReactions(v, next);
    }
  }

  /** Caching off clears the cache on subscription; caching on clears nothing. */
  lemma SubscribeClearsCacheIff(c: AppConfig)
    ensures ClearAllCache in OnSubscribe(ConfigWatchers, c) <==> !c.scheduler.useCache
  {
    InOnSubscribe(ConfigWatchers, c, ClearAllCache);
    if !c.scheduler.useCache {
      assert ClearAllCache in Fire(CacheWatcher, c);
    }
  }

  /** A commit clears the cache exactly when it switches caching from on to off. */
  lemma CommitClearsCacheIff(prev: AppConfig, next: AppConfig)
    ensures ClearAllCache in OnCommit(ConfigWatchers, prev, next) <==>
      prev.scheduler.useCache && !next.scheduler.useCache
  {
    InOnCommit(ConfigWatchers, prev, next, ClearAllCache);
    if prev.scheduler.useCache && !next.scheduler.useCache {
      assert Project(CacheWatcher, prev) != Project(CacheWatcher, next);
      assert ClearAllCache in Fire(CacheWatcher, next);
    }
  }

  /** Remembering input text off forgets the text on subscription; on forgets nothing. */
  lemma SubscribeForgetsTextIff(c: AppConfig)
    ensures ForgetText in OnSubscribe(ConfigWatchers, c) <==> !c.textTranslator.rememberText
  {
    InOnSubscribe(ConfigWatchers, c, ForgetText);
    if !c.textTranslator.rememberText {
      assert ForgetText in Fire(RememberTextWatcher, c);
    }
  }

  /**
   * The selection context menu is enabled exactly when the selection
   * translator is enabled in "contextMenu" mode, and disabled otherwise.
   */
  lemma SelectionMenuMirrorsConfig(c: AppConfig)
    ensures EnableSelectionMenu in OnSubscribe(ConfigWatchers, c) <==>
      c.selectTranslator.enabled && c.selectTranslator.mode == ContextMenuMode
    ensures DisableSelectionMenu in OnSubscribe(ConfigWatchers, c) <==>
      !(c.selectTranslator.enabled && c.selectTranslator.mode == ContextMenuMode)
  {
    InOnSubscribe(ConfigWatchers, c, EnableSelectionMenu);
    InOnSubscribe(ConfigWatchers, c, DisableSelectionMenu);
    if SelectionMenuEnabled(c) {
      assert EnableSelectionMenu in Fire(SelectionMenuWatcher, c);
    } else {
      assert DisableSelectionMenu in Fire(SelectionMenuWatcher, c);
    }
  }

  /**
   * On a commit the selection context menu is touched only when its
   * projection flips, and then it is set to the new projection.
   */
  lemma SelectionMenuFollowsCommit(prev: AppConfig, next: AppConfig)
    ensures SelectionMenuEnabled(prev) == SelectionMenuEnabled(next) ==>
      EnableSelectionMenu !in OnCommit(ConfigWatchers, prev, next) &&
      DisableSelectionMenu !in OnCommit(ConfigWatchers, prev, next)
    ensures SelectionMenuEnabled(prev) != SelectionMenuEnabled(next) ==>
      (EnableSelectionMenu in OnCommit(ConfigWatchers, prev, next) <==> SelectionMenuEnabled(next)) &&
      (DisableSelectionMenu in OnCommit(ConfigWatchers, prev, next) <==> !SelectionMenuEnabled(next))
  {
    InOnCommit(ConfigWatchers, prev, next, EnableSelectionMenu);
    InOnCommit(ConfigWatchers, prev, next, DisableSelectionMenu);
    if SelectionMenuEnabled(prev) != SelectionMenuEnabled(next) {
      assert Project(SelectionMenuWatcher, prev) != Project(SelectionMenuWatcher, next);
      if SelectionMenuEnabled(next) {
        assert EnableSelectionMenu in Fire(SelectionMenuWatcher, next);
      } else {
        assert DisableSelectionMenu in Fire(SelectionMenuWatcher, next);
      }
    }
  }

  /** The page context menu's state mirrors `pageTranslator.enableContextMenu`. */
  lemma PageMenuMirrorsConfig(c: AppConfig)
    ensures EnablePageMenu in OnSubscribe(ConfigWatchers, c) <==> c.pageTranslator.enableContextMenu
    ensures DisablePageMenu in OnSubscribe(ConfigWatchers, c) <==> !c.pageTranslator.enableContextMenu
  {
    InOnSubscribe(ConfigWatchers, c, EnablePageMenu);
    InOnSubscribe(ConfigWatchers, c, DisablePageMenu);
    if c.pageTranslator.enableContextMenu {
      assert EnablePageMenu in Fire(PageMenuWatcher, c);
    } else {
      assert DisablePageMenu in Fire(PageMenuWatcher, c);
    }
  }

  /**
   * On a commit the page context menu is touched only when
   * `enableContextMenu` flips, and then it is set to the new value.
   */
  lemma PageMenuFollowsCommit(prev: AppConfig, next: AppConfig)
    ensures prev.pageTranslator.enableContextMenu == next.pageTranslator.enableContextMenu ==>
      EnablePageMenu !in OnCommit(ConfigWatchers, prev, next) &&
      DisablePageMenu !in OnCommit(ConfigWatchers, prev, next)
    ensures prev.pageTranslator.enableContextMenu != next.pageTranslator.enableContextMenu ==>
      (EnablePageMenu in OnCommit(ConfigWatchers, prev, next) <==> next.pageTranslator.enableContextMenu) &&
      (DisablePageMenu in OnCommit(ConfigWatchers, prev, next) <==> !next.pageTranslator.enableContextMenu)
  {
    InOnCommit(ConfigWatchers, prev, next, EnablePageMenu);
    InOnCommit(ConfigWatchers, prev, next, DisablePageMenu);
    if prev.pageTranslator.enableContextMenu != next.pageTranslator.enableContextMenu {
      assert Project(PageMenuWatcher, prev) != Project(PageMenuWatcher, next);
      if next.pageTranslator.enableContextMenu {
        assert EnablePageMenu in Fire(PageMenuWatcher, next);
      } else {
        assert DisablePageMenu in Fire(PageMenuWatcher, next);
      }
    }
  }
}
