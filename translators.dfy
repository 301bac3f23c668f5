/**
 * The custom-translator registry of the background process:
 * `applyTranslators` (src/requests/backend/translators/applyTranslators.ts)
 * falls back to the default translator when the configured custom translator
 * is gone, then hands the translator classes to the translate manager;
 * `deleteTranslator` (src/requests/backend/translators/deleteTranslator.ts)
 * deletes a stored translator, re-applies the translators and clears that
 * translator's cache scope, in that order.
 */
module Translators {
  import opened Wrappers
  import opened Config

  /** A stored custom translator. */
  datatype CustomTranslator = CustomTranslator(name: string, code: string)

  /** The persisted translators, by their numeric id. */
  type TranslatorTable = map<int, CustomTranslator>

  /** A translator class handed to the translate manager (its code is not part of this model). */
  datatype TranslatorClass = TranslatorClass(name: string)

  /** The available translator classes, by translator name. */
  type ClassMap = map<string, TranslatorClass>

  /** The translators cache storage: one scope per translator, each a map from request key to translation. */
  type CacheScopes = map<string, map<string, string>>

  /**
   * Helpers whose code is not part of this model, kept uninterpreted:
   * `isCustomTranslatorId`, `formatToCustomTranslatorId`,
   * `getTranslatorsClasses` (here a function of the stored translators) and
   * the constant `DEFAULT_TRANSLATOR`.
   */
  datatype Registry = Registry(
    isCustomTranslatorId: string -> bool,
    formatToCustomTranslatorId: int -> string,
    getTranslatorsClasses: TranslatorTable -> ClassMap,
    defaultTranslator: string)

  /** JavaScript's `s.slice(1)`: everything but the first character. */
  function SliceFirst(s: string): (r: string)
    ensures |s| > 0 ==> [s[0]] + r == s
    ensures |s| == 0 ==> r == []
  {
    if |s| == 0 then [] else s[1..]
  }

  /** The configured translator is usable: a builtin id, or a custom id whose sliced name has a class. */
  predicate Available(reg: Registry, translatorModule: string, classes: ClassMap)
  {
    !reg.isCustomTranslatorId(translatorModule) || SliceFirst(translatorModule) in classes
  }

  /** The configuration `update` writes, if any. */
  function FallbackWrite(reg: Registry, config: AppConfig, classes: ClassMap): Option<AppConfig>
  {
    var translatorName := config.translatorModule;
    if reg.isCustomTranslatorId(translatorName) && SliceFirst(translatorName) !in classes then
      Some(config.(translatorModule := reg.defaultTranslator))
    else
      None
  }

  /** The configuration after `update`. */
  function ConfigAfterApply(reg: Registry, config: AppConfig, classes: ClassMap): AppConfig
  {
    match FallbackWrite(reg, config, classes)
    case Some(written) => written
    case None => config
  }

  /**
   * `update` writes configuration exactly when the configured translator is a
   * custom id whose sliced name has no class; the write keeps every field but
   * `translatorModule`, which becomes the default translator.
   */
  lemma FallbackWriteIff(reg: Registry, config: AppConfig, classes: ClassMap)
    ensures FallbackWrite(reg, config, classes).Some? <==> !Available(reg, config.translatorModule, classes)
    ensures !reg.isCustomTranslatorId(config.translatorModule) ==> FallbackWrite(reg, config, classes) == None
    ensures FallbackWrite(reg, config, classes).Some? ==>
      var w := FallbackWrite(reg, config, classes).value;
      && w.translatorModule == reg.defaultTranslator
      && w.appIcon == config.appIcon && w.scheduler == config.scheduler
      && w.textTranslator == config.textTranslator && w.selectTranslator == config.selectTranslator
      && w.pageTranslator == config.pageTranslator && w.other == config.other
  {
  }

  /** Provided the default translator is not a custom id, after `update` the configured translator is usable. */
  lemma ApplyEstablishesAvailability(reg: Registry, config: AppConfig, classes: ClassMap)
    requires !reg.isCustomTranslatorId(reg.defaultTranslator)
    ensures Available(reg, ConfigAfterApply(reg, config, classes).translatorModule, classes)
  {
  }

  /**
   * Provided the default translator is not a custom id, a second `update`
   * with unchanged classes writes no configuration.
   */
  lemma ApplyIsIdempotent(reg: Registry, config: AppConfig, classes: ClassMap)
    requires !reg.isCustomTranslatorId(reg.defaultTranslator)
    ensures FallbackWrite(reg, ConfigAfterApply(reg, config, classes), classes) == None
    ensures ConfigAfterApply(reg, ConfigAfterApply(reg, config, classes), classes) == ConfigAfterApply(reg, config, classes)
  {
    ApplyEstablishesAvailability(reg, config, classes);
  }

  /** `new TranslatorsCacheStorage(scope).clear()`: empties one scope and leaves the others as they were. */
  function ClearScope(cache: CacheScopes, scope: string): (r: CacheScopes)
    ensures scope !in r
    ensures forall s :: s in r <==> s in cache && s != scope
    ensures forall s :: s in r ==> r[s] == cache[s]
  {
    cache - {scope}
  }

  /** The steps the registry takes, in order. */
  datatype Effect =
    | TranslatorDeleted(id: int)
    | ConfigWritten(config: AppConfig)
    | TranslatorsSet(classes: ClassMap)
    | CacheCleared(scope: string)

  /** What `update` does, as steps. */
  function ApplyTrace(reg: Registry, config: AppConfig, classes: ClassMap): seq<Effect>
  {
    (match FallbackWrite(reg, config, classes)
     case Some(written) => [ConfigWritten(written)]
     case None => [])
    + [TranslatorsSet(classes)]
  }

  /** A request payload, by JSON kind; only numbers pass `deleteTranslator`'s validator. */
  datatype Payload = NumberPayload(n: int) | NonNumberPayload

  datatype RequestError = InvalidPayload

  /** The background's translator registry state. */
  class TranslatorService {
    const registry: Registry
    /** The persisted custom translators. */
    var translators: TranslatorTable
    /** The stored application configuration. */
    var config: AppConfig
    /** The translators cache storage. */
    var cache: CacheScopes
    /** The classes last passed to the translate manager's `setTranslators`. */
    var managerTranslators: Option<ClassMap>
    var trace: seq<Effect>

    constructor (registry: Registry, translators: TranslatorTable, config: AppConfig, cache: CacheScopes)
      ensures this.registry == registry && this.translators == translators
      ensures this.config == config && this.cache == cache
      ensures managerTranslators == None && trace == []
    {
      this.registry := registry;
      this.translators := translators;
      this.config := config;
      this.cache := cache;
      managerTranslators := None;
      trace := [];
    }

    /**
     * `update`: read the classes and the configuration, fall back to the
     * default translator if the custom one is gone, then set the classes on
     * the translate manager, on every path.
     */
    method Update()
      modifies this`config, this`managerTranslators, this`trace
      ensures var classes := registry.getTranslatorsClasses(translators);
        && config == ConfigAfterApply(registry, old(config), classes)
        && managerTranslators == Some(classes)
        && trace == old(trace) + ApplyTrace(registry, old(config), classes)
    {
      var translatorsClasses := registry.getTranslatorsClasses(translators);
      var latestConfig := config;
      var translatorName := latestConfig.translatorModule;
      var isCustomTranslator := registry.isCustomTranslatorId(translatorName);
      if isCustomTranslator {
        var customTranslatorName := SliceFirst(translatorName);
        var isCurrentTranslatorAvailable := customTranslatorName in translatorsClasses;
        if !isCurrentTranslatorAvailable {
          config := latestConfig.(translatorModule := registry.defaultTranslator);
          trace := trace + [ConfigWritten(config)];
        }
      }
      managerTranslators := Some(translatorsClasses);
      trace := trace + [TranslatorsSet(translatorsClasses)];
    }

    /**
     * `applyTranslatorsFactory`: runs `update` once when the handler is
     * registered; the handler it returns is `Update` itself.
     */
    method ApplyTranslatorsFactory()
      modifies this`config, this`managerTranslators, this`trace
      ensures var classes := registry.getTranslatorsClasses(translators);
        && config == ConfigAfterApply(registry, old(config), classes)
        && managerTranslators == Some(classes)
        && trace == old(trace) + ApplyTrace(registry, old(config), classes)
    {
      Update();
    }

    /**
     * The `deleteTranslator` request: a non-number payload is rejected before
     * the handler runs; otherwise the translator is deleted, the translators
     * are re-applied against the table without it, and only its cache scope
     * is cleared, after the deletion.
     */
    method DeleteTranslator(payload: Payload) returns (r: Outcome<RequestError>)
      modifies this`translators, this`config, this`cache, this`managerTranslators, this`trace
      ensures !payload.NumberPayload? ==>
        && r == Fail(InvalidPayload)
        && translators == old(translators) && config == old(config) && cache == old(cache)
        && managerTranslators == old(managerTranslators) && trace == old(trace)
      ensures payload.NumberPayload? ==>
        var id := payload.n;
        var classes := registry.getTranslatorsClasses(old(translators) - {id});
        var scope := registry.formatToCustomTranslatorId(id);
        && r == Pass
        && id !in translators
        && translators == old(translators) - {id}
        && config == ConfigAfterApply(registry, old(config), classes)
        && managerTranslators == Some(classes)
        && (registry.isCustomTranslatorId(old(config).translatorModule)
            && SliceFirst(old(config).translatorModule) !in classes ==>
              config.translatorModule == registry.defaultTranslator)
        && cache == ClearScope(old(cache), scope)
        && trace == old(trace) + DeleteTrace(registry, old(translators), old(config), id)
    {
      if !payload.NumberPayload? {
        return Fail(InvalidPayload);
      }
      var translatorId := payload.n;
      translators := translators - {translatorId};
      trace := trace + [TranslatorDeleted(translatorId)];
      Update();
      var scope := registry.formatToCustomTranslatorId(translatorId);
      cache := ClearScope(cache, scope);
      trace := trace + [CacheCleared(scope)];
      r := Pass;
    }
  }

  /** The steps of a successful `deleteTranslator`. */
  function DeleteTrace(reg: Registry, table: TranslatorTable, config: AppConfig, id: int): seq<Effect>
  {
    var classes := reg.getTranslatorsClasses(table - {id});
    [TranslatorDeleted(id)] + ApplyTrace(reg, config, classes) + [CacheCleared(reg.formatToCustomTranslatorId(id))]
  }

  /**
   * In `deleteTranslator`, the cache is cleared once, last, strictly after the
   * persisted deletion, and the classes are set between the two.
   */
  lemma DeleteClearsCacheAfterDeletion(reg: Registry, table: TranslatorTable, config: AppConfig, id: int)
    ensures var t := DeleteTrace(reg, table, config, id);
      && t[0] == TranslatorDeleted(id)
      && t[|t| - 1] == CacheCleared(reg.formatToCustomTranslatorId(id))
      && (forall i :: 0 <= i < |t| - 1 ==> !t[i].CacheCleared?)
      && (forall i :: 0 < i < |t| ==> !t[i].TranslatorDeleted?)
      && TranslatorsSet(reg.getTranslatorsClasses(table - {id})) in t[1..|t| - 1]
  {
    var classes := reg.getTranslatorsClasses(table - {id});
    var a := ApplyTrace(reg, config, classes);
    var t := DeleteTrace(reg, table, config, id);
    assert forall e :: e in a ==> e.ConfigWritten? || e.TranslatorsSet?;
    assert t[1..|t| - 1] == a;
    assert a[|a| - 1] == TranslatorsSet(classes);
    forall i | 0 < i < |t| - 1
      ensures !t[i].CacheCleared? && !t[i].TranslatorDeleted?
    {
      assert t[i] == a[i - 1];
    }
  }
}
