/**
 * The ordered list of request-handler factories that the background process
 * registers at startup (src/app/Background/requestHandlers.ts).
 */
module RequestHandlers {

  /**
   * One entry of the list. The entries that `ttsRequestHandlers` spreads into
   * the list are not part of this model; they are told apart by their position
   * in that array, `TtsHandler(i)`. `HistoryHandlers` and `BergamotHandlers`
   * are single factories that register a group of handlers each.
   */
  datatype Factory =
    | Translate
    | SuggestLanguage
    | GetTranslatorFeatures
    | GetUserLanguagePreferences
    | GetAvailableTranslators
    | ClearCache
    | TtsHandler(index: nat)
    | HistoryHandlers
    | BergamotHandlers
    | GetConfig
    | SetConfig
    | ResetConfig
    | UpdateConfig
    | GetLanguagePreferences
    | AddLanguagePreferences
    | DeleteLanguagePreferences
    | SetSitePreferences
    | GetSitePreferences
    | DeleteSitePreferences
    | AddTranslation
    | DeleteTranslation
    | FindTranslation
    | GetTranslations
    | ClearTranslations
    | AddTranslator
    | DeleteTranslator
    | UpdateTranslator
    | GetTranslators
    | ApplyTranslators
    | GetRecentUsedLanguages
    | AddRecentUsedLanguage
    | Ping

  /** The factories registered before the text-to-speech entries. */
  const Leading: seq<Factory> :=
    [Translate, SuggestLanguage, GetTranslatorFeatures, GetUserLanguagePreferences,
     GetAvailableTranslators, ClearCache]

  /** The factories registered after the text-to-speech entries, ending with `Ping`. */
  const Trailing: seq<Factory> :=
    [HistoryHandlers, BergamotHandlers,
     GetConfig, SetConfig, ResetConfig, UpdateConfig,
     GetLanguagePreferences, AddLanguagePreferences, DeleteLanguagePreferences,
     SetSitePreferences, GetSitePreferences, DeleteSitePreferences,
     AddTranslation, DeleteTranslation, FindTranslation, GetTranslations, ClearTranslations,
     AddTranslator, DeleteTranslator, UpdateTranslator, GetTranslators, ApplyTranslators,
     GetRecentUsedLanguages, AddRecentUsedLanguage,
     Ping]

  /** The `ttsCount` entries spread from `ttsRequestHandlers`. */
  function TtsHandlers(ttsCount: nat): (r: seq<Factory>)
    ensures |r| == ttsCount
    ensures forall i :: 0 <= i < ttsCount ==> r[i] == TtsHandler(i)
  {
    seq(ttsCount, (i: nat) => TtsHandler(i))
  }

  /** `requestHandlers`, when `ttsRequestHandlers` has `ttsCount` entries. */
  function Handlers(ttsCount: nat): seq<Factory>
  {
    Leading + TtsHandlers(ttsCount) + Trailing
  }

  /** The five factories that manage custom translators. */
  predicate ManagesTranslators(f: Factory)
  {
    f.AddTranslator? || f.DeleteTranslator? || f.UpdateTranslator? || f.GetTranslators? || f.ApplyTranslators?
  }

  predicate Distinct(s: seq<Factory>)
  {
    forall i, j :: 0 <= i < j < |s| ==> s[i] != s[j]
  }

  /** The first position of `f` in `s`. */
  function IndexOf(s: seq<Factory>, f: Factory): (i: nat)
    requires f in s
    ensures i < |s| && s[i] == f
    ensures f !in s[..i]
  {
    if s[0] == f then 0 else
      assert s == [s[0]] + s[1..];
      1 + IndexOf(s[1..], f)
  }

  /** `pingFactory` is the last entry, and no other entry is `pingFactory`. */
  lemma PingIsLast(ttsCount: nat)
    ensures |Handlers(ttsCount)| == |Leading| + ttsCount + |Trailing|
    ensures Handlers(ttsCount)[|Handlers(ttsCount)| - 1] == Ping
    ensures forall i :: 0 <= i < |Handlers(ttsCount)| - 1 ==> Handlers(ttsCount)[i] != Ping
  {
    var h := Handlers(ttsCount);
    forall i | 0 <= i < |h| - 1
      ensures h[i] != Ping
    {
      if i < |Leading| {
        assert h[i] == Leading[i];
      } else if i < |Leading| + ttsCount {
        assert h[i] == TtsHandler(i - |Leading|);
      } else {
        assert h[i] == Trailing[i - |Leading| - ttsCount];
      }
    }
  }

  lemma {:induction false} TrailingDistinct()
    ensures Distinct(Trailing)
  {
    forall i, j | 0 <= i < j < |Trailing|
      ensures Trailing[i] != Trailing[j]
    {
    }
  }

  /** No factory appears twice in the list. */
  lemma HandlersDistinct(ttsCount: nat)
    ensures Distinct(Handlers(ttsCount))
  {
    var h := Handlers(ttsCount);
    var t := TtsHandlers(ttsCount);
    TrailingDistinct();
    forall i, j | 0 <= i < j < |h|
      ensures h[i] != h[j]
    {
      var a, b := |Leading|, |Leading| + ttsCount;
      if j < a {
        assert h[i] == Leading[i] && h[j] == Leading[j];
      } else if j < b {
        assert h[j] == t[j - a];
        if i < a { assert h[i] == Leading[i]; } else { assert h[i] == t[i - a]; }
      } else {
        assert h[j] == Trailing[j - b];
        if i < a {
          assert h[i] == Leading[i];
        } else if i < b {
          assert h[i] == t[i - a];
        } else {
          assert h[i] == Trailing[i - b];
        }
      }
    }
  }

  /** The five translator-management factories are all in the list, each before `pingFactory`. */
  lemma TranslatorManagementBeforePing(ttsCount: nat)
    ensures forall f :: ManagesTranslators(f) ==>
      f in Handlers(ttsCount) && IndexOf(Handlers(ttsCount), f) < IndexOf(Handlers(ttsCount), Ping)
  {
    var h := Handlers(ttsCount);
    var b := |Leading| + ttsCount;
    PingIsLast(ttsCount);
    assert h[|h| - 1] == Ping;
    assert IndexOf(h, Ping) == |h| - 1;
    forall f | ManagesTranslators(f)
      ensures f in h && IndexOf(h, f) < IndexOf(h, Ping)
    {
      assert h[b + 17] == AddTranslator && h[b + 18] == DeleteTranslator && h[b + 19] == UpdateTranslator;
      assert h[b + 20] == GetTranslators && h[b + 21] == ApplyTranslators;
      assert f in h;
    }
  }
}
