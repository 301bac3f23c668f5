/**
 * The pending-edit bookkeeping of the options page
 * (src/pages/options/layout/OptionsPage.tsx): the page keeps a sparse map
 * from option path to edited value holding only values that differ from the
 * saved configuration, and a map from option path to validation error; both
 * are `null` when empty. The saved configuration is seen as a map from option
 * path to value; `V` stands for the option values, compared structurally.
 */
module Options {
  import opened Wrappers

  /** A map that is `null` when there is nothing in it. */
  type Nullable<V> = Option<map<string, V>>

  /** Validation errors by option path. */
  type Errors = Nullable<string>

  /** lodash `get(m, path)` on a map keyed by the full path: absent when `m` is null or lacks `path`. */
  function Get<V>(m: Nullable<V>, path: string): (r: Option<V>)
    ensures r.Some? <==> m.Some? && path in m.value
    ensures r.Some? ==> r.value == m.value[path]
  {
    if m.Some? && path in m.value then Some(m.value[path]) else None
  }

  /** The entries of a nullable map, none for `null`. */
  function Entries<V>(m: Nullable<V>): (r: map<string, V>)
    ensures m.Some? ==> r == m.value
    ensures m.None? ==> r == map[]
  {
    if m.Some? then m.value else map[]
  }

  /** An empty map is stored as `null`, never as `{}`. */
  function Normalize<V>(m: map<string, V>): (r: Nullable<V>)
    ensures r != Some(map[])
    ensures Entries(r) == m
  {
    if |m| == 0 then None else Some(m)
  }

  /**
   * The pending map after setting `path` to `value`: the old entries at other
   * paths that still differ from the saved configuration, plus `value` at
   * `path` unless `value` is the saved value there.
   */
  function PendingAfterEdit<V(==)>(config: Nullable<V>, pending: Nullable<V>, path: string, value: V): Nullable<V>
  {
    var kept := StillDiffering(config, Entries(pending)) - {path};
    Normalize(if Get(config, path) == Some(value) then kept else kept[path := value])
  }

  /** The entries of `edits` whose value is not the saved one. */
  function StillDiffering<V(==)>(config: Nullable<V>, edits: map<string, V>): map<string, V>
  {
    map p | p in edits && Get(config, p) != Some(edits[p]) :: edits[p]
  }

  /** The error map after editing `path`: its error is dropped, and an emptied map becomes `null`. */
  function ErrorsAfterEdit(errors: Errors, path: string): Errors
  {
    if errors.Some? && path in errors.value then Normalize(errors.value - {path}) else errors
  }

  /** The copy loop of `setOptionValue`: keep the entries that still differ from the saved configuration. */
  method CopyStillDiffering<V(==)>(config: Nullable<V>, modifiedConfig: Nullable<V>) returns (local: map<string, V>)
    ensures local == StillDiffering(config, Entries(modifiedConfig))
  {
    var edits := Entries(modifiedConfig);
    local := map[];
    var todo := edits.Keys;
    while todo != {}
      invariant todo <= edits.Keys
      invariant forall p :: p in local <==> p in edits && p !in todo && Get(config, p) != Some(edits[p])
      invariant forall p :: p in local ==> local[p] == edits[p]
      decreases todo
    {
      var path :| path in todo;
      var configItem := Get(config, path);
      if configItem != Some(edits[path]) {
        local := local[path := edits[path]];
      }
      todo := todo - {path};
    }
  }

  /**
   * The computation inside `setOptionValue`: copy the pending entries that
   * still differ from the saved configuration, then set or delete `inputPath`
   * unless the pending map already holds `value` there, then store an empty
   * result as `null`.
   */
  method EditPending<V(==)>(config: Nullable<V>, modifiedConfig: Nullable<V>, inputPath: string, value: V)
    returns (modifiedConfigLocal: Nullable<V>)
    ensures modifiedConfigLocal == PendingAfterEdit(config, modifiedConfig, inputPath, value)
  {
    var local := CopyStillDiffering(config, modifiedConfig);

    var modConfigItem := Get(modifiedConfig, inputPath);
    if modConfigItem != Some(value) {
      var configItem := Get(config, inputPath);
      if configItem == Some(value) {
        local := local - {inputPath};
      } else {
        local := local[inputPath := value];
      }
    }

    modifiedConfigLocal := if |local| == 0 then None else Some(local);
    PendingAfterEditCases(config, modifiedConfig, inputPath, value);
  }

  /**
   * The branches `setOptionValue` takes give the declarative pending map:
   * nothing is set or deleted when the pending map already holds `value`,
   * `path` is deleted when `value` is the saved value, and set otherwise.
   */
  lemma PendingAfterEditCases<V>(config: Nullable<V>, pending: Nullable<V>, path: string, value: V)
    ensures var copied := StillDiffering(config, Entries(pending));
      var local :=
        if Get(pending, path) == Some(value) then copied
        else if Get(config, path) == Some(value) then copied - {path}
        else copied[path := value];
      PendingAfterEdit(config, pending, path, value) == if |local| == 0 then None else Some(local)
  {
    var copied := StillDiffering(config, Entries(pending));
    var kept := copied - {path};
    if Get(pending, path) == Some(value) {
      UnchangedEditKeepsPending(config, Entries(pending), path, value);
    } else if Get(config, path) != Some(value) {
      assert copied[path := value] == kept[path := value];
    }
  }

  /**
   * When the pending map already holds `value` at `path`, leaving the copied
   * entries as they are gives the same map as setting or deleting `path`.
   */
  lemma UnchangedEditKeepsPending<V>(config: Nullable<V>, edits: map<string, V>, path: string, value: V)
    requires path in edits && edits[path] == value
    ensures var kept := StillDiffering(config, edits) - {path};
      StillDiffering(config, edits) == if Get(config, path) == Some(value) then kept else kept[path := value]
  {
    var all := StillDiffering(config, edits);
    var kept := all - {path};
    if Get(config, path) == Some(value) {
      assert path !in all;
      assert all == kept;
    } else {
      assert path in all && all[path] == value;
      assert all == kept[path := value];
    }
  }

  /** After an edit, every pending entry differs from the saved value at its path. */
  lemma PendingDiffersFromSaved<V>(config: Nullable<V>, pending: Nullable<V>, path: string, value: V)
    ensures var edits := Entries(PendingAfterEdit(config, pending, path, value));
      forall p :: p in edits ==> Get(config, p) != Some(edits[p])
  {
  }

  /**
   * Setting a path to its saved value removes it from the pending map;
   * setting it to another value records that value.
   */
  lemma EditedPathRecordedIffDiffers<V>(config: Nullable<V>, pending: Nullable<V>, path: string, value: V)
    ensures var edits := Entries(PendingAfterEdit(config, pending, path, value));
      && (Get(config, path) == Some(value) ==> path !in edits)
      && (Get(config, path) != Some(value) ==> path in edits && edits[path] == value)
  {
  }

  /**
   * Entries at other paths survive exactly when they still differ from the
   * saved configuration, and keep their values.
   */
  lemma OtherPathsKept<V>(config: Nullable<V>, pending: Nullable<V>, path: string, value: V)
    ensures var before := Entries(pending);
      var after := Entries(PendingAfterEdit(config, pending, path, value));
      forall p :: p != path ==>
        && (p in after <==> p in before && Get(config, p) != Some(before[p]))
        && (p in after ==> after[p] == before[p])
  {
  }

  /**
   * The pending map is `null` exactly when no edit remains: the edited value
   * is the saved one and no other entry still differs (the page's edit mode).
   */
  lemma PendingNullIffNoEdits<V>(config: Nullable<V>, pending: Nullable<V>, path: string, value: V)
    ensures var before := Entries(pending);
      PendingAfterEdit(config, pending, path, value).None? <==>
        && Get(config, path) == Some(value)
        && forall p :: p in before && p != path ==> Get(config, p) == Some(before[p])
  {
    var before := Entries(pending);
    var after := PendingAfterEdit(config, pending, path, value);
    if after.None? {
      forall p | p in before && p != path
        ensures Get(config, p) == Some(before[p])
      {
        OtherPathsKept(config, pending, path, value);
      }
      EditedPathRecordedIffDiffers(config, pending, path, value);
    } else {
      assert Entries(after) != map[];
      var q :| q in Entries(after);
      OtherPathsKept(config, pending, path, value);
    }
  }

  /** Setting the same path to the same value twice gives the pending map of setting it once. */
  lemma EditIsIdempotent<V>(config: Nullable<V>, pending: Nullable<V>, path: string, value: V)
    ensures var once := PendingAfterEdit(config, pending, path, value);
      PendingAfterEdit(config, once, path, value) == once
  {
    var once := PendingAfterEdit(config, pending, path, value);
    var kept := StillDiffering(config, Entries(pending)) - {path};
    var m1 := Entries(once);
    assert StillDiffering(config, m1) - {path} == kept;
    if Get(config, path) == Some(value) {
      assert m1 == kept;
    } else {
      assert m1 == kept[path := value];
    }
  }

  /**
   * Editing a path drops its error and leaves every other error as it was;
   * if the path had an error, an error map left empty becomes `null`.
   */
  lemma ErrorsAfterEditDropsOnlyPath(errors: Errors, path: string)
    ensures var after := ErrorsAfterEdit(errors, path);
      && path !in Entries(after)
      && (forall p :: p != path ==> (p in Entries(after) <==> p in Entries(errors)))
      && (forall p :: p in Entries(after) ==> Entries(after)[p] == Entries(errors)[p])
      && (path in Entries(errors) ==> after != Some(map[]))
  {
  }

  /** What `updateConfig` answered to a save, and the configuration fetched afterwards. */
  datatype SaveReply<V> =
    | Saved(config: map<string, V>)
    | Rejected(errors: Errors)
    | RequestFailed

  /** The options page's editing state. */
  class OptionsPage<V(==)> {
    /** The saved configuration, `undefined` until loaded. */
    var config: Nullable<V>
    /** The pending edits. */
    var modifiedConfig: Nullable<V>
    var errors: Errors

    constructor ()
      ensures config == None && modifiedConfig == None && errors == None
    {
      config := None;
      modifiedConfig := None;
      errors := None;
    }

    /** `setOptionValue`: records or drops the edit, and drops that path's error. */
    method SetOptionValue(inputPath: string, value: V)
      modifies this`modifiedConfig, this`errors
      ensures modifiedConfig == PendingAfterEdit(config, old(modifiedConfig), inputPath, value)
      ensures errors == ErrorsAfterEdit(old(errors), inputPath)
    {
      var modifiedConfigLocal := EditPending(config, modifiedConfig, inputPath, value);
      modifiedConfig := modifiedConfigLocal;

      if errors.Some? && inputPath in errors.value {
        var errorsLocal := errors.value - {inputPath};
        errors := if |errorsLocal| == 0 then None else Some(errorsLocal);
      }
    }

    /** `cancelChanges`: drops every pending edit and every error. */
    method CancelChanges()
      modifies this`modifiedConfig, this`errors
      ensures modifiedConfig == None && errors == None
    {
      modifiedConfig := None;
      errors := None;
    }

    /**
     * `saveChanges`: with no pending edits nothing is sent and nothing
     * changes. Otherwise the pending map is sent; a rejection keeps it and
     * stores the returned errors, a success reloads the configuration and
     * clears both maps, and a failed request changes nothing.
     */
    method SaveChanges(reply: SaveReply<V>) returns (sent: Nullable<V>)
      modifies this`config, this`modifiedConfig, this`errors
      ensures sent == old(modifiedConfig)
      ensures old(modifiedConfig).None? || reply.RequestFailed? ==>
        config == old(config) && modifiedConfig == old(modifiedConfig) && errors == old(errors)
      ensures old(modifiedConfig).Some? && reply.Rejected? ==>
        config == old(config) && modifiedConfig == old(modifiedConfig) && errors == reply.errors
      ensures old(modifiedConfig).Some? && reply.Saved? ==>
        config == Some(reply.config) && modifiedConfig == None && errors == None
    {
      sent := modifiedConfig;
      if modifiedConfig.None? {
        return;
      }
      match reply
      case Rejected(returned) =>
        errors := returned;
      case Saved(latest) =>
        config := Some(latest);
        modifiedConfig := None;
        errors := None;
      case RequestFailed =>
    }
  }
}
