/** `ConfigManager` (`kpi_ofa/core/config_manager.py`): the configuration
    as nested JSON maps, its validation, and reading and writing one value
    by a dotted key. Whether a path exists and whether the file write
    succeeds are parameters. */
module Configuration {
  import opened PyText

  /** A JSON value as `json.load` gives it (numbers are integers here). */
  datatype Json = JNull | JBool(b: bool) | JNum(n: int) | JStr(s: string) | JList(items: seq<Json>) | JObj(fields: map<string, Json>)

  /** Python truthiness of a JSON value. */
  predicate Truthy(j: Json) {
    match j
    case JNull => false
    case JBool(b) => b
    case JNum(n) => n != 0
    case JStr(s) => s != ""
    case JList(items) => |items| > 0
    case JObj(fields) => |fields| > 0
  }

  /** `d.get(key, default)`. */
  function Get(d: map<string, Json>, key: string, default: Json): Json {
    if key in d then d[key] else default
  }

  /** `any(d.values())`. */
  predicate AnyTruthy(d: map<string, Json>) {
    exists k :: k in d && Truthy(d[k])
  }

  // ---------------------------------------------------------------------
  // validate_config

  /** The first rule a configuration breaks. */
  datatype Reason = NoSaveDirectory | SaveDirectoryMissing(dir: string) | NoOperation | NoTechnology | NoPrefix

  /** `(True, "")`, `(False, message)`, or an exception it does not catch
      (a value of the wrong JSON type under one of the three keys). */
  datatype Verdict = Valid | Invalid(reason: Reason) | Raises

  /** The message `validate_config` returns with `False`. */
  function Message(r: Reason): string {
    match r
    case NoSaveDirectory => "La directory di salvataggio non è specificata."
    case SaveDirectoryMissing(dir) => "La directory di salvataggio '" + dir + "' non esiste."
    case NoOperation => "È necessario selezionare almeno un'operazione da eseguire."
    case NoTechnology => "Non sono state configurate tecnologie."
    case NoPrefix => "È necessario specificare almeno un prefisso per una tecnologia."
  }

  /** The checks of `validate_config`, in its order. */
  function Validate(config: map<string, Json>, pathExists: string -> bool): Verdict {
    var saveDir := Get(config, "save_directory", JStr(""));
    if !Truthy(saveDir) then Invalid(NoSaveDirectory)
    else if !saveDir.JStr? then Raises
    else if !pathExists(saveDir.s) then Invalid(SaveDirectoryMissing(saveDir.s))
    else
      var operations := Get(config, "operations", JObj(map[]));
      if !operations.JObj? then Raises
      else if !AnyTruthy(operations.fields) then Invalid(NoOperation)
      else
        var technologies := Get(config, "technologies", JObj(map[]));
        if !Truthy(technologies) then Invalid(NoTechnology)
        else if !technologies.JObj? then Raises
        else if !AnyTruthy(technologies.fields) then Invalid(NoPrefix)
        else Valid
  }

  /** A configuration is valid exactly when it names an existing save
      directory, switches on some operation and gives some technology a
      prefix; each failure, and the exception of a value of the wrong type,
      comes exactly when the checks before it passed. */
  lemma ValidateCases(config: map<string, Json>, pathExists: string -> bool)
    ensures var dir := Get(config, "save_directory", JStr(""));
      var ops := Get(config, "operations", JObj(map[]));
      var techs := Get(config, "technologies", JObj(map[]));
      && (Validate(config, pathExists) == Valid <==>
            dir.JStr? && dir.s != "" && pathExists(dir.s) && ops.JObj? && AnyTruthy(ops.fields) &&
            techs.JObj? && AnyTruthy(techs.fields))
      && (Validate(config, pathExists) == Invalid(NoSaveDirectory) <==> !Truthy(dir))
      && (Validate(config, pathExists).Invalid? && Validate(config, pathExists).reason.SaveDirectoryMissing? <==>
            dir.JStr? && dir.s != "" && !pathExists(dir.s))
      && (Validate(config, pathExists) == Invalid(NoOperation) <==>
            dir.JStr? && dir.s != "" && pathExists(dir.s) && ops.JObj? && !AnyTruthy(ops.fields))
      && (Validate(config, pathExists) == Invalid(NoTechnology) <==>
            dir.JStr? && dir.s != "" && pathExists(dir.s) && ops.JObj? && AnyTruthy(ops.fields) && !Truthy(techs))
      && (Validate(config, pathExists) == Invalid(NoPrefix) <==>
            dir.JStr? && dir.s != "" && pathExists(dir.s) && ops.JObj? && AnyTruthy(ops.fields) &&
            techs.JObj? && techs.fields != map[] && !AnyTruthy(techs.fields))
      && (Validate(config, pathExists) == Raises <==>
            Truthy(dir) &&
            (!dir.JStr? || (pathExists(dir.s) && (!ops.JObj? || (AnyTruthy(ops.fields) && Truthy(techs) && !techs.JObj?)))))
  {
    var techs := Get(config, "technologies", JObj(map[]));
    if techs.JObj? && AnyTruthy(techs.fields) {
      var k :| k in techs.fields && Truthy(techs.fields[k]);
      assert k in techs.fields.Keys;
    }
  }

  // ---------------------------------------------------------------------
  // Dotted keys

  /** The value at a path, or `default` at the first segment that is
      missing or sits under a value that is not a map (where `in` or the
      subscript raises and the `except` returns `default`). */
  function Walk(current: Json, parts: seq<string>, default: Json): Json
    decreases |parts|
  {
    if |parts| == 0 then current
    else if current.JObj? && parts[0] in current.fields then Walk(current.fields[parts[0]], parts[1..], default)
    else default
  }

  /** `get_config_value(key, default)`. */
  function ConfigValue(config: map<string, Json>, key: string, default: Json): Json {
    if '.' in key then Walk(JObj(config), Split(key, '.'), default) else Get(config, key, default)
  }

  /** The loop of `update_config_value` on values: missing maps are created
      on the way, the last segment is set, and `None` is the `TypeError` a
      value that is not a map raises on the way. */
  function SetPath(current: Json, parts: seq<string>, value: Json): (r: Option<Json>)
    requires |parts| > 0
    ensures r.Some? ==> r.value.JObj? && current.JObj? && parts[0] in r.value.fields
    ensures r.Some? ==> forall k :: k != parts[0] ==>
      (k in r.value.fields <==> k in current.fields) && (k in current.fields ==> r.value.fields[k] == current.fields[k])
    decreases |parts|
  {
    if !current.JObj? then None
    else if |parts| == 1 then Some(JObj(current.fields[parts[0] := value]))
    else
      var child := if parts[0] in current.fields then current.fields[parts[0]] else JObj(map[]);
      match SetPath(child, parts[1..], value)
      case None => None
      case Some(c) => Some(JObj(current.fields[parts[0] := c]))
  }

  /** `new_config` after the assignments of `update_config_value`, or
      `None` when they raise. */
  function Updated(config: map<string, Json>, key: string, value: Json): (r: Option<map<string, Json>>)
    ensures r.Some? && '.' in key ==> Split(key, '.')[0] in r.value
  {
    if '.' !in key then Some(config[key := value])
    else
      match SetPath(JObj(config), Split(key, '.'), value)
      case None => None
      case Some(j) => Some(j.fields)
  }

  /** A path that runs into a value which is not a map. */
  predicate Blocked(current: Json, parts: seq<string>)
    decreases |parts|
  {
    !current.JObj? || (|parts| > 0 && parts[0] in current.fields && Blocked(current.fields[parts[0]], parts[1..]))
  }

  /** Setting a path reads it back. */
  lemma {:induction false} SetPathWalk(current: Json, parts: seq<string>, value: Json, default: Json)
    requires |parts| > 0 && SetPath(current, parts, value).Some?
    ensures Walk(SetPath(current, parts, value).value, parts, default) == value
    decreases |parts|
  {
    if |parts| > 1 {
      var child := if parts[0] in current.fields then current.fields[parts[0]] else JObj(map[]);
      SetPathWalk(child, parts[1..], value, default);
    }
  }

  /** Setting a path fails exactly when the path, up to its parent, runs
      into a value which is not a map. */
  lemma {:induction false} SetPathFails(current: Json, parts: seq<string>, value: Json)
    requires |parts| > 0
    ensures SetPath(current, parts, value).None? <==> Blocked(current, parts[..|parts| - 1])
    decreases |parts|
  {
    if current.JObj? && |parts| > 1 {
      var child := if parts[0] in current.fields then current.fields[parts[0]] else JObj(map[]);
      SetPathFails(child, parts[1..], value);
      assert parts[..|parts| - 1][1..] == parts[1..][..|parts[1..]| - 1];
      if parts[0] !in current.fields {
        FreshNeverBlocked(parts[1..][..|parts[1..]| - 1]);
      }
    }
  }

  /** A map made on the way is empty, so nothing under it blocks. */
  lemma FreshNeverBlocked(parts: seq<string>)
    ensures !Blocked(JObj(map[]), parts)
  {
  }

  /** After a successful update the key reads back the value. */
  lemma UpdateThenGet(config: map<string, Json>, key: string, value: Json, default: Json)
    requires Updated(config, key, value).Some?
    ensures ConfigValue(Updated(config, key, value).value, key, default) == value
  {
    if '.' in key {
      SetPathWalk(JObj(config), Split(key, '.'), value, default);
    }
  }

  /** An update touches one top-level entry: the key itself, or the first
      segment of a dotted key. */
  lemma UpdateOthers(config: map<string, Json>, key: string, value: Json, other: string)
    requires Updated(config, key, value).Some?
    requires other != (if '.' in key then Split(key, '.')[0] else key)
    ensures other in Updated(config, key, value).value <==> other in config
    ensures other in config ==> Updated(config, key, value).value[other] == config[other]
  {
  }

  /** An update fails exactly when its path runs into a value which is not
      a map; a key without a dot never fails. */
  lemma UpdateFails(config: map<string, Json>, key: string, value: Json)
    ensures '.' !in key ==> Updated(config, key, value).Some?
    ensures '.' in key ==>
      (Updated(config, key, value).None? <==> Blocked(JObj(config), Split(key, '.')[..|Split(key, '.')| - 1]))
  {
    if '.' in key {
      SetPathFails(JObj(config), Split(key, '.'), value);
    }
  }

  // ---------------------------------------------------------------------
  // Shallow copies, as written

  /** The state the shallow copies leave: the config, the module's
      `default_config`, and the top-level keys whose maps are the same
      objects in both. */
  datatype Store = Store(config: map<string, Json>, defaults: map<string, Json>, shared: set<string>)

  /** `reset_config` (and `_load_config` without a file):
      `self.config = self.default_config.copy()`, whatever the save gives. */
  function StoreReset(st: Store): (r: Store)
    ensures r.config == st.defaults && r.defaults == st.defaults
  {
    Store(st.defaults, st.defaults, st.defaults.Keys)
  }

  /** `update_config_value` as written: `new_config` is a shallow copy, so
      a dotted key whose first segment exists changes that map in place; it
      is also `self.config`'s, and `default_config`'s when shared, whether
      or not the save succeeds. */
  function StoreUpdate(st: Store, key: string, value: Json, saved: bool): (bool, Store) {
    match Updated(st.config, key, value)
    case None => (false, st)
    case Some(next) =>
      var dotted := '.' in key;
      var head := if dotted then Split(key, '.')[0] else key;
      var inPlace := dotted && head in st.config;
      var defaults := if inPlace && head in st.shared then st.defaults[head := next[head]] else st.defaults;
      if saved then (true, Store(next, defaults, if dotted then st.shared else st.shared - {key}))
      else (false, Store(if inPlace then st.config[head := next[head]] else st.config, defaults, st.shared))
  }

  lemma JoinPair(p: string, q: string)
    requires '.' !in p && '.' !in q
    ensures Split(p + "." + q, '.') == [p, q]
  {
    assert Join([p, q], ".") == p + "." + q by {
      assert Join([q], ".") == q;
    }
    assert [p, q][0] == p && [p, q][1] == q;
    SplitJoin([p, q], '.');
  }

  /** After loading or resetting to the defaults, setting `p.q` changes the
      defaults themselves: the change survives a later `reset_config`, and
      stays in memory when the save fails and the update reports `False`. */
  lemma ResetKeepsNestedUpdate(st: Store, p: string, q: string, value: Json, saved: bool)
    requires p in st.defaults && st.defaults[p].JObj? && '.' !in p && '.' !in q
    ensures var start := StoreReset(st);
      var (ok, next) := StoreUpdate(start, p + "." + q, value, saved);
      && ok == saved
      && ConfigValue(next.config, p + "." + q, JNull) == value
      && ConfigValue(StoreReset(next).config, p + "." + q, JNull) == value
  {
    var key := p + "." + q;
    JoinPair(p, q);
    assert '.' in key by { assert key[|p|] == '.'; }
    var inner := JObj(st.defaults[p].fields[q := value]);
    assert [p, q][1..] == [q];
    assert SetPath(st.defaults[p], [q], value) == Some(inner);
    assert SetPath(JObj(st.defaults), [p, q], value) == Some(JObj(st.defaults[p := inner]));
    var start := StoreReset(st);
    UpdateThenGet(start.config, key, value, JNull);
  }

  // ---------------------------------------------------------------------
  // Deep copies, as intended

  /** `update_config_value` with `new_config` a deep copy: the defaults
      never change, and nothing changes unless the save succeeds. */
  function FixedUpdate(st: Store, key: string, value: Json, saved: bool): (bool, Store) {
    match Updated(st.config, key, value)
    case None => (false, st)
    case Some(next) => if saved then (true, Store(next, st.defaults, {})) else (false, st)
  }

  /** With deep copies a failed update leaves everything as it was, a
      successful one sets the key, and a reset restores the defaults. */
  lemma FixedUpdateSpec(st: Store, key: string, value: Json, saved: bool)
    ensures var (ok, next) := FixedUpdate(st, key, value, saved);
      && (ok <==> saved && Updated(st.config, key, value).Some?)
      && (!ok ==> next == st)
      && (ok ==> ConfigValue(next.config, key, JNull) == value)
      && next.defaults == st.defaults
      && StoreReset(next).config == st.defaults
  {
    if Updated(st.config, key, value).Some? {
      UpdateThenGet(st.config, key, value, JNull);
    }
  }

  // ---------------------------------------------------------------------
  // The manager

  class ConfigManager {
    var config: map<string, Json>
    const defaults: map<string, Json>

    /** `__init__`: the file's configuration when `_load_config` could read
        one, otherwise (a copy of) the defaults. */
    constructor (loaded: Option<map<string, Json>>, defaults: map<string, Json>)
      ensures this.defaults == defaults
      ensures config == (if loaded.Some? then loaded.value else defaults)
    {
      this.defaults := defaults;
      config := if loaded.Some? then loaded.value else defaults;
    }

    /** `get_config`. */
    method GetConfig() returns (c: map<string, Json>)
      ensures c == config
    {
      c := config;
    }

    /** `save_config`: the memory follows the file only when the write
        succeeds. */
    method SaveConfig(newConfig: map<string, Json>, saved: bool) returns (ok: bool)
      modifies this
      ensures ok == saved
      ensures config == (if saved then newConfig else old(config))
    {
      if saved {
        config := newConfig;
      }
      ok := saved;
    }

    /** `reset_config`: the defaults are in memory even when the save
        fails. */
    method ResetConfig(saved: bool) returns (ok: bool)
      modifies this
      ensures ok == saved && config == defaults
    {
      config := defaults;
      ok := SaveConfig(config, saved);
    }

    /** `update_config_value`, with the copy deep. */
    method UpdateConfigValue(key: string, value: Json, saved: bool) returns (ok: bool)
      modifies this
      ensures ok <==> saved && Updated(old(config), key, value).Some?
      ensures config == (if ok then Updated(old(config), key, value).value else old(config))
    {
      var next := Updated(config, key, value);
      if next.None? {
        return false;
      }
      ok := SaveConfig(next.value, saved);
    }

    /** `get_config_value`: the loop over the segments of a dotted key. */
    method GetConfigValue(key: string, default: Json) returns (r: Json)
      ensures r == ConfigValue(config, key, default)
    {
      if '.' !in key {
        return Get(config, key, default);
      }
      var parts := Split(key, '.');
      var current := JObj(config);
      for i := 0 to |parts|
        invariant Walk(JObj(config), parts, default) == Walk(current, parts[i..], default)
      {
        assert parts[i..][1..] == parts[i + 1..];
        if !current.JObj? || parts[i] !in current.fields {
          return default;
        }
        current := current.fields[parts[i]];
      }
      assert parts[|parts|..] == [];
      r := current;
    }

    /** `validate_config(config)`: `None` checks the configuration in
        memory. The loop looks for a technology with prefixes. */
    method ValidateConfig(given: Option<map<string, Json>>, pathExists: string -> bool) returns (v: Verdict)
      ensures v == Validate(if given.Some? then given.value else config, pathExists)
    {
      var target := if given.Some? then given.value else config;
      var saveDir := Get(target, "save_directory", JStr(""));
      if !Truthy(saveDir) {
        return Invalid(NoSaveDirectory);
      }
      if !saveDir.JStr? {
        return Raises;
      }
      if !pathExists(saveDir.s) {
        return Invalid(SaveDirectoryMissing(saveDir.s));
      }
      var operations := Get(target, "operations", JObj(map[]));
      if !operations.JObj? {
        return Raises;
      }
      if !AnyTruthy(operations.fields) {
        return Invalid(NoOperation);
      }
      var technologies := Get(target, "technologies", JObj(map[]));
      if !Truthy(technologies) {
        return Invalid(NoTechnology);
      }
      if !technologies.JObj? {
        return Raises;
      }
      var techs := technologies.fields;
      var hasPrefixes := false;
      var left := techs.Keys;
      while left != {}
        invariant left <= techs.Keys && !hasPrefixes
        invariant forall k :: k in techs && k !in left ==> !Truthy(techs[k])
        decreases |left|
      {
        var tech :| tech in left;
        if Truthy(techs[tech]) {
          assert AnyTruthy(techs);
          hasPrefixes := true;
          break;
        }
        left := left - {tech};
      }
      if !hasPrefixes {
        return Invalid(NoPrefix);
      }
      v := Valid;
    }
  }
}
