/** The agent's configuration helper (app/cortex/_utils.py). */
module CortexUtils {
  import opened Wrappers
  import opened ODicts
  import Decimal

  /** The default `delay`, in seconds. */
  const DefaultDelay: int := 60

  /** A configuration value: the core stores texts (ids, model name) and the integer delay. */
  datatype ConfigValue = Text(s: string) | Int(i: int)

  /** `str(v)`, as the value is used when it is handed on as a name or an id. */
  function AsText(v: ConfigValue): string
  {
    match v
    case Text(s) => s
    case Int(i) => Decimal.ShowInt(i)
  }

  /** `configurable.get(key, default)`. */
  function Get(configurable: ODict<ConfigValue>, key: string, default: ConfigValue): ConfigValue
  {
    if key in configurable.vals then configurable.vals[key] else default
  }

  const GraphConfigKeys: set<string> := {"delay", "model", "thread_id", "user_id"}

  /** The `GraphConfig` dict built from `configurable`, in field order. */
  function GraphConfig(delay: ConfigValue, model: ConfigValue, threadId: ConfigValue, userId: ConfigValue)
    : (g: ODict<ConfigValue>)
    ensures Wf(g)
    ensures g.keys == ["delay", "model", "thread_id", "user_id"]
    ensures g.vals == map["delay" := delay, "model" := model, "thread_id" := threadId, "user_id" := userId]
  {
    ODict(["delay", "model", "thread_id", "user_id"],
          map["delay" := delay, "model" := model, "thread_id" := threadId, "user_id" := userId])
  }

  /** `ensure_configurable(config)`: `configurable` is `config.get("configurable", {})`
      (an empty dict when absent). The result keeps every configured entry and adds
      or overrides `delay`, `model`, `thread_id` and `user_id`; a missing thread or
      user id raises KeyError, the thread id first. `defaultModel` is the settings'
      model name. */
  function EnsureConfigurable(configurable: ODict<ConfigValue>, defaultModel: string): (r: Result<ODict<ConfigValue>>)
    requires Wf(configurable)
    ensures r.Ok? <==> "thread_id" in configurable.vals && "user_id" in configurable.vals
    ensures "thread_id" !in configurable.vals ==> r == Err(KeyError("thread_id"))
    ensures "thread_id" in configurable.vals && "user_id" !in configurable.vals ==> r == Err(KeyError("user_id"))
    ensures r.Ok? ==>
              && Wf(r.value)
              && "thread_id" in r.value.vals && "user_id" in r.value.vals
              && r.value.vals["thread_id"] == configurable.vals["thread_id"]
              && r.value.vals["user_id"] == configurable.vals["user_id"]
  {
    var delay := Get(configurable, "delay", Int(DefaultDelay));
    var model := Get(configurable, "model", Text(defaultModel));
    if "thread_id" !in configurable.vals then Err(KeyError("thread_id"))
    else if "user_id" !in configurable.vals then Err(KeyError("user_id"))
    else
      var g := GraphConfig(delay, model, configurable.vals["thread_id"], configurable.vals["user_id"]);
      var merged := Update(configurable, g);
      assert merged.vals["thread_id"] == g.vals["thread_id"];
      assert merged.vals["user_id"] == g.vals["user_id"];
      Ok(merged)
  }

  /** The completed configuration: `delay` defaults to 60 and `model` to the settings'
      model, and the four fields join the keys in field order. */
  lemma EnsureConfigurableFields(configurable: ODict<ConfigValue>, defaultModel: string)
    requires Wf(configurable) && EnsureConfigurable(configurable, defaultModel).Ok?
    ensures var r := EnsureConfigurable(configurable, defaultModel).value;
            && r.keys == AddKeys(configurable.keys, ["delay", "model", "thread_id", "user_id"])
            && "delay" in r.vals && "model" in r.vals
            && r.vals["delay"] == Get(configurable, "delay", Int(DefaultDelay))
            && r.vals["model"] == Get(configurable, "model", Text(defaultModel))
  {
    var delay := Get(configurable, "delay", Int(DefaultDelay));
    var model := Get(configurable, "model", Text(defaultModel));
    var g := GraphConfig(delay, model, configurable.vals["thread_id"], configurable.vals["user_id"]);
    UpdateGraphConfig(configurable, g);
    EnsureConfigurableIs(configurable, defaultModel);
  }

  lemma EnsureConfigurableIs(configurable: ODict<ConfigValue>, defaultModel: string)
    requires Wf(configurable) && "thread_id" in configurable.vals && "user_id" in configurable.vals
    ensures EnsureConfigurable(configurable, defaultModel)
              == Ok(Update(configurable, GraphConfig(Get(configurable, "delay", Int(DefaultDelay)),
                                                     Get(configurable, "model", Text(defaultModel)),
                                                     configurable.vals["thread_id"], configurable.vals["user_id"])))
  {
  }

  /** Merging a `GraphConfig` appends its four keys and sets its four values. */
  lemma UpdateGraphConfig(configurable: ODict<ConfigValue>, g: ODict<ConfigValue>)
    requires Wf(configurable) && Wf(g) && g.keys == ["delay", "model", "thread_id", "user_id"]
    ensures var r := Update(configurable, g);
            && r.keys == AddKeys(configurable.keys, ["delay", "model", "thread_id", "user_id"])
            && forall k :: k in g.vals ==> k in r.vals && r.vals[k] == g.vals[k]
  {
  }

  /** Besides the four fields, the completed configuration has exactly the configured
      entries, with their values. */
  lemma EnsureConfigurableKeeps(configurable: ODict<ConfigValue>, defaultModel: string)
    requires Wf(configurable) && EnsureConfigurable(configurable, defaultModel).Ok?
    ensures var r := EnsureConfigurable(configurable, defaultModel).value;
            && (forall k :: k in r.vals <==> k in configurable.vals || k in GraphConfigKeys)
            && (forall k :: k in configurable.vals && k !in GraphConfigKeys ==> r.vals[k] == configurable.vals[k])
  {
    var delay := Get(configurable, "delay", Int(DefaultDelay));
    var model := Get(configurable, "model", Text(defaultModel));
    var g := GraphConfig(delay, model, configurable.vals["thread_id"], configurable.vals["user_id"]);
    assert EnsureConfigurable(configurable, defaultModel).value == Update(configurable, g);
    assert g.vals.Keys == GraphConfigKeys;
  }

  /** Applying it twice changes nothing more: the fields it sets are already present. */
  lemma EnsureConfigurableIdempotent(configurable: ODict<ConfigValue>, defaultModel: string)
    requires Wf(configurable) && EnsureConfigurable(configurable, defaultModel).Ok?
    ensures var once := EnsureConfigurable(configurable, defaultModel).value;
            EnsureConfigurable(once, defaultModel) == Ok(once)
  {
    var once := EnsureConfigurable(configurable, defaultModel).value;
    EnsureConfigurableFields(configurable, defaultModel);
    var g := GraphConfig(once.vals["delay"], once.vals["model"], once.vals["thread_id"], once.vals["user_id"]);
    assert EnsureConfigurable(once, defaultModel) == Ok(Update(once, g));
    UpdateSubsumed(once, g);
  }
}
