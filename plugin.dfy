/** The plugin registry (src/catalyst/core/plugin.ts). A plugin's startup
    function is foreign code; what it does to the registry is loading other
    plugins through `require`, so it is modelled as the list of ids it
    requires, in order. The global and the per-plugin event managers are
    those of module Events. */
module Plugin {
  import opened Base
  import opened Events

  /** The `exports` object of a plugin: only its identity is modelled. */
  class Exports {
    constructor()
    {
    }
  }

  /** The `ReferenceError` thrown for an unregistered id. */
  function NotFound(id: string): string {
    "Plugin \"" + id + "\" not found"
  }

  /** The global listeners `after` a load are those of `before` less some
      `pluginLoaded` listeners registered with `once`: a load dispatches no
      other event. */
  predicate OnlyLoadedOnceRemoved(before: seq<Listener>, after: seq<Listener>) {
    && (forall l :: l in after ==> l in before)
    && (forall l :: l in before && !(l.event == "pluginLoaded" && l.once) ==> l in after)
  }

  lemma RemovedTrans(a: seq<Listener>, b: seq<Listener>, c: seq<Listener>)
    requires OnlyLoadedOnceRemoved(a, b) && OnlyLoadedOnceRemoved(b, c)
    ensures OnlyLoadedOnceRemoved(a, c)
  {
  }

  /** No `once` listener of `pluginLoaded` is left: the event has fired. */
  predicate LoadedFired(ls: seq<Listener>) {
    forall k :: 0 <= k < |ls| ==> !(ls[k].event == "pluginLoaded" && ls[k].once)
  }

  class Plugin {
    const id: string
    /** The startup function: the ids it loads through `require`, in order. */
    const required: seq<string>
    /** A plugin is an event manager of its own (its `pluginUnload` event). */
    const events: EventManager
    var isActive: bool
    /** Undefined until the plugin is first loaded. */
    var exports: Option<Exports>
    /** How often the startup function has run. */
    ghost var runs: nat

    /** `new Plugin(id, fn)`: an inactive plugin, registered under its id in
        place of any earlier one, announced by `pluginRegistered`. */
    constructor(id: string, required: seq<string>, registry: Registry)
      requires registry.Valid()
      modifies registry, registry.events
      ensures this.id == id && this.required == required
      ensures !isActive && exports.None? && runs == 0 && fresh(events) && events.listeners == []
      ensures registry.plugins == old(registry.plugins)[id := this]
      ensures registry.events.listeners == Keep(old(registry.events.listeners), "pluginRegistered")
      ensures registry.Valid()
    {
      this.id := id;
      this.required := required;
      events := new EventManager();
      isActive := false;
      exports := None;
      runs := 0;
      new;
      registry.plugins := registry.plugins[id := this];
      var _ := registry.events.DispatchEvent("pluginRegistered");
    }
  }

  class Registry {
    var plugins: map<string, Plugin>
    /** The global event manager. */
    const events: EventManager

    constructor()
      ensures plugins == map[] && fresh(events) && Valid()
    {
      plugins := map[];
      events := new EventManager();
    }

    /** An active plugin has exports, and no plugin's own event manager is
        the global one. */
    ghost predicate Valid()
      reads this, plugins.Values
    {
      forall p :: p in plugins.Values ==> (p.isActive ==> p.exports.Some?) && p.events != events
    }

    /** The ids of the registered plugins not yet loaded. */
    ghost function Inactive(): set<string>
      reads this, plugins.Values
    {
      set id | id in plugins && !plugins[id].isActive
    }

    /** `loadPlugin`: an unknown id throws and changes nothing. An active
        plugin's exports are returned as they are. An inactive plugin is
        marked active and given new exports before its startup function
        runs, so a `require` of itself during startup does not run it again;
        `pluginLoaded` is announced once startup returns. An error from a
        required plugin propagates, with the plugin left active. No plugin
        is deactivated, and each startup function runs exactly when its
        plugin becomes active. */
    method LoadPlugin(id: string) returns (r: Result<Exports, string>)
      requires Valid()
      modifies plugins.Values, events
      ensures Valid() && plugins == old(plugins)
      ensures id !in plugins ==> r == Err(NotFound(id)) && unchanged(plugins.Values) && unchanged(events)
      ensures id in plugins ==> plugins[id].isActive
      ensures id in plugins && old(plugins[id].isActive) ==>
        r == Ok(old(plugins[id].exports).value) && unchanged(plugins.Values) && unchanged(events)
      ensures id in plugins && !old(plugins[id].isActive) ==>
        plugins[id].exports.Some? && fresh(plugins[id].exports.value)
        && (r.Ok? ==> r.value == plugins[id].exports.value)
      ensures id in plugins && !old(plugins[id].isActive) && plugins[id].required == [] ==>
        r.Ok? && events.listeners == Keep(old(events.listeners), "pluginLoaded")
      ensures id in plugins && !old(plugins[id].isActive) && r.Ok? ==>
        && LoadedFired(events.listeners)
        && forall x :: x in plugins[id].required ==> x in plugins && plugins[x].isActive
      ensures OnlyLoadedOnceRemoved(old(events.listeners), events.listeners)
      ensures forall p :: p in plugins.Values && old(p.isActive) ==> p.isActive && p.exports == old(p.exports)
      ensures forall p :: p in plugins.Values ==> p.runs == old(p.runs) + if !old(p.isActive) && p.isActive then 1 else 0
      decreases |Inactive()|, 3, 0
    {
      if id !in plugins {
        return Err(NotFound(id));
      }
      var plg := plugins[id];
      if plg.isActive {
        return Ok(plg.exports.value);
      }
      r := Activate(plg);
    }

    /** The load of an inactive plugin: active and with new exports before
        its startup function runs, announced once startup returns. */
    method Activate(plg: Plugin) returns (r: Result<Exports, string>)
      requires Valid() && plg in plugins.Values && !plg.isActive
      modifies plugins.Values, events
      ensures Valid() && plugins == old(plugins)
      ensures plg.isActive && plg.exports.Some? && fresh(plg.exports.value)
      ensures r.Ok? ==> r.value == plg.exports.value
      ensures plg.required == [] ==> r.Ok? && events.listeners == Keep(old(events.listeners), "pluginLoaded")
      ensures r.Ok? ==>
        && LoadedFired(events.listeners)
        && forall x :: x in plg.required ==> x in plugins && plugins[x].isActive
      ensures OnlyLoadedOnceRemoved(old(events.listeners), events.listeners)
      ensures forall p :: p in plugins.Values && old(p.isActive) ==> p.isActive && p.exports == old(p.exports)
      ensures forall p :: p in plugins.Values ==> p.runs == old(p.runs) + if !old(p.isActive) && p.isActive then 1 else 0
      decreases |Inactive()|, 2, 0
    {
      ghost var before := Inactive();
      var exports := MarkActive(plg);
      var started := RunStartup(plg, exports, before, 0);
      assert plg.required[0..] == plg.required;
      if started.Err? {
        return Err(started.error);
      }
      var _ := events.DispatchEvent("pluginLoaded");
      return Ok(exports);
    }

    /** The first step of a load: the plugin is active with new exports,
        and its startup function is counted as run. */
    method MarkActive(plg: Plugin) returns (exports: Exports)
      requires Valid() && plg in plugins.Values && !plg.isActive
      modifies plg
      ensures Valid() && fresh(exports)
      ensures plg.isActive && plg.exports == Some(exports) && plg.runs == old(plg.runs) + 1
      ensures Inactive() < old(Inactive())
    {
      ghost var before := Inactive();
      plg.isActive := true;
      exports := new Exports();
      plg.exports := Some(exports);
      plg.runs := plg.runs + 1;
      assert forall x :: x in Inactive() ==> x in before;
      assert exists x :: x in before && x !in Inactive() && plugins[x] == plg;
    }

    /** The startup function of a plugin just marked active, from its `i`-th
        `require` call on: each required id is loaded in turn, and the first
        error ends it. */
    method RunStartup(plg: Plugin, exports: Exports, ghost bound: set<string>, i: nat) returns (r: Result<(), string>)
      requires Valid() && plg in plugins.Values && plg.isActive && plg.exports == Some(exports)
      requires Inactive() < bound && i <= |plg.required|
      modifies plugins.Values, events
      ensures Valid() && plugins == old(plugins)
      ensures plg.isActive && plg.exports == Some(exports)
      ensures forall p :: p in plugins.Values && old(p.isActive) ==> p.isActive && p.exports == old(p.exports)
      ensures forall p :: p in plugins.Values ==> p.runs == old(p.runs) + if !old(p.isActive) && p.isActive then 1 else 0
      ensures i == |plg.required| ==> r.Ok? && events.listeners == old(events.listeners)
      ensures r.Ok? ==> forall x :: x in plg.required[i..] ==> x in plugins && plugins[x].isActive
      ensures OnlyLoadedOnceRemoved(old(events.listeners), events.listeners)
      decreases |bound|, 1, |plg.required| - i
    {
      if i == |plg.required| {
        return Ok(());
      }
      var loaded := Require(plg, exports, bound, i);
      if loaded.Err? {
        return Err(loaded.error);
      }
      ghost var id := plg.required[i];
      assert plugins[id].isActive;
      ghost var heard := events.listeners;
      r := RunStartup(plg, exports, bound, i + 1);
      RemovedTrans(old(events.listeners), heard, events.listeners);
      assert plugins[id] in plugins.Values;
      assert plg.required[i..] == [id] + plg.required[i + 1..];
    }

    /** One `require` call of a startup function: its `i`-th required id
        is loaded. No plugin becomes inactive, and on success that id is
        registered and active. */
    method Require(plg: Plugin, exports: Exports, ghost bound: set<string>, i: nat) returns (loaded: Result<Exports, string>)
      requires Valid() && plg in plugins.Values && plg.isActive && plg.exports == Some(exports)
      requires Inactive() < bound && i < |plg.required|
      modifies plugins.Values, events
      ensures Valid() && plugins == old(plugins)
      ensures plg.isActive && plg.exports == Some(exports)
      ensures Inactive() <= old(Inactive())
      ensures loaded.Ok? ==> plg.required[i] in plugins && plg.required[i] !in Inactive()
      ensures OnlyLoadedOnceRemoved(old(events.listeners), events.listeners)
      ensures forall p :: p in plugins.Values && old(p.isActive) ==> p.isActive && p.exports == old(p.exports)
      ensures forall p :: p in plugins.Values ==> p.runs == old(p.runs) + if !old(p.isActive) && p.isActive then 1 else 0
      decreases |bound|, 0, 0
    {
      SmallerSet(Inactive(), bound);
      ghost var current := Inactive();
      loaded := LoadPlugin(plg.required[i]);
      assert forall x :: x in Inactive() ==> x in current;
    }

    /** `unloadPlugin`: an unknown id changes nothing; otherwise the plugin
        is inactive with new, empty exports, and `pluginUnload` (on the
        plugin) and `pluginUnloaded` (globally) are announced. */
    method UnloadPlugin(id: string)
      requires Valid()
      modifies if id in plugins then {plugins[id], plugins[id].events} else {}, events
      ensures Valid() && plugins == old(plugins)
      ensures id !in plugins ==> unchanged(events)
      ensures id in plugins ==>
        && !plugins[id].isActive && plugins[id].exports.Some? && fresh(plugins[id].exports.value)
        && plugins[id].runs == old(plugins[id].runs)
        && plugins[id].events.listeners == Keep(old(plugins[id].events.listeners), "pluginUnload")
        && events.listeners == Keep(old(events.listeners), "pluginUnloaded")
    {
      if id !in plugins {
        return;
      }
      var plg := plugins[id];
      plg.isActive := false;
      var exports := new Exports();
      plg.exports := Some(exports);
      var _ := plg.events.DispatchEvent("pluginUnload");
      var _ := events.DispatchEvent("pluginUnloaded");
    }
  }

  /** A proper subset is smaller. */
  lemma SmallerSet(a: set<string>, b: set<string>)
    requires a < b
    ensures |a| < |b|
  {
    assert b == a + (b - a);
    assert |b| == |a| + |b - a|;
    assert b - a != {};
  }
}
