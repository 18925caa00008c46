/**
 * The installer task that removes every installed Kibana plugin while reporting
 * weighted progress. The installer session and the plugin provider are modelled
 * by the calls the task makes on them, recorded in order as a trace of events.
 */
module RemovePluginsTask {
  import opened Paths

  /** One call the task makes on the session or the plugin provider. */
  datatype Event =
    | Log(message: string)
    | ActionStart(totalTicks: int, actionName: string, description: string, template: string)
    | Progress(ticks: int, message: string)
    | Remove(weight: int, installDirectory: string, configDirectory: string, plugin: string, extraArgs: seq<string>)

  /** The progress weights of the three steps of one removal: before, during and after. */
  const TicksPerPlugin: seq<int> := [20, 1930, 50]

  function Sum(xs: seq<int>): int {
    if xs == [] then 0 else xs[0] + Sum(xs[1..])
  }

  /** The three calls made for one plugin. */
  function PluginEvents(plugin: string, installDirectory: string, configDirectory: string, configFile: string): seq<Event> {
    [ Progress(TicksPerPlugin[0], "removing " + plugin),
      Remove(TicksPerPlugin[1], installDirectory, configDirectory, plugin, ["--config", configFile]),
      Progress(TicksPerPlugin[2], "removed " + plugin) ]
  }

  /** The calls made by the loop over `plugins`. */
  function RemovalEvents(plugins: seq<string>, installDirectory: string, configDirectory: string, configFile: string): seq<Event>
    decreases |plugins|
  {
    if plugins == [] then []
    else RemovalEvents(plugins[..|plugins| - 1], installDirectory, configDirectory, configFile)
         + PluginEvents(plugins[|plugins| - 1], installDirectory, configDirectory, configFile)
  }

  /** The progress a trace accounts for: the ticks of its progress reports and the weights of its removals. */
  function Weight(trace: seq<Event>): int {
    if trace == [] then 0
    else
      (match trace[0]
       case Progress(ticks, _) => ticks
       case Remove(weight, _, _, _, _) => weight
       case _ => 0)
      + Weight(trace[1..])
  }

  /** The plugins a trace removes, in the order of the calls. */
  function RemovedPlugins(trace: seq<Event>): seq<string> {
    if trace == [] then []
    else (if trace[0].Remove? then [trace[0].plugin] else []) + RemovedPlugins(trace[1..])
  }

  /**
   * Removes the installed plugins. `plugins` is what the provider reports as
   * installed, and `removeSucceeds` what its Remove call returns for each plugin.
   * With no plugins only a log line is written; otherwise the total of
   * `|plugins| * 2000` ticks is announced once, then each plugin gets its three
   * calls, in order. The task succeeds whatever Remove returns.
   */
  method ExecuteTask(installDirectory: string, configDirectory: string, plugins: seq<string>,
                     actionName: string, removeSucceeds: string -> bool)
    returns (ok: bool, trace: seq<Event>)
    ensures ok
    ensures |plugins| == 0 ==> trace == [Log("No existing plugins to remove")]
    ensures |plugins| > 0 ==>
      && |trace| > 0
      && trace[0] == ActionStart(|plugins| * 2000, actionName, "Removing existing Kibana plugins", "Kibana plugin: [1]")
      && trace[1..] == RemovalEvents(plugins, installDirectory, configDirectory, Combine(configDirectory, "kibana.yml"))
  {
    var configFile := Combine(configDirectory, "kibana.yml");
    if |plugins| == 0 {
      trace := [Log("No existing plugins to remove")];
      return true, trace;
    }
    assert Sum(TicksPerPlugin) == 2000;
    var totalTicks := |plugins| * Sum(TicksPerPlugin);
    trace := [ActionStart(totalTicks, actionName, "Removing existing Kibana plugins", "Kibana plugin: [1]")];
    for i := 0 to |plugins|
      invariant |trace| >= 1 && trace[0] == ActionStart(totalTicks, actionName, "Removing existing Kibana plugins", "Kibana plugin: [1]")
      invariant trace[1..] == RemovalEvents(plugins[..i], installDirectory, configDirectory, configFile)
    {
      var plugin := plugins[i];
      assert plugins[..i + 1][..i] == plugins[..i];
      trace := trace + [Progress(TicksPerPlugin[0], "removing " + plugin)];
      // provider.Remove's result, which the task does not inspect
      var removed := removeSucceeds(plugin);
      trace := trace + [Remove(TicksPerPlugin[1], installDirectory, configDirectory, plugin, ["--config", configFile])];
      trace := trace + [Progress(TicksPerPlugin[2], "removed " + plugin)];
    }
    assert plugins[..|plugins|] == plugins;
    return true, trace;
  }

  lemma {:induction false} WeightAppend(a: seq<Event>, b: seq<Event>)
    ensures Weight(a + b) == Weight(a) + Weight(b)
  {
    if a != [] {
      assert (a + b)[1..] == a[1..] + b;
      WeightAppend(a[1..], b);
    } else {
      assert a + b == b;
    }
  }

  lemma {:induction false} RemovedPluginsAppend(a: seq<Event>, b: seq<Event>)
    ensures RemovedPlugins(a + b) == RemovedPlugins(a) + RemovedPlugins(b)
  {
    if a != [] {
      assert (a + b)[1..] == a[1..] + b;
      RemovedPluginsAppend(a[1..], b);
    } else {
      assert a + b == b;
    }
  }

  /** One plugin's calls account for 2000 ticks and remove that plugin alone. */
  lemma OnePlugin(plugin: string, installDirectory: string, configDirectory: string, configFile: string)
    ensures Weight(PluginEvents(plugin, installDirectory, configDirectory, configFile)) == 2000
    ensures RemovedPlugins(PluginEvents(plugin, installDirectory, configDirectory, configFile)) == [plugin]
  {
    var es := PluginEvents(plugin, installDirectory, configDirectory, configFile);
    assert es[1..][1..] == [es[2]] && [es[2]][1..] == [];
    assert Weight([es[2]]) == 50 && RemovedPlugins([es[2]]) == [];
    assert Weight(es[1..]) == 1930 + 50 && RemovedPlugins(es[1..]) == [plugin];
  }

  /** The progress reported and the removal weights add up to the announced total of 2000 per plugin. */
  lemma {:induction false} RemovalWeightIsAnnouncedTotal(plugins: seq<string>, installDirectory: string, configDirectory: string, configFile: string)
    ensures Weight(RemovalEvents(plugins, installDirectory, configDirectory, configFile)) == |plugins| * Sum(TicksPerPlugin) == |plugins| * 2000
  {
    assert Sum(TicksPerPlugin) == 2000;
    if plugins != [] {
      var init := plugins[..|plugins| - 1];
      RemovalWeightIsAnnouncedTotal(init, installDirectory, configDirectory, configFile);
      OnePlugin(plugins[|plugins| - 1], installDirectory, configDirectory, configFile);
      WeightAppend(RemovalEvents(init, installDirectory, configDirectory, configFile),
                   PluginEvents(plugins[|plugins| - 1], installDirectory, configDirectory, configFile));
    }
  }

  /** Remove is called exactly once per plugin, in the order the provider listed them. */
  lemma {:induction false} EachPluginRemovedOnce(plugins: seq<string>, installDirectory: string, configDirectory: string, configFile: string)
    ensures RemovedPlugins(RemovalEvents(plugins, installDirectory, configDirectory, configFile)) == plugins
  {
    if plugins != [] {
      var init := plugins[..|plugins| - 1];
      EachPluginRemovedOnce(init, installDirectory, configDirectory, configFile);
      OnePlugin(plugins[|plugins| - 1], installDirectory, configDirectory, configFile);
      RemovedPluginsAppend(RemovalEvents(init, installDirectory, configDirectory, configFile),
                           PluginEvents(plugins[|plugins| - 1], installDirectory, configDirectory, configFile));
      assert plugins == init + [plugins[|plugins| - 1]];
    }
  }

  /**
   * The loop's calls come in blocks of three, one block per plugin in order: a
   * 20-tick "removing" report, the Remove call, a 50-tick "removed" report.
   */
  lemma {:induction false} PluginBlock(plugins: seq<string>, k: nat, installDirectory: string, configDirectory: string, configFile: string)
    requires k < |plugins|
    ensures |RemovalEvents(plugins, installDirectory, configDirectory, configFile)| == 3 * |plugins|
    ensures RemovalEvents(plugins, installDirectory, configDirectory, configFile)[3 * k .. 3 * k + 3]
         == PluginEvents(plugins[k], installDirectory, configDirectory, configFile)
    decreases |plugins|
  {
    var init := plugins[..|plugins| - 1];
    if k < |init| {
      PluginBlock(init, k, installDirectory, configDirectory, configFile);
    } else if init != [] {
      PluginBlock(init, 0, installDirectory, configDirectory, configFile);
    }
  }

  /**
   * The loop only reports progress and calls Remove: no second announcement and no
   * log line; every Remove carries the weight 1930 and the arguments
   * `--config <configFile>`.
   */
  lemma {:induction false} RemovalEventKinds(plugins: seq<string>, installDirectory: string, configDirectory: string, configFile: string)
    ensures forall e | e in RemovalEvents(plugins, installDirectory, configDirectory, configFile) ::
      || e.Progress?
      || (e.Remove? && e.weight == 1930 && e.installDirectory == installDirectory
          && e.configDirectory == configDirectory && e.extraArgs == ["--config", configFile])
  {
    if plugins != [] {
      RemovalEventKinds(plugins[..|plugins| - 1], installDirectory, configDirectory, configFile);
    }
  }
}
