/**
 * The bakery files function of the yum plugin that goes with the
 * `{'interval': seconds}` rule value. It yields at most one plugin file and
 * catches the conversion errors of `int()` itself, so a run of it is an optional
 * plugin.
 */
module IntervalBakery {
  import opened Python
  import opened BakeryApi
  import IntervalRuleset

  /**
   * `get_yum_files` as written. Without a `deploy` entry the plugin is deployed
   * only when `interval` holds a dictionary, whose `int()` always fails, so that
   * plugin never carries an interval; a `deploy` dictionary deploys with its
   * optional interval; a configuration that is not a dictionary, or whose
   * `deploy` is anything else, deploys nothing.
   */
  function YumFiles(conf: Value): (r: Option<Plugin>)
    ensures !conf.Dict? ==> r == None
    ensures r.Some? <==>
      && conf.Dict?
      && (Get(conf.entries, "deploy").Dict? || (Get(conf.entries, "deploy") == NoneV && Get(conf.entries, "interval").Dict?))
    ensures r.Some? ==> r.value.baseOs == Linux && r.value.source == "yum"
    ensures conf.Dict? && Get(conf.entries, "deploy").Dict? ==>
      r == Some(YumPlugin(IntOrNone(Get(Get(conf.entries, "deploy").entries, "interval"))))
    ensures conf.Dict? && Get(conf.entries, "deploy") == NoneV && r.Some? ==> r.value.interval == None
  {
    if conf.Dict? then
      var m := conf.entries;
      var deploy := Get(m, "deploy");
      if deploy == NoneV then
        if Get(m, "interval").Dict? then Some(YumPlugin(IntOrNone(Get(m, "interval")))) else None
      else if deploy.Dict? then
        Some(YumPlugin(IntOrNone(Get(deploy.entries, "interval"))))
      else
        None
    else
      None
  }

  /**
   * `get_yum_files` reading the rule value its form stores: an `interval` that is
   * present deploys the plugin with `int()` of it.
   */
  function YumFilesIntended(conf: Value): (r: Option<Plugin>)
    ensures conf.Dict? && Get(conf.entries, "deploy") == NoneV && "interval" in conf.entries ==>
      r == Some(YumPlugin(IntOrNone(conf.entries["interval"])))
    ensures !(conf.Dict? && Get(conf.entries, "deploy") == NoneV && "interval" in conf.entries) ==> r == YumFiles(conf)
  {
    if conf.Dict? && Get(conf.entries, "deploy") == NoneV && "interval" in conf.entries then
      Some(YumPlugin(IntOrNone(conf.entries["interval"])))
    else
      YumFiles(conf)
  }

  /** As written, no rule value the migration produces deploys the plugin. */
  lemma MigratedValueNotDeployed(v: Value)
    requires IntervalRuleset.Migrate(v).Ok?
    ensures IntervalRuleset.Migrate(v).value != NoneV ==> YumFiles(IntervalRuleset.Migrate(v).value) == None
  {
  }

  /** Every migrated rule value deploys the plugin with its interval truncated to whole seconds. */
  lemma MigratedValueDeployed(v: Value)
    requires IntervalRuleset.MigrateIntended(v).Ok?
    ensures var r := IntervalRuleset.MigrateIntended(v).value;
      YumFilesIntended(r) == Some(YumPlugin(Some(Trunc(r.entries["interval"].x))))
  {
  }

  /** The default rule value, `{'interval': 60.0}`, deploys nothing as written and a 60-second plugin as intended. */
  lemma DefaultRuleValue()
    ensures YumFiles(IntervalRuleset.IntervalOnly(IntervalRuleset.DEFAULT_INTERVAL)) == None
    ensures YumFilesIntended(IntervalRuleset.IntervalOnly(IntervalRuleset.DEFAULT_INTERVAL)) == Some(YumPlugin(Some(60)))
  {
  }

  /**
   * The shape in the function's own docstring, a `('deploy', options)` tuple, deploys
   * nothing, whether it sits under `deployment` as documented or under `deploy`.
   */
  lemma DocumentedTupleNotDeployed(options: map<string, Value>)
    ensures YumFiles(Dict(map["deployment" := Pair(Str("deploy"), Dict(options))])) == None
    ensures YumFiles(Dict(map["deploy" := Pair(Str("deploy"), Dict(options))])) == None
  {
  }
}
