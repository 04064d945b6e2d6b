/**
 * The bakery files function of the yum plugin that reads the rule value
 * `{'deploy': (choice, payload)}` and still accepts the older value shapes.
 * It yields at most one plugin file, so a run of it is modelled as an optional
 * plugin, or the exception that stopped it.
 */
module DeployBakery {
  import opened Python
  import opened BakeryApi
  import DeployRuleset

  /** Where the deploy tuple leaves the decision: made (a plugin or none), or to the code after it. */
  datatype Step = Done(plugin: Option<Plugin>) | FallThrough

  /** `conf['deploy']` is a pair whose choice is `choice`. */
  predicate DeployIs(m: map<string, Value>, choice: string) {
    DeployRuleset.HasDeployPair(m) && m["deploy"].items[0] == Str(choice)
  }

  /** The choice `('deploy', options)`: a dictionary of options deploys the plugin with its optional interval. */
  function DeployChoice(options: Value): (r: Outcome<Step>)
    ensures !options.Dict? ==> r == Ok(FallThrough)
    ensures options.Dict? ==> (r.Ok? <==> OptionalInt(Get(options.entries, "interval")).Ok?)
    ensures options.Dict? && r.Ok? ==> r.value == Done(Some(YumPlugin(OptionalInt(Get(options.entries, "interval")).value)))
  {
    if options.Dict? then
      var interval :- OptionalInt(Get(options.entries, "interval"));
      Ok(Done(Some(YumPlugin(interval))))
    else
      Ok(FallThrough)
  }

  /** The intermediate choice `('interval', v)`: deploy with `int(v)`, which may raise. */
  function IntervalChoice(payload: Value): (r: Outcome<Step>)
    ensures r.Ok? <==> IntOf(payload).Ok?
    ensures r.Ok? ==> r.value == Done(Some(YumPlugin(Some(IntOf(payload).value))))
  {
    match IntOf(payload)
    case Ok(n) => Ok(Done(Some(YumPlugin(Some(n)))))
    case Raised(e) => Raised(e)
  }

  /**
   * A truthy deploy tuple, as written: the test for the intermediate choice sits
   * under the test for `deploy`, where the choice cannot be `interval`, so an
   * `('interval', v)` tuple falls through to the code after it.
   */
  function DeployStep(items: seq<Value>): (r: Outcome<Step>)
    ensures |items| != 2 ==> r == Raised(ValueError)
    ensures |items| == 2 && items[0] == Str("deploy") ==> r == DeployChoice(items[1])
    ensures |items| == 2 && items[0] == Str("nointerval") ==> r == Ok(Done(None))
    ensures |items| == 2 && items[0] != Str("deploy") && items[0] != Str("nointerval") ==> r == Ok(FallThrough)
  {
    var pair :- Unpack2(items);
    var (choice, payload) := pair;
    if choice == Str("deploy") then
      if payload.Dict? then
        DeployChoice(payload)
      else if choice == Str("interval") then
        IntervalChoice(payload)
      else
        Ok(FallThrough)
    else if choice == Str("nointerval") then
      Ok(Done(None))
    else
      Ok(FallThrough)
  }

  /** The deploy tuple with the intermediate choice tested beside `deploy` and `nointerval`. */
  function DeployStepIntended(items: seq<Value>): (r: Outcome<Step>)
    ensures |items| != 2 ==> r == Raised(ValueError)
    ensures |items| == 2 && items[0] == Str("deploy") ==> r == DeployChoice(items[1])
    ensures |items| == 2 && items[0] == Str("interval") ==> r == IntervalChoice(items[1])
    ensures |items| == 2 && items[0] == Str("nointerval") ==> r == Ok(Done(None))
    ensures (&& |items| == 2 && items[0] != Str("deploy") && items[0] != Str("interval")
             && items[0] != Str("nointerval")) ==> r == Ok(FallThrough)
  {
    var pair :- Unpack2(items);
    var (choice, payload) := pair;
    if choice == Str("deploy") then
      DeployChoice(payload)
    else if choice == Str("interval") then
      IntervalChoice(payload)
    else if choice == Str("nointerval") then
      Ok(Done(None))
    else
      Ok(FallThrough)
  }

  /**
   * After the deploy tuple: the old `{'interval': v}` deploys with `int(v)` (or no
   * interval when `v` is None); without that key the plugin is deployed synchronously.
   */
  function FromIntervalKey(m: map<string, Value>): (r: Outcome<Option<Plugin>>)
    ensures "interval" !in m ==> r == Ok(Some(YumPlugin(None)))
    ensures "interval" in m ==> (r.Ok? <==> OptionalInt(m["interval"]).Ok?)
    ensures "interval" in m && r.Ok? ==> r.value == Some(YumPlugin(OptionalInt(m["interval"]).value))
    ensures r.Ok? ==> r.value.Some?
  {
    if "interval" in m then
      var interval :- OptionalInt(Get(m, "interval"));
      Ok(Some(YumPlugin(interval)))
    else
      Ok(Some(YumPlugin(None)))
  }

  /** The rest of the function, once the deploy tuple has been looked at. */
  function Finish(m: map<string, Value>, step: Step): Outcome<Option<Plugin>> {
    match step
    case Done(plugin) => Ok(plugin)
    case FallThrough => FromIntervalKey(m)
  }

  /** The value of `conf['deploy']` is a non-empty tuple. */
  predicate HasDeployTuple(m: map<string, Value>) {
    Truthy(Get(m, "deploy")) && Get(m, "deploy").Tuple?
  }

  /** `get_yum_files` as written: the plugin file it yields, if any, or what it raised. */
  function YumFiles(conf: Value): (r: Outcome<Option<Plugin>>)
    ensures !conf.Dict? ==> r == Ok(Some(YumPlugin(None)))
    ensures conf.Dict? && DeployIs(conf.entries, "nointerval") ==> r == Ok(None)
    ensures conf.Dict? && DeployIs(conf.entries, "deploy") ==>
      var options := conf.entries["deploy"].items[1];
      var interval := if options.Dict? then OptionalInt(Get(options.entries, "interval")) else Ok(None);
      && (options.Dict? ==> (r.Ok? <==> interval.Ok?) && (r.Ok? ==> r.value == Some(YumPlugin(interval.value))))
      && (!options.Dict? ==> r == FromIntervalKey(conf.entries))
    ensures conf.Dict? && DeployIs(conf.entries, "interval") ==> r == FromIntervalKey(conf.entries)
    ensures conf.Dict? && !HasDeployTuple(conf.entries) ==> r == FromIntervalKey(conf.entries)
    ensures conf.Dict? && HasDeployTuple(conf.entries) && |conf.entries["deploy"].items| != 2 ==> r == Raised(ValueError)
    ensures (conf.Dict? && HasDeployTuple(conf.entries) && |conf.entries["deploy"].items| == 2
             && conf.entries["deploy"].items[0] !in [Str("deploy"), Str("interval"), Str("nointerval")]) ==>
      r == FromIntervalKey(conf.entries)
    ensures r.Ok? && r.value.Some? ==> r.value.value.baseOs == Linux && r.value.value.source == "yum"
    ensures r.Raised? ==> r.error == TypeError || r.error == ValueError
  {
    if conf.Dict? then
      var m := conf.entries;
      if Get(m, "deploy") == Pair(Str("nointerval"), NoneV) then
        Ok(None)
      else
        var step :- if HasDeployTuple(m) then DeployStep(Get(m, "deploy").items) else Ok(FallThrough);
        Finish(m, step)
    else
      Ok(Some(YumPlugin(None)))
  }

  /** `get_yum_files` with the intermediate choice handled as its docstring describes. */
  function YumFilesIntended(conf: Value): (r: Outcome<Option<Plugin>>)
    ensures !conf.Dict? ==> r == Ok(Some(YumPlugin(None)))
    ensures conf.Dict? && DeployIs(conf.entries, "nointerval") ==> r == Ok(None)
    ensures conf.Dict? && DeployIs(conf.entries, "interval") ==>
      var payload := conf.entries["deploy"].items[1];
      (r.Ok? <==> IntOf(payload).Ok?) && (r.Ok? ==> r.value == Some(YumPlugin(Some(IntOf(payload).value))))
    ensures conf.Dict? && !HasDeployTuple(conf.entries) ==> r == FromIntervalKey(conf.entries)
    ensures conf.Dict? && HasDeployTuple(conf.entries) && |conf.entries["deploy"].items| != 2 ==> r == Raised(ValueError)
    ensures (conf.Dict? && HasDeployTuple(conf.entries) && |conf.entries["deploy"].items| == 2
             && conf.entries["deploy"].items[0] !in [Str("deploy"), Str("interval"), Str("nointerval")]) ==>
      r == FromIntervalKey(conf.entries)
    ensures r.Ok? && r.value.Some? ==> r.value.value.baseOs == Linux && r.value.value.source == "yum"
  {
    if conf.Dict? then
      var m := conf.entries;
      if Get(m, "deploy") == Pair(Str("nointerval"), NoneV) then
        Ok(None)
      else
        var step :- if HasDeployTuple(m) then DeployStepIntended(Get(m, "deploy").items) else Ok(FallThrough);
        Finish(m, step)
    else
      Ok(Some(YumPlugin(None)))
  }

  /** The two versions differ only on the intermediate `('interval', v)` choice. */
  lemma AgreeOffIntervalChoice(conf: Value)
    requires !(conf.Dict? && DeployIs(conf.entries, "interval"))
    ensures YumFiles(conf) == YumFilesIntended(conf)
  {
  }

  /** The intermediate choice is ignored as written: `{'deploy': ('interval', 60)}` deploys without an interval. */
  lemma IntermediateChoiceIgnored()
    ensures YumFiles(Dict(map["deploy" := Pair(Str("interval"), Num(60.0))])) == Ok(Some(YumPlugin(None)))
    ensures YumFilesIntended(Dict(map["deploy" := Pair(Str("interval"), Num(60.0))])) == Ok(Some(YumPlugin(Some(60))))
  {
  }

  /** No migrated rule value holds the intermediate choice. */
  lemma MigrationDropsIntervalChoice(v: Value)
    requires DeployRuleset.Migrate(v).Ok?
    ensures var r := DeployRuleset.Migrate(v).value; !(r.Dict? && DeployIs(r.entries, "interval"))
  {
  }

  /** On every value the migration produces the defect cannot be observed. */
  lemma MigratedValuesUnaffected(v: Value)
    requires DeployRuleset.Migrate(v).Ok?
    ensures YumFiles(DeployRuleset.Migrate(v).value) == YumFilesIntended(DeployRuleset.Migrate(v).value)
  {
  }

  /** The five rule value shapes the files function documents. */
  predicate DocumentedShape(v: Value) {
    && v.Dict?
    && var m := v.entries;
    || ("deploy" !in m && "interval" in m && (m["interval"] == NoneV || (m["interval"].Num? && m["interval"].x >= 0.0)))
    || (DeployIs(m, "interval") && m["deploy"].items[1].Num?)
    || DeployIs(m, "nointerval")
    || (DeployIs(m, "deploy") && m["deploy"].items[1].Dict?)
  }

  /** Migrating a documented rule value does not change what is deployed. */
  lemma MigrationKeepsDeployment(v: Value)
    requires DocumentedShape(v)
    ensures DeployRuleset.Migrate(v).Ok?
    ensures YumFilesIntended(DeployRuleset.Migrate(v).value) == YumFilesIntended(v)
  {
  }
}
