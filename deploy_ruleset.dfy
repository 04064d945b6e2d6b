/**
 * The bakery rule for the yum plugin whose value is `{'deploy': (choice, payload)}`:
 * choice `deploy` with a dictionary that may hold an `interval`, or choice
 * `nointerval` to leave the plugin out. Its migration brings older stored values
 * into that shape.
 */
module DeployRuleset {
  import opened Python

  /** `{'deploy': ('nointerval', None)}`: do not deploy the plugin. */
  function NoDeploy(): Value {
    Dict(map["deploy" := Pair(Str("nointerval"), NoneV)])
  }

  /** `{'deploy': ('deploy', options)}`: deploy the plugin with these options. */
  function DeployWith(options: map<string, Value>): Value {
    Dict(map["deploy" := Pair(Str("deploy"), Dict(options))])
  }

  /** The deploy tuple of a stored value, when it has one of two items. */
  predicate HasDeployPair(m: map<string, Value>) {
    "deploy" in m && m["deploy"].Tuple? && |m["deploy"].items| == 2
  }

  /** The shape the rule form stores: a deploy pair whose choice is `deploy` or exactly `('nointerval', None)`. */
  predicate Canonical(v: Value) {
    v == NoDeploy() || (v.Dict? && HasDeployPair(v.entries) && v.entries["deploy"].items[0] == Str("deploy"))
  }

  /**
   * `_migrateInt`. A missing or non-dictionary value means "do not deploy"; the old
   * `{'interval': v}` becomes a deploy choice, keeping `v` only when it is a
   * non-negative number; the intermediate `('interval', v)` and `('nointerval', _)`
   * choices are normalised; the current `('deploy', _)` choice and anything without
   * a deploy tuple are kept; a tuple with any other choice falls off the end of the
   * function, which returns None.
   */
  function Migrate(value: Value): (r: Outcome<Value>)
    ensures !value.Dict? ==> r == Ok(NoDeploy())
    ensures value.Dict? && "interval" in value.entries && "deploy" !in value.entries ==>
      var interval := value.entries["interval"];
      && (interval == NoneV || (interval.Num? && interval.x < 0.0) ==> r == Ok(DeployWith(map[])))
      && (interval.Num? && interval.x >= 0.0 ==> r == Ok(DeployWith(map["interval" := interval])))
      && (interval != NoneV && !interval.Num? ==> r == Raised(TypeError))
    ensures value.Dict? && "deploy" in value.entries && value.entries["deploy"].Tuple? ==>
      var items := value.entries["deploy"].items;
      && (|items| != 2 ==> r == Raised(ValueError))
      && (|items| == 2 && items[0] == Str("interval") ==>
            (r.Ok? <==> FloatOf(items[1]).Ok?)
            && (r.Ok? ==> r.value == DeployWith(map["interval" := Num(FloatOf(items[1]).value)])))
      && (|items| == 2 && items[0] == Str("nointerval") ==> r == Ok(NoDeploy()))
      && (|items| == 2 && items[0] == Str("deploy") ==> r == Ok(value))
      && (|items| == 2 && items[0] !in [Str("interval"), Str("nointerval"), Str("deploy")] ==> r == Ok(NoneV))
    ensures (&& value.Dict?
             && !("interval" in value.entries && "deploy" !in value.entries)
             && !("deploy" in value.entries && value.entries["deploy"].Tuple?)) ==> r == Ok(value)
  {
    if value == NoneV then
      Ok(NoDeploy())
    else if !value.Dict? then
      Ok(NoDeploy())
    else
      var m := value.entries;
      if "interval" in m && "deploy" !in m then
        var interval := m["interval"];
        if interval == NoneV then
          Ok(DeployWith(map[]))
        else
          var nonNegative :- AtLeastZero(interval);
          // a number compared with 0, so `float()` keeps it as it is
          if nonNegative then Ok(DeployWith(map["interval" := Num(interval.x)]))
          else
            Ok(DeployWith(map[]))
      else if "deploy" in m && m["deploy"].Tuple? then
        var pair :- Unpack2(m["deploy"].items);
        var choice := pair.0;
        if choice == Str("interval") then
          var seconds :- FloatOf(pair.1);
          Ok(DeployWith(map["interval" := Num(seconds)]))
        else if choice == Str("nointerval") then
          Ok(NoDeploy())
        else if choice == Str("deploy") then
          Ok(value)
        else
          Ok(NoneV)
      else
        Ok(value)
  }

  /** Values already in the stored shape need no migration. */
  lemma CanonicalIsFixed(v: Value)
    requires Canonical(v)
    ensures Migrate(v) == Ok(v)
  {
  }

  /** Every migrated value is in the stored shape, or is the input itself. */
  lemma MigratedShape(v: Value)
    requires Migrate(v).Ok? && Migrate(v).value != NoneV
    ensures Canonical(Migrate(v).value) || Migrate(v).value == v
  {
  }

  /** Migrating a migrated value changes nothing. */
  lemma MigrateIdempotent(v: Value)
    requires Migrate(v).Ok? && Migrate(v).value != NoneV
    ensures Migrate(Migrate(v).value) == Migrate(v)
  {
  }

  /** An unknown choice in the deploy tuple makes the migration return None. */
  lemma UnknownChoiceGivesNone()
    ensures Migrate(Dict(map["deploy" := Pair(Str("sometimes"), NoneV)])) == Ok(NoneV)
  {
  }
}
