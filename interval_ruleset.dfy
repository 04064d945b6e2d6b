/**
 * The bakery rule for the yum plugin whose value is `{'interval': seconds}`, a
 * float. Its migration turns the older `{'deploy': {'interval': v}}` and integer
 * intervals into that shape, and fills in the default interval.
 */
module IntervalRuleset {
  import opened Python

  /** The interval, in seconds, a rule value without one migrates to. */
  const DEFAULT_INTERVAL: real := 60.0

  /** `{'interval': seconds}`. */
  function IntervalOnly(seconds: real): Value {
    Dict(map["interval" := Num(seconds)])
  }

  /** `{'interval': float(v)}`, where the conversion may raise. */
  function IntervalOf(v: Value): (r: Outcome<Value>)
    ensures r.Ok? <==> FloatOf(v).Ok?
    ensures r.Ok? ==> r.value == IntervalOnly(FloatOf(v).value)
  {
    var seconds :- FloatOf(v);
    Ok(IntervalOnly(seconds))
  }

  /** A migrated rule value: exactly one key, `interval`, holding a number. */
  predicate IsIntervalValue(v: Value) {
    v.Dict? && v.entries.Keys == {"interval"} && v.entries["interval"].Num?
  }

  /**
   * `_migrate_int_to_float`, as written. A truthy `deploy` entry must be a
   * dictionary (anything else has no `.get`); when its `interval` is falsy the
   * function falls off its end and returns None instead of a rule value.
   */
  function Migrate(value: Value): (r: Outcome<Value>)
    ensures !value.Dict? ==> r == Raised(AttributeError)
    ensures value.Dict? && Truthy(Get(value.entries, "deploy")) ==>
      var deploy := value.entries["deploy"];
      && (!deploy.Dict? ==> r == Raised(AttributeError))
      && (deploy.Dict? && Truthy(Get(deploy.entries, "interval")) ==> r == IntervalOf(deploy.entries["interval"]))
      && (deploy.Dict? && !Truthy(Get(deploy.entries, "interval")) ==> r == Ok(NoneV))
    ensures value.Dict? && !Truthy(Get(value.entries, "deploy")) ==>
      && (Truthy(Get(value.entries, "interval")) ==> r == IntervalOf(value.entries["interval"]))
      && (!Truthy(Get(value.entries, "interval")) ==> r == Ok(IntervalOnly(DEFAULT_INTERVAL)))
    ensures r.Ok? && r.value != NoneV ==> IsIntervalValue(r.value)
    ensures r.Raised? ==> r.error in {AttributeError, TypeError, ValueError}
  {
    if !value.Dict? then
      Raised(AttributeError)
    else
      var m := value.entries;
      if Truthy(Get(m, "deploy")) then
        var deploy := m["deploy"];
        if !deploy.Dict? then
          Raised(AttributeError)
        else if Truthy(Get(deploy.entries, "interval")) then
          IntervalOf(deploy.entries["interval"])
        else
          Ok(NoneV)
      else if Truthy(Get(m, "interval")) then
        IntervalOf(m["interval"])
      else
        Ok(IntervalOnly(DEFAULT_INTERVAL))
  }

  /**
   * The migration with the fall-through closed: a `deploy` entry without an
   * interval is migrated like a value without one.
   */
  function MigrateIntended(value: Value): (r: Outcome<Value>)
    ensures r.Ok? ==> IsIntervalValue(r.value)
    ensures !value.Dict? ==> r == Raised(AttributeError)
    ensures Migrate(value) != Ok(NoneV) ==> r == Migrate(value)
  {
    if !value.Dict? then
      Raised(AttributeError)
    else
      var m := value.entries;
      if Truthy(Get(m, "deploy")) && !m["deploy"].Dict? then
        Raised(AttributeError)
      else if Truthy(Get(m, "deploy")) && Truthy(Get(m["deploy"].entries, "interval")) then
        IntervalOf(m["deploy"].entries["interval"])
      else if Truthy(Get(m, "interval")) then
        IntervalOf(m["interval"])
      else
        Ok(IntervalOnly(DEFAULT_INTERVAL))
  }

  /** As written: a `deploy` dictionary without an interval migrates to None. */
  lemma DeployWithoutIntervalGivesNone()
    ensures Migrate(Dict(map["deploy" := Dict(map["enabled" := Num(1.0)])])) == Ok(NoneV)
    ensures MigrateIntended(Dict(map["deploy" := Dict(map["enabled" := Num(1.0)])])) == Ok(IntervalOnly(DEFAULT_INTERVAL))
  {
    var deploy := Dict(map["enabled" := Num(1.0)]);
    assert Truthy(deploy) by {
      assert "enabled" in deploy.entries;
    }
  }

  /** A migrated value with a non-zero interval migrates to itself. */
  lemma MigrateIdempotent(v: Value)
    requires Migrate(v).Ok? && Migrate(v).value != NoneV
    requires Migrate(v).value.entries["interval"].x != 0.0
    ensures Migrate(Migrate(v).value) == Migrate(v)
  {
  }

  /** A rule value whose intervals are numbers migrates to a fixed point of the migration. */
  lemma NumericIntervalsSettle(v: Value)
    requires MigrateIntended(v).Ok?
    requires v.Dict? && "interval" in v.entries ==> v.entries["interval"].Num?
    requires v.Dict? && "deploy" in v.entries && v.entries["deploy"].Dict? && "interval" in v.entries["deploy"].entries
             ==> v.entries["deploy"].entries["interval"].Num?
    ensures MigrateIntended(MigrateIntended(v).value) == MigrateIntended(v)
  {
  }

  /** A zero interval given as text is not a fixed point: `{'interval': '0'}` migrates to 0.0, and that to the default. */
  lemma ZeroTextIntervalMovesTwice()
    ensures Migrate(Dict(map["interval" := Str("0")])) == Ok(IntervalOnly(0.0))
    ensures Migrate(IntervalOnly(0.0)) == Ok(IntervalOnly(DEFAULT_INTERVAL))
  {
  }
}
