/**
 * The yum check on the legacy check API: the same agent section, parsed without
 * the security package list, and a check whose parameters map each kind of
 * finding directly to a state level.
 */
module LegacyYumCheck {
  import opened Python
  import opened CheckApi
  import opened StringTable

  /** The parsed agent section. */
  datatype Section = Section(
    rebootRequired: Option<bool>,
    packages: int,
    securityPackages: int,
    lastUpdateTimestamp: int,
    errorMessage: Option<string>)

  /**
   * The parameter dictionary, keyed by `reboot_req`, `normal`, `security`,
   * `last_update_state` and `last_update_time_diff`; `None` when the framework
   * passes no parameters at all.
   */
  type Params = Option<map<string, int>>

  /** The default parameters the check is registered with; the time difference is in seconds. */
  const DEFAULT_PARAMS: Params := Some(map[
    "reboot_req" := 2,
    "normal" := 1,
    "security" := 2,
    "last_update_state" := 0,
    "last_update_time_diff" := 60 * 24 * 60 * 60])

  /** What each result says; timestamps stand for their rendered date. */
  datatype Summary =
    | AgentError(message: string)
    | NoPackageInformation
    | AllUpToDate
    | UpdatesAvailable(count: int)
    | SecurityUpdatesAvailable(count: int)
    | TimestampNotFound(timestamp: int)
    | LastUpdateRunAt(timestamp: int)
    | TooLongAgoNothingPending(timestamp: int)
    | TooLongAgoUpdatesPending(timestamp: int)
    | RebootRequired

  // ---------------------------------------------------------------------------
  // Parsing

  /**
   * `yum_parse` as written. As in the current generation, the error-line branch
   * leaves out the required `reboot_required` field and so raises TypeError, and
   * `except KeyError` catches nothing that indexing or `int()` raise.
   */
  function YumParse(table: Table): (r: Outcome<Section>)
    ensures IsErrorLine(table) ==> r == Raised(TypeError)
    ensures r.Ok? <==>
      && !IsErrorLine(table)
      && |table| >= 4
      && |table[0]| > 0 && |table[1]| > 0 && |table[2]| > 0 && |table[3]| > 0
      && ParseInt(table[1][0]).Some? && ParseInt(table[2][0]).Some? && ParseInt(table[3][0]).Some?
    ensures r.Raised? && !IsErrorLine(table) ==> r.error == IndexError || r.error == ValueError
    ensures r.Ok? ==> (r.value.rebootRequired == Some(true) <==> table[0][0] == "yes")
    ensures r.Ok? ==> (r.value.rebootRequired == Some(false) <==> table[0][0] == "no")
    ensures r.Ok? ==>
      && Some(r.value.packages) == ParseInt(table[1][0])
      && Some(r.value.securityPackages) == ParseInt(table[2][0])
      && Some(r.value.lastUpdateTimestamp) == ParseInt(table[3][0])
    ensures r.Ok? ==> r.value.errorMessage.None?
  {
    var first :- FirstToken(table, 0);
    if first == "ERROR:" then
      Raised(TypeError)
    else
      var packages :- IntToken(table, 1);
      var security :- IntToken(table, 2);
      var timestamp :- IntToken(table, 3);
      Ok(Section(RebootFlag(first), packages, security, timestamp, None))
  }

  /** `yum_parse` as its error-line branch evidently intends it. */
  function YumParseIntended(table: Table): (r: Outcome<Section>)
    ensures !IsErrorLine(table) ==> r == YumParse(table)
    ensures IsErrorLine(table) ==> r.Ok? && r.value.errorMessage == Some(ErrorMessage(table))
    ensures IsErrorLine(table) ==> r.value.rebootRequired.None?
  {
    if IsErrorLine(table) then Ok(Section(None, -1, -1, -1, Some(ErrorMessage(table))))
    else YumParse(table)
  }

  /** As written, every error line makes the parse raise instead of reporting the message. */
  lemma ErrorLineRaises(message: seq<string>)
    ensures YumParse([["ERROR:"] + message]) == Raised(TypeError)
  {
  }

  // ---------------------------------------------------------------------------
  // Checking

  /** `params.get(key, default)`, which raises AttributeError when there are no parameters. */
  function ParamGet(params: Params, key: string, default: int): (r: Outcome<int>)
    ensures params.None? <==> r.Raised?
    ensures r.Raised? ==> r.error == AttributeError
    ensures params.Some? && key in params.value ==> r == Ok(params.value[key])
    ensures params.Some? && key !in params.value ==> r == Ok(default)
  {
    match params
    case None => Raised(AttributeError)
    case Some(m) => Ok(if key in m then m[key] else default)
  }

  /** The block that reports normal updates: a count of 0 with pending security updates reports nothing. */
  function NormalUpdates(params: Params, section: Section): (r: Run<Summary>)
    ensures section.packages < 0 ==> r == Emit([Result(UNKNOWN, NoPackageInformation)])
    ensures section.packages == 0 && section.securityPackages == 0 ==> r == Emit([Result(OK, AllUpToDate)])
    ensures section.packages == 0 && section.securityPackages != 0 ==> r == Emit([])
    ensures section.packages > 0 ==> r == ResultAtLevel(
      ParamGet(params, "normal", 0), UpdatesAvailable(section.packages), [Metric("normal_updates", section.packages)])
  {
    if section.packages < 0 then
      Emit([Result(UNKNOWN, NoPackageInformation)])
    else if section.packages == 0 && section.securityPackages == 0 then
      Emit([Result(OK, AllUpToDate)])
    else if section.packages > 0 then
      ResultAtLevel(ParamGet(params, "normal", 0), UpdatesAvailable(section.packages),
                    [Metric("normal_updates", section.packages)])
    else
      Emit([])
  }

  /** The block that reports security updates; zero and negative counts report nothing. */
  function SecurityUpdates(params: Params, section: Section): (r: Run<Summary>)
    ensures section.securityPackages <= 0 ==> r == Emit([])
    ensures section.securityPackages > 0 ==> r == ResultAtLevel(
      ParamGet(params, "security", 0), SecurityUpdatesAvailable(section.securityPackages),
      [Metric("security_updates", section.securityPackages)])
  {
    if section.securityPackages > 0 then
      ResultAtLevel(ParamGet(params, "security", 0), SecurityUpdatesAvailable(section.securityPackages),
                    [Metric("security_updates", section.securityPackages)])
    else
      Emit([])
  }

  /** `params.get("last_update_time_diff", 60 days)`, in seconds. */
  function TimeDiff(params: map<string, int>): int {
    if "last_update_time_diff" in params then params["last_update_time_diff"] else 60 * 24 * 60 * 60
  }

  /**
   * The block that reports the time of the last update. A timestamp of 0 reports
   * nothing. An age equal to the allowed difference is not "recent", and it is not
   * "too long ago" either, so it gets the configured state even with nothing to install.
   */
  function LastUpdate(params: Params, section: Section, now: int): (r: Run<Summary>)
    ensures section.lastUpdateTimestamp == 0 ==> r == Emit([])
    ensures section.lastUpdateTimestamp < 0 ==> r == ResultAtLevel(
      ParamGet(params, "last_update_state", 0), TimestampNotFound(section.lastUpdateTimestamp),
      [Metric("last_update_timestamp", section.lastUpdateTimestamp)])
    ensures section.lastUpdateTimestamp > 0 && params.None? ==> r == Raise(AttributeError)
    ensures section.lastUpdateTimestamp > 0 && params.Some? ==>
      var age := now - section.lastUpdateTimestamp;
      var diff := TimeDiff(params.value);
      && (age < diff ==> r == Emit([Result(OK, LastUpdateRunAt(section.lastUpdateTimestamp))]))
      && (age > diff && section.packages == 0 ==>
            r == Emit([Result(OK, TooLongAgoNothingPending(section.lastUpdateTimestamp))]))
      && (age >= diff && !(age > diff && section.packages == 0) ==>
            r == ResultAtLevel(ParamGet(params, "last_update_state", 0),
                               TooLongAgoUpdatesPending(section.lastUpdateTimestamp), []))
  {
    var ts := section.lastUpdateTimestamp;
    if ts < 0 then
      ResultAtLevel(ParamGet(params, "last_update_state", 0), TimestampNotFound(ts),
                    [Metric("last_update_timestamp", ts)])
    else if ts > 0 then
      match ParamGet(params, "last_update_state", 0)
      case Raised(e) => Raise(e)
      case Ok(level) =>
        var diff := TimeDiff(params.value);
        var age := now - ts;
        if age < diff then
          Emit([Result(OK, LastUpdateRunAt(ts))])
        else if age > diff && section.packages == 0 then
          Emit([Result(OK, TooLongAgoNothingPending(ts))])
        else
          ResultAtLevel(Ok(level), TooLongAgoUpdatesPending(ts), [])
    else
      Emit([])
  }

  /**
   * The block that reports a pending reboot: level 2 when there are no parameters
   * at all, otherwise `params["reboot_req"]`, which raises KeyError when absent.
   */
  function Reboot(params: Params, section: Section): (r: Run<Summary>)
    ensures section.rebootRequired != Some(true) ==> r == Emit([])
    ensures section.rebootRequired == Some(true) && params.None? ==> r == Emit([Result(CRIT, RebootRequired)])
    ensures section.rebootRequired == Some(true) && params.Some? && "reboot_req" !in params.value ==>
      r == Raise(KeyError)
    ensures section.rebootRequired == Some(true) && params.Some? && "reboot_req" in params.value ==>
      r == ResultAtLevel(Ok(params.value["reboot_req"]), RebootRequired, [])
  {
    if section.rebootRequired == Some(true) then
      var level: Outcome<int> :=
        if params.None? then Ok(2)
        else if "reboot_req" in params.value then Ok(params.value["reboot_req"])
        else Raised(KeyError);
      ResultAtLevel(level, RebootRequired, [])
    else
      Emit([])
  }

  /**
   * `check_yum`: an error message from the agent is reported alone; otherwise the
   * normal-update, security-update, last-update and reboot blocks follow each other.
   */
  function CheckYum(params: Params, section: Section, now: int): (r: Run<Summary>)
    ensures TruthyText(section.errorMessage) ==>
      r.raised.None? && r.items == [Result(UNKNOWN, AgentError(section.errorMessage.value))]
    ensures !TruthyText(section.errorMessage) && r.raised.None? ==>
      r.items == NormalUpdates(params, section).items + SecurityUpdates(params, section).items
               + LastUpdate(params, section, now).items + Reboot(params, section).items
  {
    if TruthyText(section.errorMessage) then
      Emit([Result(UNKNOWN, AgentError(section.errorMessage.value))])
    else
      Then(Then(Then(NormalUpdates(params, section), SecurityUpdates(params, section)),
                LastUpdate(params, section, now)),
           Reboot(params, section))
  }

  /** Parameters whose state levels all name a state. */
  predicate WellFormed(params: Params) {
    params.Some?
    && (forall key | key in params.value && key != "last_update_time_diff" :: 0 <= params.value[key] <= 3)
    && "reboot_req" in params.value
  }

  lemma DefaultParamsWellFormed()
    ensures WellFormed(DEFAULT_PARAMS)
  {
  }

  /** The normal-updates block yields `normal_updates` exactly when there are normal updates. */
  lemma NormalUpdatesMetric(params: Params, section: Section, name: string)
    requires WellFormed(params)
    ensures MetricValues(NormalUpdates(params, section).items, name)
         == (if name == "normal_updates" && section.packages > 0 then [section.packages] else [])
  {
    MetricValuesOfShort(NormalUpdates(params, section).items, name);
  }

  /** The security-updates block yields `security_updates` exactly when there are security updates. */
  lemma SecurityUpdatesMetric(params: Params, section: Section, name: string)
    requires WellFormed(params)
    ensures MetricValues(SecurityUpdates(params, section).items, name)
         == (if name == "security_updates" && section.securityPackages > 0 then [section.securityPackages] else [])
  {
    MetricValuesOfShort(SecurityUpdates(params, section).items, name);
  }

  /** The last-update block yields `last_update_timestamp` exactly when the timestamp is negative. */
  lemma LastUpdateMetric(params: Params, section: Section, now: int, name: string)
    requires WellFormed(params)
    ensures MetricValues(LastUpdate(params, section, now).items, name)
         == (if name == "last_update_timestamp" && section.lastUpdateTimestamp < 0
             then [section.lastUpdateTimestamp] else [])
  {
    MetricValuesOfShort(LastUpdate(params, section, now).items, name);
  }

  lemma RebootHasNoMetric(params: Params, section: Section, name: string)
    ensures MetricValues(Reboot(params, section).items, name) == []
  {
  }

  /** The metric values the check yields under any one name. */
  lemma CheckYumMetric(params: Params, section: Section, now: int, name: string)
    requires WellFormed(params) && !TruthyText(section.errorMessage)
    ensures CheckYum(params, section, now).raised.None?
    ensures MetricValues(CheckYum(params, section, now).items, name)
         == (if name == "normal_updates" && section.packages > 0 then [section.packages] else [])
          + (if name == "security_updates" && section.securityPackages > 0 then [section.securityPackages] else [])
          + (if name == "last_update_timestamp" && section.lastUpdateTimestamp < 0
             then [section.lastUpdateTimestamp] else [])
  {
    FourBlocksCollect(NormalUpdates(params, section), SecurityUpdates(params, section),
                      LastUpdate(params, section, now), Reboot(params, section), name);
    NormalUpdatesMetric(params, section, name);
    SecurityUpdatesMetric(params, section, name);
    LastUpdateMetric(params, section, now, name);
    RebootHasNoMetric(params, section, name);
  }

  /**
   * With well-formed parameters and no agent error the check never raises; it
   * yields `normal_updates` exactly when there are normal updates, `security_updates`
   * exactly when there are security updates, and `last_update_timestamp` exactly
   * when the timestamp is negative, with the negative value itself.
   */
  lemma CheckYumMetrics(params: Params, section: Section, now: int)
    requires WellFormed(params) && !TruthyText(section.errorMessage)
    ensures CheckYum(params, section, now).raised.None?
    ensures MetricValues(CheckYum(params, section, now).items, "normal_updates")
         == (if section.packages > 0 then [section.packages] else [])
    ensures MetricValues(CheckYum(params, section, now).items, "security_updates")
         == (if section.securityPackages > 0 then [section.securityPackages] else [])
    ensures MetricValues(CheckYum(params, section, now).items, "last_update_timestamp")
         == (if section.lastUpdateTimestamp < 0 then [section.lastUpdateTimestamp] else [])
  {
    CheckYumMetric(params, section, now, "normal_updates");
    CheckYumMetric(params, section, now, "security_updates");
    CheckYumMetric(params, section, now, "last_update_timestamp");
  }

  /** The update and last-update blocks never report a reboot. */
  lemma NormalUpdatesNoReboot(params: Params, section: Section)
    ensures RebootRequired !in Summaries(NormalUpdates(params, section).items)
  {
    SummariesOfShort(NormalUpdates(params, section).items);
  }

  lemma SecurityUpdatesNoReboot(params: Params, section: Section)
    ensures RebootRequired !in Summaries(SecurityUpdates(params, section).items)
  {
    SummariesOfShort(SecurityUpdates(params, section).items);
  }

  lemma LastUpdateNoReboot(params: Params, section: Section, now: int)
    ensures RebootRequired !in Summaries(LastUpdate(params, section, now).items)
  {
    SummariesOfShort(LastUpdate(params, section, now).items);
  }

  /** With well-formed parameters, the reboot block reports a reboot exactly when one is required. */
  lemma RebootSummary(params: Params, section: Section)
    requires WellFormed(params)
    ensures Reboot(params, section).raised.None?
    ensures Summaries(Reboot(params, section).items)
         == (if section.rebootRequired == Some(true) then [RebootRequired] else [])
  {
    SummariesOfShort(Reboot(params, section).items);
  }

  /** A reboot is reported exactly when the agent says one is required. */
  lemma RebootReportedIffRequired(params: Params, section: Section, now: int)
    requires WellFormed(params) && !TruthyText(section.errorMessage)
    ensures RebootRequired in Summaries(CheckYum(params, section, now).items)
        <==> section.rebootRequired == Some(true)
  {
    var normal := NormalUpdates(params, section).items;
    var security := SecurityUpdates(params, section).items;
    var lastUpdate := LastUpdate(params, section, now).items;
    var reboot := Reboot(params, section).items;
    CheckYumMetric(params, section, now, "");
    SummariesAppend(normal, security);
    SummariesAppend(normal + security, lastUpdate);
    SummariesAppend(normal + security + lastUpdate, reboot);
    NormalUpdatesNoReboot(params, section);
    SecurityUpdatesNoReboot(params, section);
    LastUpdateNoReboot(params, section, now);
    RebootSummary(params, section);
  }

  /**
   * Without parameters a pending reboot is critical; the check then completes only
   * if no block before it reads a parameter.
   */
  lemma RebootWithoutParams(section: Section, now: int)
    requires !TruthyText(section.errorMessage) && section.rebootRequired == Some(true)
    requires section.packages <= 0 && section.securityPackages <= 0 && section.lastUpdateTimestamp == 0
    ensures CheckYum(None, section, now)
         == Emit(NormalUpdates(None, section).items + [Result(CRIT, RebootRequired)])
  {
  }

  /** An update exactly as old as the allowed difference is graded with the configured state. */
  lemma AgeEqualToDiffIsStale(params: Params, section: Section, now: int)
    requires WellFormed(params) && section.lastUpdateTimestamp > 0
    requires now - section.lastUpdateTimestamp == TimeDiff(params.value)
    ensures LastUpdate(params, section, now)
         == Emit([Result(StateOf(ParamGet(params, "last_update_state", 0).value).value,
                         TooLongAgoUpdatesPending(section.lastUpdateTimestamp))])
  {
  }

  /** The intended parse reports an agent error as exactly one UNKNOWN result and nothing else. */
  lemma ErrorLineReported(table: Table, params: Params, now: int)
    requires IsErrorLine(table) && |table[0]| > 1 && table[0][1] != ""
    ensures YumParseIntended(table).Ok?
    ensures CheckYum(params, YumParseIntended(table).value, now)
         == Emit([Result(UNKNOWN, AgentError(ErrorMessage(table)))])
  {
  }
}
