/**
 * The yum check on the current check API: parsing the `<<<yum>>>` agent section
 * into a `Section` and turning a section, the rule parameters and the current time
 * into results and metrics. Normal and security update counts are graded with
 * fixed upper levels `(warn, crit)`.
 */
module YumCheck {
  import opened Python
  import opened CheckApi
  import opened StringTable

  /** The parsed agent section. */
  datatype Section = Section(
    rebootRequired: Option<bool>,
    packages: int,
    securityPackages: int,
    securityPackagesList: Option<string>,
    lastUpdateTimestamp: int,
    errorMessage: Option<string>)

  /** Simple upper levels: `('fixed', (warn, crit))`, or any other mode, which grades nothing. */
  datatype Levels = Fixed(warn: int, crit: int) | NoLevels

  /** The check parameters; `None` is a key absent from the parameter dictionary. */
  datatype Params = Params(
    rebootReq: Option<int>,
    normal: Option<Levels>,
    security: Option<Levels>,
    lastUpdateState: Option<int>,
    lastUpdateTimeDiff: Option<int>)

  /** The default parameters the check is registered with. */
  const DEFAULT_PARAMS := Params(Some(2), Some(Fixed(1, 10)), Some(Fixed(1, 1)), Some(1), Some(60))

  const SECONDS_PER_DAY := 24 * 60 * 60

  /** What each result says; timestamps stand for their rendered date. */
  datatype Summary =
    | AgentError(message: string)
    | NoPackageInformation
    | AllUpToDate
    | NormalUpdatesAvailable(count: int)
    | SecurityUpdatesAvailable(count: int, packageList: Option<string>)
    | SecurityCheckNotAvailable
    | SecurityCheckFailed
    | LastUpdateAt(timestamp: int)
    | LastUpdateLongAgoNoUpdates(timestamp: int)
    | LastUpdateTooLongAgo(timestamp: int)
    | NoLastUpdateTimestamp
    | RebootRequired

  // ---------------------------------------------------------------------------
  // Parsing

  /**
   * `yum_parse` as written. The error-line branch builds the section from the
   * error message alone, leaving out the required `reboot_required` field, so
   * building it raises TypeError. `except KeyError` catches nothing that list
   * indexing or `int()` raise.
   */
  function YumParse(table: Table): (r: Outcome<Section>)
    ensures IsErrorLine(table) ==> r == Raised(TypeError)
    ensures r.Ok? <==>
      && !IsErrorLine(table)
      && |table| >= 4
      && |table[0]| > 0 && |table[1]| > 0 && |table[2]| > 0 && |table[3]| > 0
      && ParseInt(table[1][0]).Some? && ParseInt(table[2][0]).Some? && ParseInt(table[3][0]).Some?
    ensures r.Raised? && !IsErrorLine(table) ==> r.error == IndexError || r.error == ValueError
    ensures r.Ok? ==> (r.value.rebootRequired == Some(true) <==> table[0][0] == "yes")
    ensures r.Ok? ==> (r.value.rebootRequired == Some(false) <==> table[0][0] == "no")
    ensures r.Ok? ==>
      && Some(r.value.packages) == ParseInt(table[1][0])
      && Some(r.value.securityPackages) == ParseInt(table[2][0])
      && Some(r.value.lastUpdateTimestamp) == ParseInt(table[3][0])
    ensures r.Ok? ==> (r.value.securityPackagesList.Some? <==> |table[2]| > 1)
    ensures r.Ok? && |table[2]| > 1 ==> r.value.securityPackagesList == Some(table[2][1])
    ensures r.Ok? ==> r.value.errorMessage.None?
  {
    var first :- FirstToken(table, 0);
    if first == "ERROR:" then
      Raised(TypeError)
    else
      var packages :- IntToken(table, 1);
      var security :- IntToken(table, 2);
      var packageList := if |table[2]| > 1 then Some(table[2][1]) else None;
      var timestamp :- IntToken(table, 3);
      Ok(Section(RebootFlag(first), packages, security, packageList, timestamp, None))
  }

  /**
   * `yum_parse` as its error-line branch evidently intends it: the section carries
   * the error message, the reboot flag is unset and the other fields keep their
   * defaults.
   */
  function YumParseIntended(table: Table): (r: Outcome<Section>)
    ensures !IsErrorLine(table) ==> r == YumParse(table)
    ensures IsErrorLine(table) ==> r.Ok? && r.value.errorMessage == Some(ErrorMessage(table))
    ensures IsErrorLine(table) ==> r.value.rebootRequired.None? && r.value.securityPackagesList.None?
  {
    if IsErrorLine(table) then Ok(Section(None, -1, -1, None, -1, Some(ErrorMessage(table))))
    else YumParse(table)
  }

  /** As written, every error line makes the parse raise instead of reporting the message. */
  lemma ErrorLineRaises(message: seq<string>)
    ensures YumParse([["ERROR:"] + message]) == Raised(TypeError)
  {
  }

  /** The example output in the plugin's header comment. */
  lemma ExampleSection()
    ensures YumParse([["yes"], ["32"], ["4"], ["1626252300"]])
         == Ok(Section(Some(true), 32, 4, None, 1626252300, None))
  {
    var ts := "1626252300";
    assert DigitsValue(ts[..1]) == 1;
    assert ts[..2][..1] == ts[..1];
    assert DigitsValue(ts[..2]) == 16;
    assert ts[..3][..2] == ts[..2];
    assert DigitsValue(ts[..3]) == 162;
    assert ts[..4][..3] == ts[..3];
    assert DigitsValue(ts[..4]) == 1626;
    assert ts[..5][..4] == ts[..4];
    assert DigitsValue(ts[..5]) == 16262;
    assert ts[..6][..5] == ts[..5];
    assert DigitsValue(ts[..6]) == 162625;
    assert ts[..7][..6] == ts[..6];
    assert DigitsValue(ts[..7]) == 1626252;
    assert ts[..8][..7] == ts[..7];
    assert DigitsValue(ts[..8]) == 16262523;
    assert ts[..9][..8] == ts[..8];
    assert DigitsValue(ts[..9]) == 162625230;
    assert ts[..9] == ts[..9];
    assert DigitsValue(ts) == 1626252300;
    assert DigitsValue("32"[..1]) == 3;
    assert DigitsValue("32") == 32;
    assert DigitsValue("4") == 4;
  }

  // ---------------------------------------------------------------------------
  // Checking

  /** The state of a count against simple upper levels. */
  function LevelState(levels: Levels, count: int): (s: State)
    ensures levels.NoLevels? ==> s == OK
    ensures levels.Fixed? ==> (s == CRIT <==> count >= levels.crit)
    ensures levels.Fixed? ==> (s == WARN <==> levels.warn <= count < levels.crit)
    ensures levels.Fixed? ==> (s == OK <==> count < levels.warn && count < levels.crit)
  {
    match levels
    case Fixed(warn, crit) =>
      if count >= crit then CRIT else if count >= warn then WARN else OK
    case NoLevels => OK
  }

  /** The block that reports normal updates. */
  function NormalUpdates(params: Params, section: Section): (r: Run<Summary>)
    ensures r.raised.Some? <==>
      section.packages >= 0 && !(section.packages == 0 && section.securityPackages == 0) && params.normal.None?
    ensures r.raised.Some? ==> r == Raise(TypeError)
    ensures section.packages < 0 ==> r.items == [Result(UNKNOWN, NoPackageInformation)]
    ensures section.packages == 0 && section.securityPackages == 0 ==>
      r == Emit([Result(OK, AllUpToDate), Metric("normal_updates", 0)])
    ensures section.packages >= 0 && !(section.packages == 0 && section.securityPackages == 0) && params.normal.Some? ==>
      r == Emit([Result(LevelState(params.normal.value, section.packages), NormalUpdatesAvailable(section.packages)),
                 Metric("normal_updates", section.packages)])
  {
    if section.packages < 0 then
      Emit([Result(UNKNOWN, NoPackageInformation)])
    else if section.packages == 0 && section.securityPackages == 0 then
      Emit([Result(OK, AllUpToDate), Metric("normal_updates", 0)])
    else
      match params.normal
      case None => Raise(TypeError)
      case Some(levels) =>
        Emit([Result(LevelState(levels, section.packages), NormalUpdatesAvailable(section.packages)),
              Metric("normal_updates", section.packages)])
  }

  /** The block that reports security updates; -2 and -1 are the agent's "not available" and "failed". */
  function SecurityUpdates(params: Params, section: Section): (r: Run<Summary>)
    ensures r.raised.Some? <==> section.securityPackages >= 0 && params.security.None?
    ensures r.raised.Some? ==> r == Raise(TypeError)
    ensures section.securityPackages < -2 ==> r == Emit([])
    ensures section.securityPackages >= 0 && r.raised.None? ==>
      && |r.items| > 0
      && r.items[0].Result?
      && r.items[0].state == LevelState(params.security.value, section.securityPackages)
      && r.items[0].summary.SecurityUpdatesAvailable?
      && r.items[0].summary.count == section.securityPackages
      && (r.items[0].summary.packageList.Some? <==> TruthyText(section.securityPackagesList))
      && (r.items[0].summary.packageList.Some? ==> r.items[0].summary.packageList == section.securityPackagesList)
    ensures section.securityPackages >= 0 && params.security.Some? ==>
      r == Emit([Result(LevelState(params.security.value, section.securityPackages),
                        SecurityUpdatesAvailable(section.securityPackages,
                          if TruthyText(section.securityPackagesList) then section.securityPackagesList else None)),
                 Metric("security_updates", section.securityPackages)])
    ensures section.securityPackages == -2 ==>
      r == Emit([Result(OK, SecurityCheckNotAvailable), Metric("security_updates", 0)])
    ensures section.securityPackages == -1 ==>
      r == Emit([Result(OK, SecurityCheckFailed), Metric("security_updates", 0)])
  {
    var security := section.securityPackages;
    if security >= 0 then
      match params.security
      case None => Raise(TypeError)
      case Some(levels) =>
        var listed := if TruthyText(section.securityPackagesList) then section.securityPackagesList else None;
        Emit([Result(LevelState(levels, security), SecurityUpdatesAvailable(security, listed)),
              Metric("security_updates", security)])
    else if security == -2 then
      Emit([Result(OK, SecurityCheckNotAvailable), Metric("security_updates", 0)])
    else if security == -1 then
      Emit([Result(OK, SecurityCheckFailed), Metric("security_updates", 0)])
    else
      Emit([])
  }

  /** `params.get("last_update_state", State.WARN)`. */
  function LastUpdateLevel(params: Params): int {
    if params.lastUpdateState.Some? then params.lastUpdateState.value else 1
  }

  /** `params.get("last_update_time_diff", 60)` days, in seconds. */
  function ThresholdSeconds(params: Params): int {
    (if params.lastUpdateTimeDiff.Some? then params.lastUpdateTimeDiff.value else 60) * SECONDS_PER_DAY
  }

  /**
   * Whether the age of the last update needs no attention: it is recent enough,
   * or it is old but there is nothing to install.
   */
  predicate LastUpdateFine(params: Params, section: Section, now: int) {
    var ts := section.lastUpdateTimestamp;
    ts >= 0 && (now - ts < ThresholdSeconds(params) || section.packages == 0)
  }

  /** The block that reports the time of the last update. */
  function LastUpdate(params: Params, section: Section, now: int): (r: Run<Summary>)
    ensures r.raised.Some? <==> !LastUpdateFine(params, section, now) && !(0 <= LastUpdateLevel(params) <= 3)
    ensures r.raised.Some? ==> r == Raise(ValueError)
    ensures r.raised.None? ==> |r.items| == 2 && r.items[0].Result?
    ensures LastUpdateFine(params, section, now) ==> r.items[0].state == OK
    ensures !LastUpdateFine(params, section, now) && r.raised.None? ==>
      Level(r.items[0].state) == LastUpdateLevel(params)
    ensures var ts := section.lastUpdateTimestamp;
      && (ts >= 0 && now - ts < ThresholdSeconds(params) ==>
            r == Emit([Result(OK, LastUpdateAt(ts)), Metric("last_update_timestamp", ts)]))
      && (ts >= 0 && now - ts >= ThresholdSeconds(params) && section.packages == 0 ==>
            r == Emit([Result(OK, LastUpdateLongAgoNoUpdates(ts)), Metric("last_update_timestamp", ts)]))
      && (ts >= 0 && now - ts >= ThresholdSeconds(params) && section.packages != 0 ==>
            r == ResultAtLevel(Ok(LastUpdateLevel(params)), LastUpdateTooLongAgo(ts), [Metric("last_update_timestamp", ts)]))
      && (ts < 0 ==>
            r == ResultAtLevel(Ok(LastUpdateLevel(params)), NoLastUpdateTimestamp, [Metric("last_update_timestamp", 0)]))
  {
    var ts := section.lastUpdateTimestamp;
    var level := LastUpdateLevel(params);
    if ts >= 0 then
      var age := now - ts;
      if age < ThresholdSeconds(params) then
        Emit([Result(OK, LastUpdateAt(ts)), Metric("last_update_timestamp", ts)])
      else if section.packages == 0 then
        Emit([Result(OK, LastUpdateLongAgoNoUpdates(ts)), Metric("last_update_timestamp", ts)])
      else
        ResultAtLevel(Ok(level), LastUpdateTooLongAgo(ts), [Metric("last_update_timestamp", ts)])
    else
      ResultAtLevel(Ok(level), NoLastUpdateTimestamp, [Metric("last_update_timestamp", 0)])
  }

  /** `params.get("reboot_req", State.CRIT)`. */
  function RebootLevel(params: Params): int {
    if params.rebootReq.Some? then params.rebootReq.value else 2
  }

  /** The block that reports a pending reboot. */
  function Reboot(params: Params, section: Section): (r: Run<Summary>)
    ensures section.rebootRequired != Some(true) ==> r == Emit([])
    ensures section.rebootRequired == Some(true) ==> (r.raised.Some? <==> !(0 <= RebootLevel(params) <= 3))
    ensures section.rebootRequired == Some(true) && r.raised.None? ==>
      |r.items| == 1 && r.items[0].Result? && r.items[0].summary == RebootRequired
      && Level(r.items[0].state) == RebootLevel(params)
  {
    if section.rebootRequired == Some(true) then
      ResultAtLevel(Ok(RebootLevel(params)), RebootRequired, [])
    else
      Emit([])
  }

  /**
   * `check_yum`: an error message from the agent is reported alone; otherwise the
   * normal-update, security-update, last-update and reboot blocks follow each other.
   */
  function CheckYum(params: Params, section: Section, now: int): (r: Run<Summary>)
    ensures TruthyText(section.errorMessage) ==>
      r.raised.None? && r.items == [Result(UNKNOWN, AgentError(section.errorMessage.value))]
    ensures !TruthyText(section.errorMessage) && r.raised.None? ==>
      r.items == NormalUpdates(params, section).items + SecurityUpdates(params, section).items
               + LastUpdate(params, section, now).items + Reboot(params, section).items
  {
    if TruthyText(section.errorMessage) then
      Emit([Result(UNKNOWN, AgentError(section.errorMessage.value))])
    else
      var normal := NormalUpdates(params, section);
      var security := SecurityUpdates(params, section);
      var lastUpdate := LastUpdate(params, section, now);
      var reboot := Reboot(params, section);
      Then(Then(Then(normal, security), lastUpdate), reboot)
  }

  /** The normal-updates block yields the `normal_updates` metric exactly when the package count is known. */
  lemma NormalUpdatesMetric(params: Params, section: Section, name: string)
    requires NormalUpdates(params, section).raised.None?
    ensures MetricValues(NormalUpdates(params, section).items, name)
         == (if name == "normal_updates" && section.packages >= 0 then [section.packages] else [])
  {
    MetricValuesOfShort(NormalUpdates(params, section).items, name);
  }

  /**
   * The security-updates block yields the `security_updates` metric when the count
   * is known, 0 when the agent reports the check unavailable (-2) or failed (-1),
   * and nothing for any other negative count.
   */
  lemma SecurityUpdatesMetric(params: Params, section: Section, name: string)
    requires SecurityUpdates(params, section).raised.None?
    ensures MetricValues(SecurityUpdates(params, section).items, name)
         == (if name != "security_updates" then []
             else if section.securityPackages >= 0 then [section.securityPackages]
             else if section.securityPackages == -1 || section.securityPackages == -2 then [0]
             else [])
  {
    MetricValuesOfShort(SecurityUpdates(params, section).items, name);
  }

  /** The last-update block always yields the timestamp metric, 0 when the timestamp is unknown. */
  lemma LastUpdateMetric(params: Params, section: Section, now: int, name: string)
    requires LastUpdate(params, section, now).raised.None?
    ensures MetricValues(LastUpdate(params, section, now).items, name)
         == (if name != "last_update_timestamp" then []
             else [if section.lastUpdateTimestamp >= 0 then section.lastUpdateTimestamp else 0])
  {
    MetricValuesOfShort(LastUpdate(params, section, now).items, name);
  }

  lemma RebootHasNoMetric(params: Params, section: Section, name: string)
    ensures MetricValues(Reboot(params, section).items, name) == []
  {
  }

  /** Parameters every block can use without raising. */
  predicate WellFormed(params: Params) {
    && params.normal.Some?
    && params.security.Some?
    && 0 <= LastUpdateLevel(params) <= 3
    && 0 <= RebootLevel(params) <= 3
  }

  lemma DefaultParamsWellFormed()
    ensures WellFormed(DEFAULT_PARAMS)
  {
  }

  /** The metric values the check yields under any one name. */
  lemma CheckYumMetric(params: Params, section: Section, now: int, name: string)
    requires WellFormed(params) && !TruthyText(section.errorMessage)
    ensures CheckYum(params, section, now).raised.None?
    ensures MetricValues(CheckYum(params, section, now).items, name)
         == (if name == "normal_updates" && section.packages >= 0 then [section.packages] else [])
          + (if name != "security_updates" then []
             else if section.securityPackages >= 0 then [section.securityPackages]
             else if section.securityPackages == -1 || section.securityPackages == -2 then [0]
             else [])
          + (if name != "last_update_timestamp" then []
             else [if section.lastUpdateTimestamp >= 0 then section.lastUpdateTimestamp else 0])
  {
    FourBlocksCollect(NormalUpdates(params, section), SecurityUpdates(params, section),
                      LastUpdate(params, section, now), Reboot(params, section), name);
    NormalUpdatesMetric(params, section, name);
    SecurityUpdatesMetric(params, section, name);
    LastUpdateMetric(params, section, now, name);
    RebootHasNoMetric(params, section, name);
  }

  /**
   * With well-formed parameters and no agent error the check never raises, and
   * its metrics are: `normal_updates` exactly when the package count is known,
   * `security_updates` when the security count is known (0 when the agent could
   * not determine it) and `last_update_timestamp` always (0 when unknown).
   */
  lemma CheckYumMetrics(params: Params, section: Section, now: int)
    requires WellFormed(params) && !TruthyText(section.errorMessage)
    ensures CheckYum(params, section, now).raised.None?
    ensures MetricValues(CheckYum(params, section, now).items, "normal_updates")
         == (if section.packages >= 0 then [section.packages] else [])
    ensures MetricValues(CheckYum(params, section, now).items, "security_updates")
         == (if section.securityPackages >= 0 then [section.securityPackages]
             else if section.securityPackages == -1 || section.securityPackages == -2 then [0]
             else [])
    ensures MetricValues(CheckYum(params, section, now).items, "last_update_timestamp")
         == [if section.lastUpdateTimestamp >= 0 then section.lastUpdateTimestamp else 0]
  {
    CheckYumMetric(params, section, now, "normal_updates");
    CheckYumMetric(params, section, now, "security_updates");
    CheckYumMetric(params, section, now, "last_update_timestamp");
  }

  /** The update and last-update blocks never report a reboot. */
  lemma NormalUpdatesNoReboot(params: Params, section: Section)
    ensures RebootRequired !in Summaries(NormalUpdates(params, section).items)
  {
    SummariesOfShort(NormalUpdates(params, section).items);
  }

  lemma SecurityUpdatesNoReboot(params: Params, section: Section)
    ensures RebootRequired !in Summaries(SecurityUpdates(params, section).items)
  {
    SummariesOfShort(SecurityUpdates(params, section).items);
  }

  lemma LastUpdateNoReboot(params: Params, section: Section, now: int)
    ensures RebootRequired !in Summaries(LastUpdate(params, section, now).items)
  {
    SummariesOfShort(LastUpdate(params, section, now).items);
  }

  /** With a level that names a state, the reboot block reports a reboot exactly when one is required. */
  lemma RebootSummary(params: Params, section: Section)
    requires 0 <= RebootLevel(params) <= 3
    ensures Summaries(Reboot(params, section).items)
         == (if section.rebootRequired == Some(true) then [RebootRequired] else [])
  {
  }

  /** A reboot is reported exactly when the agent says one is required. */
  lemma RebootReportedIffRequired(params: Params, section: Section, now: int)
    requires WellFormed(params) && !TruthyText(section.errorMessage)
    ensures RebootRequired in Summaries(CheckYum(params, section, now).items)
        <==> section.rebootRequired == Some(true)
  {
    var normal := NormalUpdates(params, section).items;
    var security := SecurityUpdates(params, section).items;
    var lastUpdate := LastUpdate(params, section, now).items;
    var reboot := Reboot(params, section).items;
    CheckYumMetric(params, section, now, "");
    SummariesAppend(normal, security);
    SummariesAppend(normal + security, lastUpdate);
    SummariesAppend(normal + security + lastUpdate, reboot);
    NormalUpdatesNoReboot(params, section);
    SecurityUpdatesNoReboot(params, section);
    LastUpdateNoReboot(params, section, now);
    RebootSummary(params, section);
  }

  /**
   * Under the default parameters a single pending security update is critical,
   * and normal updates warn from 1 and are critical from 10.
   */
  lemma DefaultLevels(count: int)
    ensures LevelState(DEFAULT_PARAMS.security.value, count) == (if count >= 1 then CRIT else OK)
    ensures LevelState(DEFAULT_PARAMS.normal.value, count)
         == (if count >= 10 then CRIT else if count >= 1 then WARN else OK)
  {
  }

  /** The intended parse reports an agent error as exactly one UNKNOWN result and nothing else. */
  lemma ErrorLineReported(table: Table, params: Params, now: int)
    requires IsErrorLine(table) && |table[0]| > 1 && table[0][1] != ""
    ensures YumParseIntended(table).Ok?
    ensures CheckYum(params, YumParseIntended(table).value, now)
         == Emit([Result(UNKNOWN, AgentError(ErrorMessage(table)))])
  {
  }

  /**
   * The example section under the default parameters, one day after the last
   * update: 32 normal updates are critical (level 10), 4 security updates are
   * critical (level 1), the update is recent, and the pending reboot is critical.
   */
  lemma ExampleCheck()
    ensures CheckYum(DEFAULT_PARAMS, Section(Some(true), 32, 4, None, 1626252300, None), 1626252300 + SECONDS_PER_DAY)
         == Emit([Result(CRIT, NormalUpdatesAvailable(32)), Metric("normal_updates", 32),
                  Result(CRIT, SecurityUpdatesAvailable(4, None)), Metric("security_updates", 4),
                  Result(OK, LastUpdateAt(1626252300)), Metric("last_update_timestamp", 1626252300),
                  Result(CRIT, RebootRequired)])
  {
  }
}
