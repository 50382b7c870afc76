/**
 * The trial parameters as the plugin receives them, and the chain of checks
 * that either rejects them or turns them into a configuration.
 *
 * Parameters are JavaScript values, so each one is modelled by the shapes the
 * checks tell apart: null (or undefined), an array, or anything else together
 * with its truthiness.
 */
module Params {
  import opened Wrappers
  import opened Rows

  /** `data`: null, an array of rows (truthy even when empty), or another value. */
  datatype DataParam = DataNull | DataArray(rows: seq<Row>) | DataOther(truthy: bool)

  /** `columns`: null, an array of column descriptions, or another value. */
  datatype ColumnsParam = ColumnsNull | ColumnsArray(cols: seq<Column>) | ColumnsOther

  /** `jsPsychWorldWideLab`: absent (falsy), or present with or without an initialised `client`. */
  datatype Integration = NoIntegration | Integration(clientReady: bool)

  datatype Params = Params(
    data: DataParam,
    leaderboardId: Option<string>,
    integration: Integration,
    columns: ColumnsParam,
    scoreLevel: string,
    loadingMessage: string,
    duration: Option<int>)

  datatype Level = Individual | Groups

  /** Where the rows come from once the checks have passed. */
  datatype Source = Static(rows: seq<Row>) | Remote(id: string, clientReady: bool)

  datatype Config = Config(
    source: Source,
    columns: Option<seq<Column>>,
    level: Level,
    loadingMessage: string,
    duration: Option<int>)

  /** Each reason for which the trial is finished without showing a table. */
  datatype Error =
    | NeitherSource
    | BothSources
    | MissingIntegration
    | NotArrays
    | BadScoreLevel
    | ClientNotInitialized

  predicate DataTruthy(d: DataParam) {
    match d
    case DataNull => false
    case DataArray(_) => true
    case DataOther(t) => t
  }

  predicate IdTruthy(id: Option<string>) {
    id.Some? && id.value != ""
  }

  /** `Array.isArray(x) || x == null` */
  predicate DataArrayOrNull(d: DataParam) {
    !d.DataOther?
  }

  predicate ColumnsArrayOrNull(c: ColumnsParam) {
    !c.ColumnsOther?
  }

  function ParseLevel(s: string): (l: Option<Level>)
    ensures l == Some(Individual) <==> s == "individual"
    ensures l == Some(Groups) <==> s == "groups"
  {
    if s == "individual" then Some(Individual)
    else if s == "groups" then Some(Groups)
    else None
  }

  function SuppliedColumns(c: ColumnsParam): Option<seq<Column>> {
    if c.ColumnsArray? then Some(c.cols) else None
  }

  /** Exactly one of `data` and `wwl_leaderboard_id` is truthy; an empty array counts as given. */
  predicate OneSource(p: Params) {
    DataTruthy(p.data) != IdTruthy(p.leaderboardId)
  }

  /** A leaderboard id comes with the integration. */
  predicate IntegrationGiven(p: Params) {
    IdTruthy(p.leaderboardId) ==> p.integration.Integration?
  }

  predicate ArraysOrNull(p: Params) {
    DataArrayOrNull(p.data) && ColumnsArrayOrNull(p.columns)
  }

  predicate LevelKnown(p: Params) {
    p.scoreLevel == "individual" || p.scoreLevel == "groups"
  }

  /** What a well-formed set of parameters is, stated declaratively. */
  predicate WellFormed(p: Params) {
    OneSource(p) && IntegrationGiven(p) && ArraysOrNull(p) && LevelKnown(p)
  }

  /** The early-exit checks at the top of the trial, in source order. */
  function Validate(p: Params): (r: Result<Config, Error>)
    // accepted exactly when the parameters are well formed
    ensures r.Ok? <==> WellFormed(p)
    // the checks run in order, so an error is reported only when every earlier check passed
    ensures r == Err(NeitherSource) <==> !DataTruthy(p.data) && !IdTruthy(p.leaderboardId)
    ensures r == Err(BothSources) <==> DataTruthy(p.data) && IdTruthy(p.leaderboardId)
    ensures r == Err(MissingIntegration) <==> OneSource(p) && !IntegrationGiven(p)
    ensures r == Err(NotArrays) <==> OneSource(p) && IntegrationGiven(p) && !ArraysOrNull(p)
    // the level is checked whatever the source, static rows included
    ensures r == Err(BadScoreLevel) <==>
      OneSource(p) && IntegrationGiven(p) && ArraysOrNull(p) && !LevelKnown(p)
    ensures r != Err(ClientNotInitialized)
    // an accepted configuration keeps what it was given
    ensures r.Ok? ==> r.value.source == (if IdTruthy(p.leaderboardId)
                                         then Remote(p.leaderboardId.value, p.integration.clientReady)
                                         else Static(p.data.rows))
    ensures r.Ok? ==> r.value.columns == SuppliedColumns(p.columns)
    ensures r.Ok? ==> Some(r.value.level) == ParseLevel(p.scoreLevel)
    ensures r.Ok? ==> r.value.duration == p.duration && r.value.loadingMessage == p.loadingMessage
  {
    if !DataTruthy(p.data) && !IdTruthy(p.leaderboardId) then Err(NeitherSource)
    else if DataTruthy(p.data) && IdTruthy(p.leaderboardId) then Err(BothSources)
    else if IdTruthy(p.leaderboardId) && p.integration.NoIntegration? then Err(MissingIntegration)
    else if !DataArrayOrNull(p.data) || !ColumnsArrayOrNull(p.columns) then Err(NotArrays)
    else if ParseLevel(p.scoreLevel).None? then Err(BadScoreLevel)
    else
      var source := if IdTruthy(p.leaderboardId)
                    then Remote(p.leaderboardId.value, p.integration.clientReady)
                    else Static(p.data.rows);
      Ok(Config(source, SuppliedColumns(p.columns), ParseLevel(p.scoreLevel).value, p.loadingMessage, p.duration))
  }
}
