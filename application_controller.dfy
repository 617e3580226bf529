/** The guards of the application endpoints: creation (region, runtime, trial quota,
    application count, balance), state changes, re-bundling with its restart rule, and
    deletion. Lookups are given as the facts they produce. */
module ApplicationController {
  import opened Wrappers
  import opened JsString
  import opened ApplicationService
  import Response

  const MAX_APPLICATIONS: nat := 20

  /** `account?.balance || 0`. */
  function Balance(account: Option<int>): int { account.GetOr(0) }

  /** The trial-quota check: with `limit` the trial bundle's free-tier count (0 when there
      is no trial bundle or no count), a trial is refused once `trials >= limit`. */
  function TrialRejection(isTrialTier: bool, trialLimit: Option<nat>, trials: nat): (r: Option<string>)
    ensures r.Some? <==> isTrialTier && trials >= trialLimit.GetOr(0)
    ensures r.Some? ==> r.value == "you can only create " + NumberToString(trialLimit.GetOr(0)) + " trial applications"
  {
    var limit := trialLimit.GetOr(0);
    if isTrialTier && trials >= limit then
      Some("you can only create " + NumberToString(limit) + " trial applications")
    else None
  }

  /** What `create` learns before deciding: which lookups succeeded, the trial facts, the
      user's application count and account balance. */
  datatype CreateFacts = CreateFacts(
    regionId: string, regionFound: bool,
    runtimeId: string, runtimeFound: bool,
    isTrialTier: bool, trialLimit: Option<nat>, trials: nat,
    count: nat, account: Option<int>)

  /** Why `create` refuses. */
  datatype CreateError =
    | RegionNotFound(regionId: string)
    | RuntimeNotFound(runtimeId: string)
    | TrialQuotaReached(limit: nat)
    | TooManyApplications
    | BalanceNotEnough

  /** The error text `create` returns for each refusal. */
  function CreateMessage(e: CreateError): string {
    match e
    case RegionNotFound(id) => "region " + id + " not found"
    case RuntimeNotFound(id) => "runtime " + id + " not found"
    case TrialQuotaReached(limit) => "you can only create " + NumberToString(limit) + " trial applications"
    case TooManyApplications => "too many applications, limit is 20"
    case BalanceNotEnough => "account balance is not enough"
  }

  /** The checks of `create`, in order; the first failure is the refusal. */
  function CreateRejection(f: CreateFacts): (r: Option<CreateError>)
    ensures r.None? <==>
      && f.regionFound && f.runtimeFound
      && (f.isTrialTier ==> f.trials < f.trialLimit.GetOr(0))
      && f.count <= MAX_APPLICATIONS
      && (!f.isTrialTier ==> Balance(f.account) >= 0)
  {
    if !f.regionFound then Some(RegionNotFound(f.regionId))
    else if !f.runtimeFound then Some(RuntimeNotFound(f.runtimeId))
    else if TrialRejection(f.isTrialTier, f.trialLimit, f.trials).Some? then Some(TrialQuotaReached(f.trialLimit.GetOr(0)))
    else if f.count > MAX_APPLICATIONS then Some(TooManyApplications)
    else if !f.isTrialTier && Balance(f.account) < 0 then Some(BalanceNotEnough)
    else None
  }

  /** `create`, given what `tryGenerateUniqueAppid()` produced and the record `findOne`
      reads back for an id: the error of the first failed check; else the error the id
      generation throws (`Err`, answered by the framework rather than by an envelope);
      else the application created under the generated id. */
  function Create(f: CreateFacts, appid: Result<string, string>, created: string -> Application)
    : (r: Result<Response.ResponseUtil<Application>, string>)
    ensures CreateRejection(f).Some? ==> r == Ok(Response.Error(CreateMessage(CreateRejection(f).value)))
    ensures CreateRejection(f).None? && appid.Err? ==> r == Err(appid.error)
    ensures CreateRejection(f).None? && appid.Ok? ==> r == Ok(Response.Ok(created(appid.value)))
  {
    match CreateRejection(f)
    case Some(e) => Ok(Response.Error(CreateMessage(e)))
    case None =>
      match appid
      case Err(message) => Err(message)
      case Ok(id) => Ok(Response.Ok(created(id)))
  }

  /** `create` with its id generation: the id is generated only once every check passed.
      A failed generation means all ten candidates were taken; a created application gets
      an id that was not taken. */
  method CreateApplication(f: CreateFacts, appidLength: nat, random: nat -> nat -> nat, existing: set<string>,
                           created: string -> Application)
    returns (r: Result<Response.ResponseUtil<Application>, string>)
    ensures CreateRejection(f).Some? ==> r == Ok(Response.Error(CreateMessage(CreateRejection(f).value)))
    ensures CreateRejection(f).None? && r.Err? ==>
      && r.error == "Generate appid failed"
      && forall i :: 0 <= i < MAX_APPID_ATTEMPTS ==> GenerateAppID(appidLength, random(i)) in existing
    ensures CreateRejection(f).None? && r.Ok? ==>
      exists id :: id !in existing && r.value == Response.Ok(created(id))
  {
    match CreateRejection(f) {
      case Some(e) => return Ok(Response.Error(CreateMessage(e)));
      case None =>
    }
    var appid := TryGenerateUniqueAppid(appidLength, random, existing);
    r := Create(f, appid, created);
  }

  /** The checks of `updateState`: the balance first, then the transition rules. */
  function UpdateStateRejection(account: Option<int>, target: ApplicationState, app: Application): (r: Option<string>)
    ensures r.None? <==>
      && Balance(account) >= 0
      && (target == Restarting ==> app.state == Running || app.phase == Started)
      && (target == ApplicationState.Stopped ==> app.state == Running || app.phase == Started)
      && (target == Running ==> app.state == ApplicationState.Stopped || app.phase == ApplicationPhase.Stopped)
  {
    if Balance(account) < 0 then Some("account balance is not enough")
    else if target == Restarting && app.state != Running && app.phase != Started then
      Some("The application is not running, can not restart it")
    else if target == ApplicationState.Stopped && app.state != Running && app.phase != Started then
      Some("The application is not running, can not stop it")
    else if target == Running && app.state != ApplicationState.Stopped && app.phase != ApplicationPhase.Stopped then
      Some("The application is not stopped, can not start it")
    else None
  }

  /** `updateState`: the error, or the application with the requested state. */
  function UpdateState(account: Option<int>, target: ApplicationState, app: Application): (r: Response.ResponseUtil<Application>)
    ensures r.error == UpdateStateRejection(account, target, app)
    ensures r.error.Some? ==> r == Response.Error(r.error.value)
    ensures r.error.None? ==> r == Response.Ok(WithState(app, target))
    ensures r.data.Some? ==> r.data.value.state == target && r.data.value.(state := app.state) == app
  {
    match UpdateStateRejection(account, target, app)
    case Some(message) => Response.Error(message)
    case None => Response.Ok(WithState(app, target))
  }

  /** After re-bundling: a restart is requested when the application is Started and the
      CPU or memory limit of the new resource differs from the old one. */
  predicate RestartAfterBundleUpdate(app: Application, origin: Bundle, updated: Bundle) {
    app.phase == Started
    && (origin.resource.limitCPU != updated.resource.limitCPU || origin.resource.limitMemory != updated.resource.limitMemory)
  }

  /** `updateBundle`: the trial-quota error, or the re-bundled record (with the trial flag
      the controller determined) and whether a restart follows. */
  function UpdateBundle(app: Application, origin: Bundle, dto: BundleRequest, isTrialTier: bool, trialLimit: Option<nat>, trials: nat)
    : (r: (Response.ResponseUtil<Bundle>, bool))
    ensures r.0.error == TrialRejection(isTrialTier, trialLimit, trials)
    ensures r.0.error.Some? ==> r.0 == Response.Error(r.0.error.value)
    ensures r.0.error.None? ==> r.0 == Response.Ok(UpdatedBundleWithTier(origin, dto, isTrialTier))
    ensures r.1 <==>
      && r.0.error.None? && app.phase == Started
      && (origin.resource.limitCPU != dto.cpu || origin.resource.limitMemory != dto.memory)
  {
    match TrialRejection(isTrialTier, trialLimit, trials)
    case Some(message) => (Response.Error(message), false)
    case None =>
      var doc := UpdatedBundleWithTier(origin, dto, isTrialTier);
      (Response.Ok(doc), RestartAfterBundleUpdate(app, origin, doc))
  }

  /** `delete`: refused unless the state or the phase is Stopped; else the removed record. */
  function Delete(app: Application): (r: Response.ResponseUtil<Application>)
    ensures r.error.Some? <==> app.state != ApplicationState.Stopped && app.phase != ApplicationPhase.Stopped
    ensures r.error.Some? ==> r == Response.Error("The app is not stopped, can not delete it")
    ensures r.error.None? ==> r == Response.Ok(Removed(app))
  {
    if app.state != ApplicationState.Stopped && app.phase != ApplicationPhase.Stopped then Response.Error("The app is not stopped, can not delete it")
    else Response.Ok(Removed(app))
  }

  // ---------------------------------------------------------------------------
  // Properties

  /** The checks of `create` run in order: each refusal happens only when all earlier
      checks passed; the trial message is the quota check's own message. */
  lemma CreateCheckOrder(f: CreateFacts)
    ensures CreateRejection(f) == Some(RegionNotFound(f.regionId)) <==> !f.regionFound
    ensures CreateRejection(f) == Some(RuntimeNotFound(f.runtimeId)) <==> f.regionFound && !f.runtimeFound
    ensures CreateRejection(f).Some? && CreateRejection(f).value.TrialQuotaReached? <==>
      f.regionFound && f.runtimeFound && TrialRejection(f.isTrialTier, f.trialLimit, f.trials).Some?
    ensures CreateRejection(f).Some? && CreateRejection(f).value.TrialQuotaReached? ==>
      Some(CreateMessage(CreateRejection(f).value)) == TrialRejection(f.isTrialTier, f.trialLimit, f.trials)
    ensures CreateRejection(f) == Some(TooManyApplications) <==>
      f.regionFound && f.runtimeFound && TrialRejection(f.isTrialTier, f.trialLimit, f.trials).None? && f.count > MAX_APPLICATIONS
    ensures CreateRejection(f) == Some(BalanceNotEnough) <==>
      && f.regionFound && f.runtimeFound && TrialRejection(f.isTrialTier, f.trialLimit, f.trials).None?
      && f.count <= MAX_APPLICATIONS && !f.isTrialTier && Balance(f.account) < 0
  {
  }

  /** Without a trial bundle every trial creation is refused; the count limit is strict;
      a missing account counts as balance 0; trials are never refused for balance. */
  lemma CreateEdgeCases(f: CreateFacts)
    ensures f.regionFound && f.runtimeFound && f.isTrialTier && f.trialLimit.None? ==>
      CreateRejection(f) == Some(TrialQuotaReached(0))
    ensures f.regionFound && f.runtimeFound && !f.isTrialTier && f.count == MAX_APPLICATIONS && f.account.None? ==>
      CreateRejection(f).None?
    ensures f.isTrialTier ==> CreateRejection(f) != Some(BalanceNotEnough)
  {
  }

  /** A negative balance refuses every state change, before any transition rule. */
  lemma BalanceFirst(account: Option<int>, target: ApplicationState, app: Application)
    requires Balance(account) < 0
    ensures UpdateStateRejection(account, target, app) == Some("account balance is not enough")
  {
  }

  /** Restarting or stopping needs the state Running or the phase Started; starting needs
      the state or the phase Stopped; other targets are never refused by the rules. */
  lemma TransitionRules(target: ApplicationState, app: Application)
    ensures target == Restarting ==>
      (UpdateStateRejection(None, target, app).Some? <==> app.state != Running && app.phase != Started)
    ensures target == ApplicationState.Stopped ==>
      (UpdateStateRejection(None, target, app).Some? <==> app.state != Running && app.phase != Started)
    ensures target == Running ==>
      (UpdateStateRejection(None, target, app).Some? <==> app.state != ApplicationState.Stopped && app.phase != ApplicationPhase.Stopped)
    ensures target == ApplicationState.Deleted ==> UpdateStateRejection(None, target, app).None?
  {
  }

  /** The restart rule in terms of the request, for trial and other re-bundles alike: a
      restart follows exactly when the re-bundle is accepted, the application is Started,
      and the requested CPU or memory differs from the old limits. */
  lemma RestartIffLimitsChange(app: Application, origin: Bundle, dto: BundleRequest, isTrialTier: bool, trialLimit: Option<nat>, trials: nat)
    ensures UpdateBundle(app, origin, dto, isTrialTier, trialLimit, trials).1 <==>
      && TrialRejection(isTrialTier, trialLimit, trials).None?
      && app.phase == Started
      && (origin.resource.limitCPU != dto.cpu || origin.resource.limitMemory != dto.memory)
  {
  }

  /** Deleting a running application is refused; an application stopped in state or in
      phase becomes Deleted and keeps everything else. */
  lemma DeleteRules(app: Application)
    ensures app.state == Running && app.phase == Started ==> Delete(app).data.None?
    ensures app.phase == ApplicationPhase.Stopped ==> Delete(app) == Response.Ok(app.(state := ApplicationState.Deleted))
    ensures app.state == ApplicationState.Stopped ==> Delete(app) == Response.Ok(app.(state := ApplicationState.Deleted))
  {
  }
}
