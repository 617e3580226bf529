/** The application service: the resource quota derived from a bundle request, the
    application id generator and its bounded retry against existing ids, and the records
    that creating, removing and re-bundling an application write. */
module ApplicationService {
  import opened Wrappers

  datatype ApplicationState = Running | Stopped | Restarting | Deleted

  datatype ApplicationPhase = Creating | Created | Starting | Started | Stopping | Stopped | Deleting | Deleted

  /** An application record, as far as the fields these operations write. */
  datatype Application = Application(
    appid: string, name: string, state: ApplicationState, phase: ApplicationPhase, tags: seq<string>)

  /** The bundle request: CPU (milli-cores), memory (MB) and the two capacities. */
  datatype BundleRequest = BundleRequest(cpu: nat, memory: nat, databaseCapacity: nat, storageCapacity: nat)

  /** `ApplicationBundleResource`. */
  datatype BundleResource = BundleResource(
    limitCPU: nat, limitMemory: nat, requestCPU: nat, requestMemory: nat,
    databaseCapacity: nat, storageCapacity: nat,
    limitCountOfCloudFunction: nat, limitCountOfBucket: nat, limitCountOfDatabasePolicy: nat,
    limitCountOfTrigger: nat, limitCountOfWebsiteHosting: nat,
    limitDatabaseTPS: nat, limitStorageTPS: nat, reservedTimeAfterExpired: nat)

  /** `ApplicationBundle`: None for `isTrialTier` means the field is absent. */
  datatype Bundle = Bundle(appid: string, resource: BundleResource, isTrialTier: Option<bool>)

  /** 31 days in seconds. */
  const RESERVED_TIME_AFTER_EXPIRED: nat := 60 * 60 * 24 * 31

  function Max(a: nat, b: nat): nat { if a >= b then a else b }

  /** `buildBundleResource(dto)`: requests are a tenth of the CPU and half the memory, the
      counts follow the CPU, with floors of 3 (buckets, policies, websites) and 1 (triggers). */
  function BuildBundleResource(dto: BundleRequest): (r: BundleResource)
    ensures r.limitCPU == dto.cpu && r.limitMemory == dto.memory
    ensures r.databaseCapacity == dto.databaseCapacity && r.storageCapacity == dto.storageCapacity
    ensures r.requestCPU * 10 <= dto.cpu < (r.requestCPU + 1) * 10
    ensures r.requestMemory * 2 <= dto.memory < (r.requestMemory + 1) * 2
    ensures r.limitCountOfCloudFunction == dto.cpu && r.limitStorageTPS == dto.cpu
    ensures r.limitDatabaseTPS == r.requestCPU
    ensures r.limitCountOfBucket >= 3 && r.limitCountOfDatabasePolicy >= 3
    ensures r.limitCountOfWebsiteHosting >= 3 && r.limitCountOfTrigger >= 1
    ensures r.limitCountOfBucket == r.limitCountOfDatabasePolicy == r.limitCountOfWebsiteHosting
    ensures dto.cpu >= 300 ==> r.limitCountOfBucket * 100 <= dto.cpu < (r.limitCountOfBucket + 1) * 100
    ensures dto.cpu < 300 ==> r.limitCountOfBucket == 3
    ensures dto.cpu >= 100 ==> r.limitCountOfTrigger * 100 <= dto.cpu < (r.limitCountOfTrigger + 1) * 100
    ensures dto.cpu < 200 ==> r.limitCountOfTrigger == 1
    ensures r.reservedTimeAfterExpired == 2678400
  {
    var requestCPU := dto.cpu / 10;
    var requestMemory := dto.memory / 2;
    var magicNumber := dto.cpu / 100;
    BundleResource(
      limitCPU := dto.cpu, limitMemory := dto.memory,
      requestCPU := requestCPU, requestMemory := requestMemory,
      databaseCapacity := dto.databaseCapacity, storageCapacity := dto.storageCapacity,
      limitCountOfCloudFunction := dto.cpu,
      limitCountOfBucket := Max(3, magicNumber),
      limitCountOfDatabasePolicy := Max(3, magicNumber),
      limitCountOfTrigger := Max(1, magicNumber),
      limitCountOfWebsiteHosting := Max(3, magicNumber),
      limitDatabaseTPS := dto.cpu / 10,
      limitStorageTPS := dto.cpu,
      reservedTimeAfterExpired := RESERVED_TIME_AFTER_EXPIRED)
  }

  /** A larger request never gets a smaller quota. */
  lemma BundleResourceMonotone(a: BundleRequest, b: BundleRequest)
    requires a.cpu <= b.cpu && a.memory <= b.memory
    ensures var ra, rb := BuildBundleResource(a), BuildBundleResource(b);
      && ra.requestCPU <= rb.requestCPU && ra.requestMemory <= rb.requestMemory
      && ra.limitCountOfBucket <= rb.limitCountOfBucket && ra.limitCountOfTrigger <= rb.limitCountOfTrigger
      && ra.limitDatabaseTPS <= rb.limitDatabaseTPS && ra.limitStorageTPS <= rb.limitStorageTPS
  {
  }

  // ---------------------------------------------------------------------------
  // Application ids

  const ALPHA: string := "abcdefghijklmnopqrstuvwxyz"
  const ALPHANUMERIC: string := "abcdefghijklmnopqrstuvwxyz0123456789"

  predicate IsLowerAlpha(c: char) { 'a' <= c <= 'z' }
  predicate IsLowerAlphaNumeric(c: char) { 'a' <= c <= 'z' || '0' <= c <= '9' }

  /** Every character the first position draws from is a lower-case letter. */
  lemma AlphaChars(k: nat)
    requires k < |ALPHA|
    ensures IsLowerAlpha(ALPHA[k])
  {
  }

  /** Every character the other positions draw from is a lower-case letter or a digit. */
  lemma AlphaNumericChars(k: nat)
    requires k < |ALPHANUMERIC|
    ensures IsLowerAlphaNumeric(ALPHANUMERIC[k])
  {
  }

  /** `generateAppID(len)`: `len || 6` characters, drawn by `random` (the position to a
      random number): a letter first, then letters or digits. */
  function GenerateAppID(len: nat, random: nat -> nat): (id: string)
    ensures |id| == if len == 0 then 6 else len
    ensures IsLowerAlpha(id[0])
    ensures forall i :: 1 <= i < |id| ==> IsLowerAlphaNumeric(id[i])
  {
    var n := if len == 0 then 6 else len;
    var prefix := ALPHA[random(0) % |ALPHA|];
    var rest := seq(n - 1, i requires 0 <= i < n - 1 => ALPHANUMERIC[random(i + 1) % |ALPHANUMERIC|]);
    AlphaChars(random(0) % |ALPHA|);
    assert forall i :: 0 <= i < n - 1 ==> IsLowerAlphaNumeric(rest[i]) by {
      forall i | 0 <= i < n - 1 ensures IsLowerAlphaNumeric(rest[i]) {
        AlphaNumericChars(random(i + 1) % |ALPHANUMERIC|);
      }
    }
    [prefix] + rest
  }

  const MAX_APPID_ATTEMPTS: nat := 10

  /** `tryGenerateUniqueAppid()`: up to ten fresh candidates (attempt i draws with
      `random(i)`); the first one not already used is returned. */
  method TryGenerateUniqueAppid(appidLength: nat, random: nat -> nat -> nat, existing: set<string>)
    returns (r: Result<string, string>)
    ensures r.Ok? ==> exists i :: 0 <= i < MAX_APPID_ATTEMPTS && FirstFreeAt(appidLength, random, existing, i) && r.value == GenerateAppID(appidLength, random(i))
    ensures r.Ok? ==> r.value !in existing
    ensures r.Err? ==> r.error == "Generate appid failed"
    ensures r.Err? ==> forall i :: 0 <= i < MAX_APPID_ATTEMPTS ==> GenerateAppID(appidLength, random(i)) in existing
  {
    for i := 0 to MAX_APPID_ATTEMPTS
      invariant forall j :: 0 <= j < i ==> GenerateAppID(appidLength, random(j)) in existing
    {
      var appid := GenerateAppID(appidLength, random(i));
      if appid !in existing {
        assert FirstFreeAt(appidLength, random, existing, i);
        return Ok(appid);
      }
    }
    return Err("Generate appid failed");
  }

  /** Attempt i is the first whose candidate is not already used. */
  predicate FirstFreeAt(appidLength: nat, random: nat -> nat -> nat, existing: set<string>, i: nat) {
    && GenerateAppID(appidLength, random(i)) !in existing
    && forall j :: 0 <= j < i ==> GenerateAppID(appidLength, random(j)) in existing
  }

  // ---------------------------------------------------------------------------
  // Records written by create, remove and updateBundle

  /** The application `create` inserts: the requested state or Running, phase Creating, no tags. */
  function NewApplication(appid: string, name: string, state: Option<ApplicationState>): (a: Application)
    ensures a.appid == appid && a.name == name
    ensures a.state == (if state.Some? then state.value else Running)
    ensures a.phase == Creating && a.tags == []
  {
    Application(appid, name, state.GetOr(Running), Creating, [])
  }

  /** The bundle `create` inserts. */
  function NewBundle(appid: string, dto: BundleRequest, isTrialTier: bool): (b: Bundle)
    ensures b.resource == BuildBundleResource(dto) && b.isTrialTier == Some(isTrialTier)
  {
    Bundle(appid, BuildBundleResource(dto), Some(isTrialTier))
  }

  /** `remove(appid)`: the application marked Deleted, every other field kept. */
  function Removed(app: Application): (a: Application)
    ensures a.state == ApplicationState.Deleted && a.phase == app.phase
    ensures a.(state := app.state) == app
  {
    app.(state := ApplicationState.Deleted)
  }

  /** `updateState(appid, state)`: only the state changes. */
  function WithState(app: Application, state: ApplicationState): (a: Application)
    ensures a.state == state && a.(state := app.state) == app
  {
    app.(state := state)
  }

  /** `updateBundle(appid, dto)`: a resource rebuilt from the request, and `isTrialTier`
      removed whatever it was. */
  function UpdatedBundle(bundle: Bundle, dto: BundleRequest): (b: Bundle)
    ensures b.appid == bundle.appid && b.resource == BuildBundleResource(dto) && b.isTrialTier.None?
  {
    Bundle(bundle.appid, BuildBundleResource(dto), None)
  }

  /** The re-bundling the controller asks for: the trial flag it passes recorded. */
  function UpdatedBundleWithTier(bundle: Bundle, dto: BundleRequest, isTrialTier: bool): (b: Bundle)
    ensures b.appid == bundle.appid && b.resource == BuildBundleResource(dto)
    ensures b.isTrialTier == Some(isTrialTier)
  {
    Bundle(bundle.appid, BuildBundleResource(dto), Some(isTrialTier))
  }

  /** As written, re-bundling into the trial tier loses the flag `create` recorded. */
  lemma UpdateBundleLosesTrialFlag(bundle: Bundle, dto: BundleRequest)
    ensures UpdatedBundle(bundle, dto).isTrialTier != NewBundle(bundle.appid, dto, true).isTrialTier
    ensures UpdatedBundleWithTier(bundle, dto, true).isTrialTier == NewBundle(bundle.appid, dto, true).isTrialTier
  {
  }

  /** Removing is idempotent and keeps the phase. */
  lemma RemoveIdempotent(app: Application)
    ensures Removed(Removed(app)) == Removed(app)
    ensures Removed(app).phase == app.phase
  {
  }
}
