/** The command-line dependency actions: pulling the server's dependency list into
    `package.json` and the project file, pushing local dependencies to the server (add or
    update each), and adding one dependency. */
module Dependency {
  import opened Wrappers
  import Js

  /** A dependency as the server lists it. */
  datatype Dependency = Dependency(name: string, spec: string, builtin: bool)

  /** A request sent to the server's dependency API. */
  datatype ApiCall = AddCall(name: string, spec: string) | UpdateCall(name: string, spec: string)

  /** The name-to-spec object built from a dependency list, later entries overwriting
      earlier ones. */
  function DevMap(deps: seq<Dependency>): map<string, string>
    decreases |deps|
  {
    if deps == [] then map[]
    else DevMap(deps[..|deps| - 1])[deps[|deps| - 1].name := deps[|deps| - 1].spec]
  }

  /** The same for the entries that are not built in. */
  function LocalMap(deps: seq<Dependency>): map<string, string>
    decreases |deps|
  {
    if deps == [] then map[]
    else
      var rest := LocalMap(deps[..|deps| - 1]);
      var last := deps[|deps| - 1];
      if last.builtin then rest else rest[last.name := last.spec]
  }

  /** `{ name: spec, ... }` as a JSON object. */
  function SpecsObject(m: map<string, string>): Js.Value {
    Js.Obj(map k | k in m :: Js.Str(m[k]))
  }

  function Names(deps: seq<Dependency>): set<string> {
    set i | 0 <= i < |deps| :: deps[i].name
  }

  /** The spec `add` requests: `latest` unless a target version is given. */
  function AddSpec(targetVersion: Option<string>): (spec: string)
    ensures targetVersion.Some? && targetVersion.value != "" ==> spec == targetVersion.value
    ensures targetVersion.None? || targetVersion.value == "" ==> spec == "latest"
  {
    if targetVersion.Some? && targetVersion.value != "" then targetVersion.value else "latest"
  }

  // ---------------------------------------------------------------------------
  // Properties of the dictionaries

  /** The keys are exactly the names on the list. */
  lemma {:induction false} DevMapKeys(deps: seq<Dependency>)
    ensures DevMap(deps).Keys == Names(deps)
    decreases |deps|
  {
    if deps != [] {
      var init := deps[..|deps| - 1];
      DevMapKeys(init);
      assert Names(deps) == Names(init) + {deps[|deps| - 1].name} by {
        forall x | x in Names(deps) ensures x in Names(init) + {deps[|deps| - 1].name} {
          var i :| 0 <= i < |deps| && deps[i].name == x;
          if i < |deps| - 1 { assert init[i] == deps[i]; }
        }
        forall x | x in Names(init) ensures x in Names(deps) {
          var i :| 0 <= i < |init| && init[i].name == x;
          assert deps[i] == init[i];
        }
      }
    }
  }

  /** Each name maps to the spec of its last entry on the list. */
  lemma {:induction false} DevMapLastWins(deps: seq<Dependency>, i: nat)
    requires i < |deps|
    requires forall j :: i < j < |deps| ==> deps[j].name != deps[i].name
    ensures deps[i].name in DevMap(deps) && DevMap(deps)[deps[i].name] == deps[i].spec
    decreases |deps|
  {
    if i < |deps| - 1 {
      var init := deps[..|deps| - 1];
      assert init[i] == deps[i];
      DevMapLastWins(init, i);
    }
  }

  /** The local keys are the names of the entries that are not built in. */
  lemma {:induction false} LocalMapKeys(deps: seq<Dependency>)
    ensures LocalMap(deps).Keys == set i | 0 <= i < |deps| && !deps[i].builtin :: deps[i].name
    decreases |deps|
  {
    if deps != [] {
      var init := deps[..|deps| - 1];
      LocalMapKeys(init);
      var last := deps[|deps| - 1];
      var want := set i | 0 <= i < |deps| && !deps[i].builtin :: deps[i].name;
      var was := set i | 0 <= i < |init| && !init[i].builtin :: init[i].name;
      assert want == was + (if last.builtin then {} else {last.name}) by {
        forall x | x in want ensures x in was + (if last.builtin then {} else {last.name}) {
          var i :| 0 <= i < |deps| && !deps[i].builtin && deps[i].name == x;
          if i < |deps| - 1 { assert init[i] == deps[i]; }
        }
        forall x | x in was ensures x in want {
          var i :| 0 <= i < |init| && !init[i].builtin && init[i].name == x;
          assert deps[i] == init[i];
        }
      }
    }
  }

  /** With distinct names the local object is a sub-map of the development one. */
  lemma {:induction false} LocalIsSubMap(deps: seq<Dependency>)
    requires forall i, j :: 0 <= i < j < |deps| ==> deps[i].name != deps[j].name
    ensures forall k :: k in LocalMap(deps) ==> k in DevMap(deps) && LocalMap(deps)[k] == DevMap(deps)[k]
    decreases |deps|
  {
    if deps != [] {
      var init := deps[..|deps| - 1];
      var last := deps[|deps| - 1];
      LocalIsSubMap(init);
      LocalMapKeys(init);
      forall k | k in LocalMap(init) ensures k != last.name {
        var i :| 0 <= i < |init| && !init[i].builtin && init[i].name == k;
        assert init[i] == deps[i];
      }
    }
  }

  /** With a repeated name the two objects can disagree: a non-built-in entry followed by
      a built-in one of the same name. */
  lemma LocalNotSubMapWithDuplicates()
    ensures var deps := [Dependency("a", "1", false), Dependency("a", "2", true)];
      LocalMap(deps)["a"] == "1" && DevMap(deps)["a"] == "2"
  {
    var deps := [Dependency("a", "1", false), Dependency("a", "2", true)];
    assert deps[..1] == [Dependency("a", "1", false)];
    assert deps[..1][..0] == [];
  }

  // ---------------------------------------------------------------------------
  // The actions, on the files and the server they touch

  /** The application's files (the top-level keys of `package.json` and the project file's
      dependency object) and the requests sent to the server so far. */
  class Project {
    var packageJson: map<string, Js.Value>
    var projectDependencies: map<string, string>
    var apiCalls: seq<ApiCall>

    constructor(packageJson: map<string, Js.Value>, projectDependencies: map<string, string>)
      ensures this.packageJson == packageJson && this.projectDependencies == projectDependencies
      ensures apiCalls == []
    {
      this.packageJson := packageJson;
      this.projectDependencies := projectDependencies;
      apiCalls := [];
    }

    /** `pullOne(updateYaml)`, given the list the server returns: `devDependencies` is
        replaced by all entries, and the project file's dependencies by the non-built-in
        ones when `updateYaml` holds. */
    method PullOne(dependencies: seq<Dependency>, updateYaml: bool)
      modifies this
      ensures packageJson == old(packageJson)["devDependencies" := SpecsObject(DevMap(dependencies))]
      ensures projectDependencies == if updateYaml then LocalMap(dependencies) else old(projectDependencies)
      ensures apiCalls == old(apiCalls)
    {
      var devDependencies: map<string, string> := map[];
      var localDependencies: map<string, string> := map[];
      for i := 0 to |dependencies|
        invariant devDependencies == DevMap(dependencies[..i])
        invariant localDependencies == LocalMap(dependencies[..i])
      {
        var dependency := dependencies[i];
        assert dependencies[..i + 1][..i] == dependencies[..i];
        devDependencies := devDependencies[dependency.name := dependency.spec];
        if !dependency.builtin {
          localDependencies := localDependencies[dependency.name := dependency.spec];
        }
      }
      assert dependencies[..|dependencies|] == dependencies;
      packageJson := packageJson["devDependencies" := SpecsObject(devDependencies)];
      if updateYaml {
        projectDependencies := localDependencies;
      }
    }

    /** `pull()`: `pullOne()` with the project file updated. */
    method Pull(dependencies: seq<Dependency>)
      modifies this
      ensures packageJson == old(packageJson)["devDependencies" := SpecsObject(DevMap(dependencies))]
      ensures projectDependencies == LocalMap(dependencies)
      ensures apiCalls == old(apiCalls)
    {
      PullOne(dependencies, true);
    }

    /** `push()`, given the server's list before and after: one request per local
        dependency, an add for a name the server lacks and an update otherwise, both with
        the local spec; then `pullOne(false)`. */
    method Push(serverDependencies: seq<Dependency>, refreshed: seq<Dependency>)
      modifies this
      ensures |apiCalls| == |old(apiCalls)| + |old(projectDependencies)|
      ensures apiCalls[..|old(apiCalls)|] == old(apiCalls)
      ensures PushRequests(apiCalls[|old(apiCalls)|..], old(projectDependencies), Names(serverDependencies))
      ensures packageJson == old(packageJson)["devDependencies" := SpecsObject(DevMap(refreshed))]
      ensures projectDependencies == old(projectDependencies)
    {
      var serverNames := ServerNames(serverDependencies);
      var calls := PushCalls(projectDependencies, serverNames);
      apiCalls := apiCalls + calls;
      PullOne(refreshed, false);
    }

    /** `add(name, { targetVersion })`, given the server's list afterwards: one add request
        with the chosen spec, then `pullOne()`. */
    method Add(dependencyName: string, targetVersion: Option<string>, refreshed: seq<Dependency>)
      modifies this
      ensures apiCalls == old(apiCalls) + [AddCall(dependencyName, AddSpec(targetVersion))]
      ensures packageJson == old(packageJson)["devDependencies" := SpecsObject(DevMap(refreshed))]
      ensures projectDependencies == LocalMap(refreshed)
    {
      apiCalls := apiCalls + [AddCall(dependencyName, AddSpec(targetVersion))];
      PullOne(refreshed, true);
    }
  }

  /** A request `push` may send for a local dependency: an add when the server lacks the
      name, an update otherwise, with the local spec. */
  predicate PushCall(call: ApiCall, local: map<string, string>, serverNames: set<string>) {
    call.name in local
    && (call.AddCall? <==> call.name !in serverNames)
    && call.spec == local[call.name]
  }

  /** The requests of one `push`: exactly one per local dependency, each as `PushCall` says. */
  predicate PushRequests(calls: seq<ApiCall>, local: map<string, string>, serverNames: set<string>) {
    && |calls| == |local.Keys|
    && PushPrefix(calls, local, serverNames)
    && CallNames(calls) == local.Keys
  }

  /** Requests as `PushCall` says, for pairwise different names. */
  predicate PushPrefix(calls: seq<ApiCall>, local: map<string, string>, serverNames: set<string>) {
    && (forall i :: 0 <= i < |calls| ==> PushCall(calls[i], local, serverNames))
    && (forall i, j :: 0 <= i < j < |calls| ==> calls[i].name != calls[j].name)
  }

  function CallNames(calls: seq<ApiCall>): set<string> {
    set i | 0 <= i < |calls| :: calls[i].name
  }

  lemma CallNamesSnoc(calls: seq<ApiCall>, call: ApiCall)
    ensures CallNames(calls + [call]) == CallNames(calls) + {call.name}
  {
    var all := calls + [call];
    forall x | x in CallNames(all) ensures x in CallNames(calls) + {call.name} {
      var i :| 0 <= i < |all| && all[i].name == x;
      if i < |calls| { assert all[i] == calls[i]; }
    }
    forall x | x in CallNames(calls) ensures x in CallNames(all) {
      var i :| 0 <= i < |calls| && calls[i].name == x;
      assert all[i] == calls[i];
    }
    assert all[|calls|] == call;
  }

  /** Appending a well-formed request for a name not yet requested keeps the prefix
      well-formed and adds the name. */
  lemma PushPrefixSnoc(calls: seq<ApiCall>, call: ApiCall, local: map<string, string>, serverNames: set<string>)
    requires PushPrefix(calls, local, serverNames)
    requires PushCall(call, local, serverNames) && call.name !in CallNames(calls)
    ensures PushPrefix(calls + [call], local, serverNames)
    ensures CallNames(calls + [call]) == CallNames(calls) + {call.name}
  {
    var all := calls + [call];
    forall i | 0 <= i < |all| ensures PushCall(all[i], local, serverNames) {
      if i < |calls| { assert all[i] == calls[i]; } else { assert all[i] == call; }
    }
    forall i, j | 0 <= i < j < |all| ensures all[i].name != all[j].name {
      assert all[i] == calls[i];
      if j < |calls| {
        assert all[j] == calls[j];
      } else {
        assert all[j] == call;
        assert calls[i].name in CallNames(calls);
      }
    }
    CallNamesSnoc(calls, call);
  }

  /** The name set `push` builds from the server's list. */
  method ServerNames(serverDependencies: seq<Dependency>) returns (serverNames: set<string>)
    ensures serverNames == Names(serverDependencies)
  {
    serverNames := {};
    for i := 0 to |serverDependencies|
      invariant serverNames == Names(serverDependencies[..i])
    {
      assert Names(serverDependencies[..i + 1]) == Names(serverDependencies[..i]) + {serverDependencies[i].name} by {
        assert serverDependencies[..i + 1] == serverDependencies[..i] + [serverDependencies[i]];
      }
      serverNames := serverNames + {serverDependencies[i].name};
    }
    assert serverDependencies[..|serverDependencies|] == serverDependencies;
  }

  /** The request `push` sends for one local key. */
  function CallFor(key: string, local: map<string, string>, serverNames: set<string>): (call: ApiCall)
    requires key in local
    ensures PushCall(call, local, serverNames) && call.name == key
  {
    if key in serverNames then UpdateCall(key, local[key]) else AddCall(key, local[key])
  }

  /** The state of the loop in `push`: the keys handled so far and those still to go
      partition the local keys, and the requests sent are one per handled key. */
  predicate PushState(calls: seq<ApiCall>, done: set<string>, remaining: set<string>,
                      local: map<string, string>, serverNames: set<string>) {
    && done + remaining == local.Keys && done !! remaining
    && |calls| == |done| && CallNames(calls) == done
    && PushPrefix(calls, local, serverNames)
  }

  /** Handling one more key keeps the loop state. */
  lemma PushStep(calls: seq<ApiCall>, done: set<string>, remaining: set<string>, key: string,
                 local: map<string, string>, serverNames: set<string>)
    requires PushState(calls, done, remaining, local, serverNames) && key in remaining
    ensures key in local
    ensures PushState(calls + [CallFor(key, local, serverNames)], done + {key}, remaining - {key}, local, serverNames)
    ensures |remaining - {key}| < |remaining|
  {
    var call := CallFor(key, local, serverNames);
    PushPrefixSnoc(calls, call, local, serverNames);
    assert |done + {key}| == |done| + 1;
  }

  /** Once no key remains, the requests are those of a whole `push`. */
  lemma PushDone(calls: seq<ApiCall>, done: set<string>, local: map<string, string>, serverNames: set<string>)
    requires PushState(calls, done, {}, local, serverNames)
    ensures PushRequests(calls, local, serverNames)
  {
    assert done == local.Keys;
  }

  /** The loop over the local dependencies in `push`, one request per key. */
  method PushCalls(local: map<string, string>, serverNames: set<string>) returns (calls: seq<ApiCall>)
    ensures PushRequests(calls, local, serverNames)
  {
    calls := [];
    var remaining := local.Keys;
    var done: set<string> := {};
    while remaining != {}
      invariant PushState(calls, done, remaining, local, serverNames)
      decreases |remaining|
    {
      var key :| key in remaining;
      PushStep(calls, done, remaining, key, local, serverNames);
      calls := calls + [CallFor(key, local, serverNames)];
      remaining := remaining - {key};
      done := done + {key};
    }
    PushDone(calls, done, local, serverNames);
  }
}
