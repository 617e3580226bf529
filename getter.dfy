/** The Kubernetes namespace name of an application in a region, and the lookup of a
    condition in a resource's status conditions. */
module Getter {
  import opened Wrappers

  datatype NamespaceMode = Fixed | AppId | OtherMode(name: string)

  /** A region's `namespaceConf`: the mode, the fixed name, and an optional prefix. */
  datatype NamespaceConf = NamespaceConf(mode: NamespaceMode, fixed: string, prefix: Option<string>)

  /** `GetApplicationNamespace(region, appid)`, with the region's optional `namespaceConf`. */
  function GetApplicationNamespace(conf: Option<NamespaceConf>, appid: string): (r: string)
    ensures conf.Some? && conf.value.mode == Fixed ==> r == conf.value.fixed
    ensures conf.Some? && conf.value.mode == AppId ==>
      |r| >= |appid| && r[|r| - |appid|..] == appid
      && r[..|r| - |appid|] == conf.value.prefix.GetOr("")
    ensures (conf.None? || conf.value.mode.OtherMode?) ==> r == appid
  {
    if conf.Some? && conf.value.mode == Fixed then conf.value.fixed
    else if conf.Some? && conf.value.mode == AppId then
      var prefix := if conf.value.prefix.Some? && conf.value.prefix.value != "" then conf.value.prefix.value else "";
      prefix + appid
    else appid
  }

  /** One status condition: its `type` and `status`. */
  datatype Condition = Condition(condType: string, status: string)

  /** `isConditionTrue(type, conditions)`: the first condition of that type decides. */
  function IsConditionTrue(condType: string, conditions: Option<seq<Condition>>): (r: bool)
    ensures r <==>
      && conditions.Some? && FirstIndex(condType, conditions.value).Some?
      && conditions.value[FirstIndex(condType, conditions.value).value].status == "True"
  {
    if conditions.Some? then
      ConditionFirstMatch(condType, conditions.value);
      FirstMatchTrue(condType, conditions.value)
    else false
  }

  function FirstMatchTrue(condType: string, cs: seq<Condition>): bool {
    if cs == [] then false
    else if cs[0].condType == condType then cs[0].status == "True"
    else FirstMatchTrue(condType, cs[1..])
  }

  /** Index of the first condition of a type, if any. */
  function FirstIndex(condType: string, cs: seq<Condition>): (r: Option<nat>)
    ensures r.Some? ==> r.value < |cs| && cs[r.value].condType == condType
    ensures r.Some? ==> forall j :: 0 <= j < r.value ==> cs[j].condType != condType
    ensures r.None? ==> forall j :: 0 <= j < |cs| ==> cs[j].condType != condType
  {
    if cs == [] then None
    else if cs[0].condType == condType then Some(0)
    else match FirstIndex(condType, cs[1..])
      case None => None
      case Some(k) => Some(k + 1)
  }

  // ---------------------------------------------------------------------------
  // Properties

  /** The result is true exactly when some condition has the type and the first such
      condition has status `'True'`; missing conditions and no match give false. */
  lemma {:induction false} ConditionFirstMatch(condType: string, cs: seq<Condition>)
    ensures FirstMatchTrue(condType, cs) <==>
      FirstIndex(condType, cs).Some? && cs[FirstIndex(condType, cs).value].status == "True"
  {
    if cs != [] && cs[0].condType != condType {
      ConditionFirstMatch(condType, cs[1..]);
    }
  }

  /** No conditions, or none of the type, give false. */
  lemma ConditionAbsentIsFalse(condType: string, conditions: Option<seq<Condition>>)
    requires conditions.None? || forall j :: 0 <= j < |conditions.value| ==> conditions.value[j].condType != condType
    ensures !IsConditionTrue(condType, conditions)
  {
    if conditions.Some? {
      ConditionFirstMatch(condType, conditions.value);
    }
  }

  /** Conditions after the first match are never consulted. */
  lemma {:induction false} LaterDuplicatesIgnored(condType: string, cs: seq<Condition>, later: seq<Condition>)
    requires FirstIndex(condType, cs).Some?
    ensures FirstMatchTrue(condType, cs + later) == FirstMatchTrue(condType, cs)
  {
    if cs[0].condType != condType {
      assert (cs + later)[1..] == cs[1..] + later;
      LaterDuplicatesIgnored(condType, cs[1..], later);
    }
  }
}
