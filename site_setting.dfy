/** The web console's site-settings store: the settings list fetched from the server is
    turned into an object keyed by each setting's `key` (a `reduce` into an accumulator),
    which then replaces the stored settings. */
module SiteSetting {
  import opened Js

  /** `TSetting`: its key and the rest of the record, kept as it was received. */
  datatype Setting = Setting(key: string, fields: map<string, Value>)

  /** The object the `reduce` builds from a prefix of the list: each element in turn is
      stored under its key, so a later element replaces an earlier one. */
  function Keyed(settings: seq<Setting>): map<string, Setting>
    decreases |settings|
  {
    if |settings| == 0 then map[]
    else
      var last := settings[|settings| - 1];
      Keyed(settings[..|settings| - 1])[last.key := last]
  }

  /** The keys a list carries. */
  function Keys(settings: seq<Setting>): set<string> {
    set i | 0 <= i < |settings| :: settings[i].key
  }

  /** The index of an element that no later element shares its key with. */
  predicate LastWithKey(settings: seq<Setting>, i: nat) {
    i < |settings| && forall j :: i < j < |settings| ==> settings[j].key != settings[i].key
  }

  /** The store. */
  class SiteSettingStore {
    var siteSettings: map<string, Setting>

    constructor ()
      ensures siteSettings == map[]
    {
      siteSettings := map[];
    }

    /** `getSiteSettings()`, given the list the server returned: the reduction, then the
        assignment of its result to `siteSettings`. */
    method GetSiteSettings(settings: seq<Setting>)
      modifies this
      ensures siteSettings == Keyed(settings)
    {
      var acc: map<string, Setting> := map[];
      for i := 0 to |settings|
        invariant acc == Keyed(settings[..i])
      {
        assert settings[..i + 1][..i] == settings[..i];
        acc := acc[settings[i].key := settings[i]];
      }
      assert settings[..|settings|] == settings;
      siteSettings := acc;
    }
  }

  // ---------------------------------------------------------------------------
  // Properties

  /** The resulting object has exactly the keys of the list. */
  lemma {:induction false} KeyedKeys(settings: seq<Setting>)
    ensures Keyed(settings).Keys == Keys(settings)
    decreases |settings|
  {
    if |settings| > 0 {
      var init := settings[..|settings| - 1];
      KeyedKeys(init);
      forall k | k in Keys(settings) ensures k in Keys(init) + {settings[|settings| - 1].key} {
        var i :| 0 <= i < |settings| && settings[i].key == k;
        if i < |init| { assert init[i] == settings[i]; }
      }
      forall k | k in Keys(init) ensures k in Keys(settings) {
        var i :| 0 <= i < |init| && init[i].key == k;
        assert settings[i] == init[i];
      }
    }
  }

  /** Each key is mapped to the last element that carries it. */
  lemma {:induction false} KeyedLastWins(settings: seq<Setting>, i: nat)
    requires LastWithKey(settings, i)
    ensures settings[i].key in Keyed(settings)
    ensures Keyed(settings)[settings[i].key] == settings[i]
    decreases |settings|
  {
    var n := |settings|;
    if i < n - 1 {
      var init := settings[..n - 1];
      assert LastWithKey(init, i) by {
        forall j | i < j < |init| ensures init[j].key != init[i].key {
          assert init[j] == settings[j] && init[i] == settings[i];
        }
      }
      KeyedLastWins(init, i);
      assert settings[n - 1].key != settings[i].key;
      assert init[i] == settings[i];
    }
  }

  /** Every stored value is an element of the list, stored under its own key. */
  lemma {:induction false} KeyedValuesFromList(settings: seq<Setting>, k: string)
    requires k in Keyed(settings)
    ensures Keyed(settings)[k].key == k
    ensures exists i: nat :: LastWithKey(settings, i) && settings[i] == Keyed(settings)[k]
    decreases |settings|
  {
    var n := |settings|;
    var init := settings[..n - 1];
    var last := settings[n - 1];
    if k == last.key {
      assert LastWithKey(settings, n - 1);
    } else {
      KeyedValuesFromList(init, k);
      var i: nat :| LastWithKey(init, i) && init[i] == Keyed(init)[k];
      assert settings[i] == init[i];
      assert LastWithKey(settings, i) by {
        forall j | i < j < n ensures settings[j].key != settings[i].key {
          if j < n - 1 { assert init[j] == settings[j]; }
        }
      }
    }
  }

  /** An empty list gives an empty object. */
  lemma EmptyListGivesEmptyObject()
    ensures Keyed([]) == map[]
  {
  }

  /** The stored settings are replaced, not merged: whatever was stored before, two stores
      that fetch the same list hold the same settings afterwards. */
  method ReplacedWholesale(a: SiteSettingStore, b: SiteSettingStore, settings: seq<Setting>)
    requires a != b
    modifies a, b
    ensures a.siteSettings == b.siteSettings
    ensures a.siteSettings.Keys == Keys(settings)
  {
    a.GetSiteSettings(settings);
    b.GetSiteSettings(settings);
    KeyedKeys(settings);
  }
}
