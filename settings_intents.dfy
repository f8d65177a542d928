/**
 * The two settings-screen fallback chains, `requestNotificationAccess` and
 * `openNotificationSettings`: each tries its candidate screens in a fixed
 * order and opens the first one whose launch does not throw; when every
 * launch throws, the failure is logged and nothing escapes.
 */
module SettingsIntents {
  import opened Wrappers

  /** A settings screen the activity asks the platform to open (every intent also carries FLAG_ACTIVITY_NEW_TASK). */
  datatype Screen =
    | ListenerSettingsByName
      // Intent built from the literal action "android.settings.ACTION_NOTIFICATION_LISTENER_SETTINGS"
    | ListenerSettings
      // Intent built from the platform constant Settings.ACTION_NOTIFICATION_LISTENER_SETTINGS
    | AppNotificationSettings(appPackage: string)
      // Settings.ACTION_APP_NOTIFICATION_SETTINGS with EXTRA_APP_PACKAGE
    | GeneralNotificationSettings
      // the literal action "android.settings.NOTIFICATION_SETTINGS"
    | AppDetailsSettings(data: string)
      // Settings.ACTION_APPLICATION_DETAILS_SETTINGS with a "package:" URI

  /** The URI naming the application on its details screen. */
  function PackageUri(pkg: string): string
  {
    "package:" + pkg
  }

  /** The candidates of `requestNotificationAccess`, most specific first. */
  function RequestAccessChain(pkg: string): seq<Screen>
  {
    [ListenerSettingsByName, ListenerSettings, AppNotificationSettings(pkg), AppDetailsSettings(PackageUri(pkg))]
  }

  /** The candidates of `openNotificationSettings`, most specific first. */
  function OpenSettingsChain(pkg: string): seq<Screen>
  {
    [AppNotificationSettings(pkg), GeneralNotificationSettings, AppDetailsSettings(PackageUri(pkg))]
  }

  /** What a chain did: the screen it launched, if any, and the screens it tried, in order. */
  datatype Attempt = Attempt(launched: Option<Screen>, attempted: seq<Screen>)

  /**
   * The nested try/catch: launch the first candidate; if that throws, run
   * the rest of the chain. `launches(s)` says whether `startActivity` for
   * screen `s` returns normally.
   */
  function TryChain(chain: seq<Screen>, launches: Screen -> bool): (r: Attempt)
    ensures r.attempted <= chain
    ensures r.launched.None? <==> forall i :: 0 <= i < |chain| ==> !launches(chain[i])
    ensures r.launched.None? ==> r.attempted == chain
    ensures r.launched.Some? ==>
      |r.attempted| > 0 && r.launched.value == r.attempted[|r.attempted| - 1] && launches(r.launched.value)
    ensures forall i :: 0 <= i < |r.attempted| - 1 ==> !launches(r.attempted[i])
  {
    if chain == [] then Attempt(None, [])
    else if launches(chain[0]) then Attempt(Some(chain[0]), [chain[0]])
    else
      var rest := TryChain(chain[1..], launches);
      assert forall i :: 0 < i < |chain| ==> chain[i] == chain[1..][i - 1];
      Attempt(rest.launched, [chain[0]] + rest.attempted)
  }

  /** Screens tried before the first success all failed: the launched screen is the first that launches. */
  lemma {:induction false} OpensFirstLaunchable(chain: seq<Screen>, launches: Screen -> bool, k: nat)
    requires k < |chain| && launches(chain[k])
    requires forall i :: 0 <= i < k ==> !launches(chain[i])
    ensures TryChain(chain, launches) == Attempt(Some(chain[k]), chain[..k + 1])
  {
    if k > 0 {
      OpensFirstLaunchable(chain[1..], launches, k - 1);
      assert [chain[0]] + chain[1..][..k] == chain[..k + 1];
    }
  }

  /**
   * The chain as a loop over its candidates that stops at the first launch
   * that succeeds.
   */
  method OpenFirst(chain: seq<Screen>, launches: Screen -> bool) returns (launched: Option<Screen>, attempted: seq<Screen>)
    ensures Attempt(launched, attempted) == TryChain(chain, launches)
  {
    attempted := [];
    var i := 0;
    while i < |chain|
      invariant 0 <= i <= |chain|
      invariant attempted == chain[..i]
      invariant forall j :: 0 <= j < i ==> !launches(chain[j])
    {
      attempted := attempted + [chain[i]];
      if launches(chain[i]) {
        OpensFirstLaunchable(chain, launches, i);
        return Some(chain[i]), attempted;
      }
      i := i + 1;
    }
    assert attempted == chain;
    launched := None;
  }

  /** `requestNotificationAccess`: at most four attempts, first success wins. */
  method RequestNotificationAccess(pkg: string, launches: Screen -> bool) returns (launched: Option<Screen>, attempted: seq<Screen>)
    ensures Attempt(launched, attempted) == TryChain(RequestAccessChain(pkg), launches)
    ensures 1 <= |attempted| <= 4
  {
    launched, attempted := OpenFirst(RequestAccessChain(pkg), launches);
    assert attempted[..1] == [ListenerSettingsByName];
  }

  /** `openNotificationSettings`: at most three attempts, first success wins. */
  method OpenNotificationSettings(pkg: string, launches: Screen -> bool) returns (launched: Option<Screen>, attempted: seq<Screen>)
    ensures Attempt(launched, attempted) == TryChain(OpenSettingsChain(pkg), launches)
    ensures 1 <= |attempted| <= 3
  {
    launched, attempted := OpenFirst(OpenSettingsChain(pkg), launches);
    assert attempted[..1] == [AppNotificationSettings(pkg)];
  }

  /** The general app-details screen is reached only after every listener-specific screen failed. */
  lemma AppDetailsIsLastResort(pkg: string, launches: Screen -> bool)
    ensures TryChain(RequestAccessChain(pkg), launches).launched == Some(AppDetailsSettings(PackageUri(pkg))) <==>
      !launches(ListenerSettingsByName) && !launches(ListenerSettings)
      && !launches(AppNotificationSettings(pkg)) && launches(AppDetailsSettings(PackageUri(pkg)))
    ensures TryChain(OpenSettingsChain(pkg), launches).launched == Some(AppDetailsSettings(PackageUri(pkg))) <==>
      !launches(AppNotificationSettings(pkg)) && !launches(GeneralNotificationSettings)
      && launches(AppDetailsSettings(PackageUri(pkg)))
  {
    var r := RequestAccessChain(pkg);
    if launches(r[0]) { OpensFirstLaunchable(r, launches, 0); }
    else if launches(r[1]) { OpensFirstLaunchable(r, launches, 1); }
    else if launches(r[2]) { OpensFirstLaunchable(r, launches, 2); }
    else if launches(r[3]) { OpensFirstLaunchable(r, launches, 3); }
    var o := OpenSettingsChain(pkg);
    if launches(o[0]) { OpensFirstLaunchable(o, launches, 0); }
    else if launches(o[1]) { OpensFirstLaunchable(o, launches, 1); }
    else if launches(o[2]) { OpensFirstLaunchable(o, launches, 2); }
  }
}
