/**
 * The settings page: the tab shown for a URL, the URL a tab click
 * navigates to, and the letter in the profile avatar.
 */
module Settings {
  import opened Opt
  import opened JsString
  import opened AuthContext

  const SettingsPath: string := "/settings"
  const SettingsPrefix: string := "/settings/"

  const Tabs: seq<string> := ["profile", "notifications", "api-keys", "billing", "security"]

  /** The path fragment `/settings/<tab>` that selects a tab. */
  function Marker(tab: string): string
  {
    SettingsPrefix + tab
  }

  /** `getTabValue`: the first marker the path contains, else the profile tab. */
  function GetTabValue(path: string): (tab: string)
    ensures tab in Tabs
    ensures tab == "api-keys" <==> Contains(path, Marker("api-keys"))
    ensures tab == "notifications" <==>
      !Contains(path, Marker("api-keys")) && Contains(path, Marker("notifications"))
    ensures tab == "billing" <==>
      !Contains(path, Marker("api-keys")) && !Contains(path, Marker("notifications"))
      && Contains(path, Marker("billing"))
    ensures tab == "security" <==>
      !Contains(path, Marker("api-keys")) && !Contains(path, Marker("notifications"))
      && !Contains(path, Marker("billing")) && Contains(path, Marker("security"))
    ensures tab == "profile" <==>
      !Contains(path, Marker("api-keys")) && !Contains(path, Marker("notifications"))
      && !Contains(path, Marker("billing")) && !Contains(path, Marker("security"))
  {
    if Contains(path, Marker("api-keys")) then "api-keys"
    else if Contains(path, Marker("notifications")) then "notifications"
    else if Contains(path, Marker("billing")) then "billing"
    else if Contains(path, Marker("security")) then "security"
    else "profile"
  }

  /** `handleTabChange`: the path `navigate` is called with. */
  function HandleTabChange(value: string): (path: string)
    ensures |path| >= |SettingsPath| && path[..|SettingsPath|] == SettingsPath
  {
    SettingsPath + (if value == "profile" then "" else "/" + value)
  }

  /**
   * Under `/settings/` a marker `/settings/x` occurs exactly when `x`
   * begins the rest of the path, provided neither contains a slash.
   */
  lemma {:induction false} ContainsUnderSettings(v: string, x: string)
    requires '/' !in v && '/' !in x
    ensures Contains(SettingsPrefix + v, SettingsPrefix + x) <==> |x| <= |v| && v[..|x|] == x
  {
    var hay, needle := SettingsPrefix + v, SettingsPrefix + x;
    ContainsIff(hay, needle);
    if |x| <= |v| && v[..|x|] == x {
      assert hay[0..|needle|] == needle;
      assert OccursAt(hay, needle, 0);
    }
    if i :| OccursAt(hay, needle, i) {
      assert hay[i] == needle[0] == '/' by {
        assert hay[i..i + |needle|][0] == needle[0];
      }
      assert hay[i + 9] == needle[9] == '/' by {
        assert hay[i..i + |needle|][9] == needle[9];
      }
      if i >= 1 {
        assert false;
      }
      assert i == 0;
      assert v[..|x|] == hay[10..|needle|] == needle[10..] == x;
    }
  }

  /** Clicking a tab and reading the tab back from the new URL gives the same tab. */
  lemma TabRoundTrip(v: string)
    requires v in Tabs
    ensures GetTabValue(HandleTabChange(v)) == v
  {
    var path := HandleTabChange(v);
    if v == "profile" {
      NotContainsLonger(path, Marker("api-keys"));
      NotContainsLonger(path, Marker("notifications"));
      NotContainsLonger(path, Marker("billing"));
      NotContainsLonger(path, Marker("security"));
    } else {
      assert path == SettingsPrefix + v;
      TabUnderSettings(v);
    }
  }

  /** The tab read back from `/settings/` followed by one of the four other tab values. */
  lemma TabUnderSettings(v: string)
    requires v in Tabs[1..]
    ensures GetTabValue(SettingsPrefix + v) == v
  {
    var path := SettingsPrefix + v;
    MarkerPresent(v);
    if v == "api-keys" {
    } else if v == "notifications" {
      MarkerAbsent(v, "api-keys");
    } else if v == "billing" {
      MarkerAbsent(v, "api-keys");
      MarkerAbsent(v, "notifications");
    } else {
      MarkerAbsent(v, "api-keys");
      MarkerAbsent(v, "notifications");
      MarkerAbsent(v, "billing");
    }
  }

  lemma MarkerPresent(v: string)
    requires '/' !in v
    ensures Contains(SettingsPrefix + v, Marker(v))
  {
    ContainsUnderSettings(v, v);
    assert v[..|v|] == v;
  }

  lemma MarkerAbsent(v: string, x: string)
    requires '/' !in v && '/' !in x && |v| > 0 && |x| > 0 && v[0] != x[0]
    ensures !Contains(SettingsPrefix + v, Marker(x))
  {
    ContainsUnderSettings(v, x);
  }

  lemma NotContainsLonger(hay: string, needle: string)
    requires |hay| < |needle|
    ensures !Contains(hay, needle)
  {
  }

  /** `getTabValue` maps the navigation bar's `/settings/profile` to profile. */
  lemma ProfileLink()
    ensures GetTabValue("/settings/profile") == "profile"
  {
    assert "/settings/profile" == SettingsPrefix + "profile";
    MarkerAbsent("profile", "api-keys");
    MarkerAbsent("profile", "notifications");
    MarkerAbsent("profile", "billing");
    MarkerAbsent("profile", "security");
  }

  /** `v` begins with `x`. */
  predicate StartsWith(v: string, x: string)
  {
    |x| <= |v| && v[..|x|] == x
  }

  /** `getTabValue` maps any `/settings/<v>` whose `v` starts with none of the four other tab names to profile. */
  lemma UnrecognisedIsProfile(v: string)
    requires '/' !in v
    requires !StartsWith(v, "api-keys") && !StartsWith(v, "notifications")
    requires !StartsWith(v, "billing") && !StartsWith(v, "security")
    ensures GetTabValue(SettingsPrefix + v) == "profile"
  {
    ContainsUnderSettings(v, "api-keys");
    ContainsUnderSettings(v, "notifications");
    ContainsUnderSettings(v, "billing");
    ContainsUnderSettings(v, "security");
  }

  /** `user?.name?.charAt(0) || 'U'`. */
  function AvatarInitial(user: Option<User>): (s: string)
    ensures |s| == 1
    ensures user.Some? && user.value.name != "" ==> s[0] == user.value.name[0]
    ensures user.None? || user.value.name == "" ==> s == "U"
  {
    if user.Some? && user.value.name != "" then [user.value.name[0]] else "U"
  }
}
