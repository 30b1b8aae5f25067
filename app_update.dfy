/**
 * The renderer's own update check: its component-wise version comparison, the loop that picks
 * the download for the browser's platform, and the update prompt state it sets. The `fetch` of
 * the latest release is not part of this model: its decoded answer is a parameter.
 */
module AppUpdate {
  import opened Wrappers
  import opened Text
  import opened Lists
  import opened Updater

  /** The version the renderer reports. */
  const AppVersion: string := "1.0.0"

  /** The update offered in the modal. */
  datatype UpdateInfo = UpdateInfo(version: string, changelog: string, downloadUrl: string)

  /**
   * `compareVersions` of the renderer: the component loop of the shared updater, without
   * stripping a leading `v` (the caller strips the release tag).
   */
  method CompareVersionStrings(v1: string, v2: string) returns (r: int)
    ensures r == CompareParts(Components(v1), Components(v2))
  {
    var parts1 := Components(v1);
    var parts2 := Components(v2);
    var n := Width(parts1, parts2);
    var i := 0;
    while i < n
      invariant i <= n
      invariant CompareBelow(parts1, parts2, i, n) == CompareParts(parts1, parts2)
    {
      var p1 := Part(parts1, i);
      var p2 := Part(parts2, i);
      if p1 > p2 {
        return 1;
      }
      if p1 < p2 {
        return -1;
      }
      i := i + 1;
    }
    return 0;
  }

  /** Inside the comparison a leading `v` makes the component `NaN`, hence 0: `v2` is older than `1`. */
  lemma NoStripInside()
    ensures CompareParts(Components("v2"), Components("1")) == -1
  {
    SplitWithout("v2", '.');
    SplitWithout("1", '.');
    assert !IsDigit("v2"[0]);
    assert JsNumber("v2").None? by {
      TrimOfTrimmed("v2");
    }
    JsNumberDigit('1');
    var xs, ys := Components("v2"), Components("1");
    CompareBelowFirstDifference(xs, ys, 0, 0, Width(xs, ys));
  }

  /**
   * For a tag with at most one leading `v`, the renderer's decision agrees with the `isNewer`
   * flag of the shared updater.
   */
  lemma AgreesWithUpdater(tag: string)
    requires StripV(tag) == [] || StripV(tag)[0] != 'v'
    ensures CompareParts(Components(StripV(tag)), Components(AppVersion)) == Updater.CompareVersions(StripV(tag), CurrentVersion)
  {
  }

  /** The platform rule of the asset loop; `platform` is already lower-cased. */
  predicate Fits(platform: string, name: string) {
    || (Contains(platform, "win") && Contains(name, "Setup") && EndsWith(name, ".exe"))
    || (Contains(platform, "mac") && EndsWith(name, ".dmg"))
    || (Contains(platform, "linux") && EndsWith(name, ".AppImage"))
  }

  function FitsOn(platform: string): Asset -> bool {
    (a: Asset) => Fits(platform, a.name)
  }

  /** The URL the loop settles on: the first fitting asset's, else the release page. */
  function DownloadUrl(assets: seq<Asset>, platform: string, htmlUrl: string): string {
    match Find(assets, FitsOn(platform))
    case Some(a) => a.url
    case None => htmlUrl
  }

  /** The asset loop: `downloadUrl` starts as the release page and the first fitting asset ends the loop. */
  method SelectDownloadUrl(assets: seq<Asset>, platform: string, htmlUrl: string) returns (url: string)
    ensures url == DownloadUrl(assets, platform, htmlUrl)
  {
    url := htmlUrl;
    var i := 0;
    while i < |assets|
      invariant i <= |assets|
      invariant forall j :: 0 <= j < i ==> !Fits(platform, assets[j].name)
      invariant url == htmlUrl
    {
      var asset := assets[i];
      if Contains(platform, "win") && Contains(asset.name, "Setup") && EndsWith(asset.name, ".exe") {
        url := asset.url;
        FindFirst(assets, FitsOn(platform), i);
        break;
      } else if Contains(platform, "mac") && EndsWith(asset.name, ".dmg") {
        url := asset.url;
        FindFirst(assets, FitsOn(platform), i);
        break;
      } else if Contains(platform, "linux") && EndsWith(asset.name, ".AppImage") {
        url := asset.url;
        FindFirst(assets, FitsOn(platform), i);
        break;
      }
      i := i + 1;
    }
  }

  /** The first asset that fits is the download. */
  lemma DownloadUrlFirstFit(assets: seq<Asset>, platform: string, htmlUrl: string, i: nat)
    requires i < |assets| && Fits(platform, assets[i].name)
    requires forall j :: 0 <= j < i ==> !Fits(platform, assets[j].name)
    ensures DownloadUrl(assets, platform, htmlUrl) == assets[i].url
  {
    FindFirst(assets, FitsOn(platform), i);
  }

  /** Without a fitting asset the release page is offered. */
  lemma DownloadUrlNoFit(assets: seq<Asset>, platform: string, htmlUrl: string)
    requires forall j :: 0 <= j < |assets| ==> !Fits(platform, assets[j].name)
    ensures DownloadUrl(assets, platform, htmlUrl) == htmlUrl
  {
    assert forall j :: 0 <= j < |assets| ==> !FitsOn(platform)(assets[j]);
  }

  /** The download is a fitting asset or the release page. */
  lemma DownloadUrlFits(assets: seq<Asset>, platform: string, htmlUrl: string)
    ensures var url := DownloadUrl(assets, platform, htmlUrl);
      url == htmlUrl || exists a :: a in assets && Fits(platform, a.name) && url == a.url
  {
  }

  /** On a Windows platform only an `.exe` installer whose name holds `Setup` fits. */
  lemma WindowsRule(platform: string, name: string)
    requires Contains(platform, "win") && !Contains(platform, "mac") && !Contains(platform, "linux")
    ensures Fits(platform, name) <==> Contains(name, "Setup") && EndsWith(name, ".exe")
  {
  }

  /** On a macOS platform only a `.dmg` fits. */
  lemma MacRule(platform: string, name: string)
    requires Contains(platform, "mac") && !Contains(platform, "win") && !Contains(platform, "linux")
    ensures Fits(platform, name) <==> EndsWith(name, ".dmg")
  {
  }

  /** On a Linux platform only an `.AppImage` fits. */
  lemma LinuxRule(platform: string, name: string)
    requires Contains(platform, "linux") && !Contains(platform, "win") && !Contains(platform, "mac")
    ensures Fits(platform, name) <==> EndsWith(name, ".AppImage")
  {
  }

  /** The update prompt of the main window. */
  class UpdatePrompt {
    var updateInfo: Option<UpdateInfo>
    var showUpdateModal: bool

    constructor()
      ensures updateInfo.None? && !showUpdateModal
    {
      updateInfo := None;
      showUpdateModal := false;
    }

    /**
     * `checkForUpdates` after the request: `response` is the decoded release, `None` when the
     * request failed, answered with an error status or could not be decoded. The prompt is
     * filled in and shown only for a release strictly newer than the running version.
     */
    method CheckForUpdates(response: Option<Release>, navigatorPlatform: string)
      modifies this
      ensures response.None? ==> updateInfo == old(updateInfo) && showUpdateModal == old(showUpdateModal)
      ensures response.Some? ==>
        var release := response.value;
        var latest := StripV(release.tagName);
        if CompareParts(Components(latest), Components(AppVersion)) > 0 then
          && updateInfo == Some(UpdateInfo(latest, Changelog(release.body), DownloadUrl(release.assets, ToLower(navigatorPlatform), release.htmlUrl)))
          && showUpdateModal
        else
          updateInfo == old(updateInfo) && showUpdateModal == old(showUpdateModal)
    {
      if response.None? {
        return;
      }
      var release := response.value;
      var latest := StripV(release.tagName);
      var order := CompareVersionStrings(latest, AppVersion);
      if order > 0 {
        var platform := ToLower(navigatorPlatform);
        var downloadUrl := SelectDownloadUrl(release.assets, platform, release.htmlUrl);
        updateInfo := Some(UpdateInfo(latest, Changelog(release.body), downloadUrl));
        showUpdateModal := true;
      }
    }

    /** `onClose` of the modal: hidden, the offered update kept. */
    method CloseModal()
      modifies this
      ensures !showUpdateModal && updateInfo == old(updateInfo)
    {
      showUpdateModal := false;
    }
  }

  /** A release tagged with the running version never opens the prompt. */
  lemma SameVersionNoPrompt(release: Release)
    requires release.tagName == AppVersion || release.tagName == "v" + AppVersion
    ensures CompareParts(Components(StripV(release.tagName)), Components(AppVersion)) == 0
  {
    assert StripV(release.tagName) == AppVersion;
    CompareVersionsReflexive(AppVersion);
  }
}
