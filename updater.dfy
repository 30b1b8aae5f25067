/**
 * The update check of the shared package: version comparison by numeric components, the
 * newer-release test against the running version, and the choice of the download asset for
 * the current platform. The HTTP request is not part of this model: its outcome is a parameter.
 */
module Updater {
  import opened Wrappers
  import opened Text
  import opened Lists

  /** The running version. */
  const CurrentVersion: string := "1.0.0"

  /** The changelog shown for a release without a body. */
  const NoChangelog: string := "No changelog available"

  // ---------------------------------------------------------------- version comparison

  /** `v.replace(/^v/, '')`: one leading `v` removed. */
  function StripV(v: string): string {
    if v != [] && v[0] == 'v' then v[1..] else v
  }

  /** `v.split('.').map(Number)`: the value of each component, `None` for `NaN`. */
  function Components(v: string): (r: seq<Option<nat>>)
    ensures |r| == |Split(v, '.')|
    ensures forall i :: 0 <= i < |r| ==> r[i] == JsNumber(Split(v, '.')[i])
  {
    var parts := Split(v, '.');
    seq(|parts|, i requires 0 <= i < |parts| => JsNumber(parts[i]))
  }

  /** `parts[i] || 0`: a missing or `NaN` component counts as 0. */
  function Part(xs: seq<Option<nat>>, i: nat): nat {
    if i < |xs| && xs[i].Some? then xs[i].value else 0
  }

  function Width(xs: seq<Option<nat>>, ys: seq<Option<nat>>): nat {
    if |xs| < |ys| then |ys| else |xs|
  }

  /** The components at positions `i` up to `n` agree. */
  predicate SameParts(xs: seq<Option<nat>>, ys: seq<Option<nat>>, i: nat, n: nat) {
    forall j :: i <= j < n ==> Part(xs, j) == Part(ys, j)
  }

  /**
   * The comparison loop from position `i` up to the bound `n`: 1 or -1 at the first position
   * where the components differ, 0 when none does.
   */
  function CompareBelow(xs: seq<Option<nat>>, ys: seq<Option<nat>>, i: nat, n: nat): (r: int)
    ensures -1 <= r <= 1
    decreases n - i
  {
    if i >= n then 0
    else if Part(xs, i) > Part(ys, i) then 1
    else if Part(xs, i) < Part(ys, i) then -1
    else CompareBelow(xs, ys, i + 1, n)
  }

  /** The loop over all components of the longer list. */
  function CompareParts(xs: seq<Option<nat>>, ys: seq<Option<nat>>): int {
    CompareBelow(xs, ys, 0, Width(xs, ys))
  }

  /** `compareVersions(v1, v2)`, with a leading `v` stripped from each side. */
  function CompareVersions(v1: string, v2: string): int {
    CompareParts(Components(StripV(v1)), Components(StripV(v2)))
  }

  /** The loop answers 0 exactly when all components up to the bound agree. */
  lemma {:induction false} CompareBelowZero(xs: seq<Option<nat>>, ys: seq<Option<nat>>, i: nat, n: nat)
    ensures CompareBelow(xs, ys, i, n) == 0 <==> SameParts(xs, ys, i, n)
    decreases n - i
  {
    if i < n {
      CompareBelowZero(xs, ys, i + 1, n);
    }
  }

  /** At the first differing position, the larger component decides. */
  lemma {:induction false} CompareBelowFirstDifference(xs: seq<Option<nat>>, ys: seq<Option<nat>>, i: nat, k: nat, n: nat)
    requires i <= k < n
    requires SameParts(xs, ys, i, k)
    requires Part(xs, k) != Part(ys, k)
    ensures CompareBelow(xs, ys, i, n) == (if Part(xs, k) > Part(ys, k) then 1 else -1)
    decreases k - i
  {
    if i < k {
      CompareBelowFirstDifference(xs, ys, i + 1, k, n);
    }
  }

  /** Positions past both lists hold 0 on both sides, so a larger bound changes nothing. */
  lemma {:induction false} CompareBelowBound(xs: seq<Option<nat>>, ys: seq<Option<nat>>, i: nat, n: nat)
    requires n >= Width(xs, ys)
    ensures CompareBelow(xs, ys, i, n) == CompareBelow(xs, ys, i, Width(xs, ys))
    decreases n - i
  {
    if i < n {
      CompareBelowBound(xs, ys, i + 1, n);
    }
  }

  /** Swapping the arguments negates the answer. */
  lemma {:induction false} CompareBelowAntisymmetric(xs: seq<Option<nat>>, ys: seq<Option<nat>>, i: nat, n: nat)
    ensures CompareBelow(xs, ys, i, n) == -CompareBelow(ys, xs, i, n)
    decreases n - i
  {
    if i < n {
      CompareBelowAntisymmetric(xs, ys, i + 1, n);
    }
  }

  /** Over a common bound, "not smaller" is transitive. */
  lemma {:induction false} CompareBelowTransitive(xs: seq<Option<nat>>, ys: seq<Option<nat>>, zs: seq<Option<nat>>, i: nat, n: nat)
    requires CompareBelow(xs, ys, i, n) >= 0 && CompareBelow(ys, zs, i, n) >= 0
    ensures CompareBelow(xs, zs, i, n) >= 0
    ensures CompareBelow(xs, ys, i, n) > 0 || CompareBelow(ys, zs, i, n) > 0 ==> CompareBelow(xs, zs, i, n) > 0
    decreases n - i
  {
    if i < n && Part(xs, i) == Part(ys, i) == Part(zs, i) {
      CompareBelowTransitive(xs, ys, zs, i + 1, n);
    }
  }

  /** The answer is the sign of the first differing component, 0 when all agree. */
  lemma CompareVersionsMeaning(v1: string, v2: string)
    ensures var xs, ys := Components(StripV(v1)), Components(StripV(v2));
      && (CompareVersions(v1, v2) == 0 <==> forall j :: Part(xs, j) == Part(ys, j))
      && (forall k :: Part(xs, k) > Part(ys, k) && SameParts(xs, ys, 0, k) ==> CompareVersions(v1, v2) == 1)
      && (forall k :: Part(xs, k) < Part(ys, k) && SameParts(xs, ys, 0, k) ==> CompareVersions(v1, v2) == -1)
  {
    var xs, ys := Components(StripV(v1)), Components(StripV(v2));
    var n := Width(xs, ys);
    CompareBelowZero(xs, ys, 0, n);
    forall k | Part(xs, k) != Part(ys, k) && SameParts(xs, ys, 0, k)
      ensures CompareVersions(v1, v2) == (if Part(xs, k) > Part(ys, k) then 1 else -1)
    {
      CompareBelowFirstDifference(xs, ys, 0, k, n);
    }
  }

  /** Every version equals itself. */
  lemma CompareVersionsReflexive(v: string)
    ensures CompareVersions(v, v) == 0
  {
    var xs := Components(StripV(v));
    CompareBelowZero(xs, xs, 0, Width(xs, xs));
  }

  /** Swapping the versions negates the answer. */
  lemma CompareVersionsAntisymmetric(v1: string, v2: string)
    ensures CompareVersions(v1, v2) == -CompareVersions(v2, v1)
  {
    var xs, ys := Components(StripV(v1)), Components(StripV(v2));
    assert Width(xs, ys) == Width(ys, xs);
    CompareBelowAntisymmetric(xs, ys, 0, Width(xs, ys));
  }

  /** The versions are ordered: "not older" is transitive, and strictly so if either step is strict. */
  lemma CompareVersionsTransitive(v1: string, v2: string, v3: string)
    requires CompareVersions(v1, v2) >= 0 && CompareVersions(v2, v3) >= 0
    ensures CompareVersions(v1, v3) >= 0
    ensures CompareVersions(v1, v2) > 0 || CompareVersions(v2, v3) > 0 ==> CompareVersions(v1, v3) > 0
  {
    var xs, ys, zs := Components(StripV(v1)), Components(StripV(v2)), Components(StripV(v3));
    var n := Width(xs, ys) + Width(ys, zs) + Width(xs, zs);
    CompareBelowBound(xs, ys, 0, n);
    CompareBelowBound(ys, zs, 0, n);
    CompareBelowBound(xs, zs, 0, n);
    CompareBelowTransitive(xs, ys, zs, 0, n);
  }

  /** The loop sees the components only through `Part`: lists that agree on it compare alike. */
  lemma {:induction false} CompareBelowSameParts(xs: seq<Option<nat>>, xs': seq<Option<nat>>, ys: seq<Option<nat>>, i: nat, n: nat)
    requires forall j :: Part(xs, j) == Part(xs', j)
    ensures CompareBelow(xs, ys, i, n) == CompareBelow(xs', ys, i, n)
    decreases n - i
  {
    if i < n {
      CompareBelowSameParts(xs, xs', ys, i + 1, n);
    }
  }

  lemma ComparePartsSameParts(xs: seq<Option<nat>>, xs': seq<Option<nat>>, ys: seq<Option<nat>>)
    requires forall j :: Part(xs, j) == Part(xs', j)
    ensures CompareParts(xs, ys) == CompareParts(xs', ys)
  {
    var n := Width(xs, ys) + Width(xs', ys);
    CompareBelowBound(xs, ys, 0, n);
    CompareBelowBound(xs', ys, 0, n);
    CompareBelowSameParts(xs, xs', ys, 0, n);
  }

  /** Trailing zero components change nothing: `1.0` and `1.0.0` are the same version. */
  lemma TrailingZeros(xs: seq<Option<nat>>, zs: seq<Option<nat>>, ys: seq<Option<nat>>)
    requires forall j :: 0 <= j < |zs| ==> zs[j] == Some(0)
    ensures CompareParts(xs + zs, ys) == CompareParts(xs, ys)
  {
    forall j: nat ensures Part(xs + zs, j) == Part(xs, j) {
      if j < |xs| {
        assert (xs + zs)[j] == xs[j];
      } else if j < |xs| + |zs| {
        assert (xs + zs)[j] == zs[j - |xs|];
      }
    }
    ComparePartsSameParts(xs + zs, xs, ys);
  }

  /** A component that is not a number (`NaN`) counts as 0. */
  lemma NaNIsZero(xs: seq<Option<nat>>, k: nat, ys: seq<Option<nat>>)
    requires k < |xs| && xs[k].None?
    ensures CompareParts(xs[k := Some(0)], ys) == CompareParts(xs, ys)
  {
    ComparePartsSameParts(xs[k := Some(0)], xs, ys);
  }

  /** A two-component version string `a.b`. */
  lemma ComponentsOfPair(a: string, b: string)
    requires '.' !in a && '.' !in b
    ensures Components(a + "." + b) == [JsNumber(a), JsNumber(b)]
  {
    assert a + "." + b == a + ['.'] + b;
    SplitAfter(a, '.', b);
    SplitWithout(b, '.');
  }

  /** A one-digit component is its digit's value. */
  lemma JsNumberDigit(c: char)
    requires IsDigit(c)
    ensures JsNumber([c]) == Some(DigitValue(c))
  {
    assert [c][0] == c && !IsWhitespace(c);
    TrimOfTrimmed([c]);
    assert [c][..0] == [];
    assert DigitsValue([c]) == DigitsValue([]) * 10 + DigitValue(c);
  }

  /** A version string of the form `a.b.c`. */
  lemma ComponentsOfTriple(a: string, b: string, c: string)
    requires '.' !in a && '.' !in b && '.' !in c
    ensures Components(a + "." + b + "." + c) == [JsNumber(a), JsNumber(b), JsNumber(c)]
  {
    assert a + "." + b + "." + c == a + ['.'] + (b + ['.'] + c);
    SplitAfter(a, '.', b + ['.'] + c);
    SplitAfter(b, '.', c);
    SplitWithout(c, '.');
  }

  /** `1.0` and `1.0.0` are the same version. */
  lemma ShortVersionEqualsPadded()
    ensures CompareVersions("1.0", "1.0.0") == 0
  {
    assert "1.0" == "1" + "." + "0";
    assert "1.0.0" == "1" + "." + "0" + "." + "0";
    ComponentsOfPair("1", "0");
    ComponentsOfTriple("1", "0", "0");
    JsNumberDigit('1');
    JsNumberDigit('0');
    var xs, ys := [Some(1), Some(0)], [Some(1), Some(0), Some(0)];
    TrailingZeros(xs, [Some(0)], ys);
    assert xs + [Some(0)] == ys;
    CompareVersionsReflexive("1.0.0");
  }

  // ---------------------------------------------------------------- releases

  /** A downloadable file of a release. */
  datatype Asset = Asset(name: string, url: string)

  /** What the releases endpoint reports; a missing or null body is `None`. */
  datatype Release = Release(tagName: string, body: Option<string>, publishedAt: string, assets: seq<Asset>, htmlUrl: string)

  datatype ReleaseInfo = ReleaseInfo(version: string, changelog: string, downloadUrl: string, publishedAt: string, isNewer: bool)

  /** `release.body || 'No changelog available'`. */
  function Changelog(body: Option<string>): string {
    if body.None? || body.value == "" then NoChangelog else body.value
  }

  /** The file-name patterns tried for a platform, most preferred first. */
  function PlatformPatterns(platform: string, arch: string): seq<string> {
    if platform == "win32" then ["Setup", ".exe"]
    else if platform == "darwin" then (if arch == "arm64" then ["arm64", ".dmg"] else ["x64", ".dmg"])
    else if platform == "linux" then [".AppImage", ".deb"]
    else []
  }

  /** Whether the asset's name contains the pattern. */
  function NameHas(pattern: string): Asset -> bool {
    (a: Asset) => Contains(a.name, pattern)
  }

  /** `assets[0]?.browser_download_url || ''`. */
  function FirstAssetUrl(assets: seq<Asset>): string {
    if assets == [] then "" else assets[0].url
  }

  /**
   * The pattern loop: for the first pattern some asset name contains, the first such asset;
   * the first asset when no pattern matches; the empty string when there are no assets.
   */
  function UrlForPatterns(assets: seq<Asset>, patterns: seq<string>): (r: string)
    ensures r == "" || exists i :: 0 <= i < |assets| && r == assets[i].url
  {
    if patterns == [] then FirstAssetUrl(assets)
    else match Find(assets, NameHas(patterns[0]))
      case Some(a) => a.url
      case None => UrlForPatterns(assets, patterns[1..])
  }

  /** `getDownloadUrlForPlatform`. */
  function DownloadUrlForPlatform(assets: seq<Asset>, platform: string, arch: string): string {
    UrlForPatterns(assets, PlatformPatterns(platform, arch))
  }

  /**
   * When `patterns[k]` is the first pattern any asset name contains, the result is the first
   * asset whose name contains it.
   */
  lemma {:induction false} UrlForPatternsFirstMatch(assets: seq<Asset>, patterns: seq<string>, k: nat, i: nat)
    requires k < |patterns| && i < |assets|
    requires forall p, j :: 0 <= p < k && 0 <= j < |assets| ==> !Contains(assets[j].name, patterns[p])
    requires Contains(assets[i].name, patterns[k])
    requires forall j :: 0 <= j < i ==> !Contains(assets[j].name, patterns[k])
    ensures UrlForPatterns(assets, patterns) == assets[i].url
  {
    if k == 0 {
      FindFirst(assets, NameHas(patterns[0]), i);
    } else {
      assert Find(assets, NameHas(patterns[0])).None? by {
        forall j | 0 <= j < |assets| ensures !NameHas(patterns[0])(assets[j]) {
        }
      }
      UrlForPatternsFirstMatch(assets, patterns[1..], k - 1, i);
    }
  }

  /** When no asset name contains any pattern, the first asset's URL, or "" without assets. */
  lemma {:induction false} UrlForPatternsNoMatch(assets: seq<Asset>, patterns: seq<string>)
    requires forall p, j :: 0 <= p < |patterns| && 0 <= j < |assets| ==> !Contains(assets[j].name, patterns[p])
    ensures UrlForPatterns(assets, patterns) == FirstAssetUrl(assets)
  {
    if patterns != [] {
      assert Find(assets, NameHas(patterns[0])).None? by {
        forall j | 0 <= j < |assets| ensures !NameHas(patterns[0])(assets[j]) {
        }
      }
      UrlForPatternsNoMatch(assets, patterns[1..]);
    }
  }

  /** On Windows the first `Setup` asset wins, whatever `.exe` files come before it. */
  lemma WindowsPrefersSetup(assets: seq<Asset>, arch: string, i: nat)
    requires i < |assets| && Contains(assets[i].name, "Setup")
    requires forall j :: 0 <= j < i ==> !Contains(assets[j].name, "Setup")
    ensures DownloadUrlForPlatform(assets, "win32", arch) == assets[i].url
  {
    UrlForPatternsFirstMatch(assets, ["Setup", ".exe"], 0, i);
  }

  /** On Linux an `.AppImage` is taken before any `.deb`. */
  lemma LinuxPrefersAppImage(assets: seq<Asset>, arch: string, i: nat)
    requires i < |assets| && Contains(assets[i].name, ".AppImage")
    requires forall j :: 0 <= j < i ==> !Contains(assets[j].name, ".AppImage")
    ensures DownloadUrlForPlatform(assets, "linux", arch) == assets[i].url
  {
    UrlForPatternsFirstMatch(assets, [".AppImage", ".deb"], 0, i);
  }

  /** A platform without patterns gets the first asset. */
  lemma OtherPlatformTakesFirstAsset(assets: seq<Asset>, platform: string, arch: string)
    requires platform != "win32" && platform != "darwin" && platform != "linux"
    ensures DownloadUrlForPlatform(assets, platform, arch) == FirstAssetUrl(assets)
  {
  }

  /**
   * The release information `checkForUpdates` builds from the endpoint's answer; `None` when the
   * request or its decoding failed.
   */
  function CheckForUpdates(response: Option<Release>, platform: string, arch: string): (r: Option<ReleaseInfo>)
    ensures r.Some? <==> response.Some?
    ensures r.Some? ==> r.value.version == StripV(response.value.tagName)
    ensures r.Some? ==> (r.value.isNewer <==> CompareVersions(StripV(response.value.tagName), CurrentVersion) > 0)
    ensures r.Some? ==> r.value.publishedAt == response.value.publishedAt
  {
    match response
    case None => None
    case Some(release) =>
      var latest := StripV(release.tagName);
      Some(ReleaseInfo(
        latest,
        Changelog(release.body),
        DownloadUrlForPlatform(release.assets, platform, arch),
        release.publishedAt,
        CompareVersions(latest, CurrentVersion) > 0))
  }

  /** A release tagged with the running version, with or without `v`, is not newer. */
  lemma SameVersionIsNotNewer(release: Release, platform: string, arch: string)
    requires release.tagName == CurrentVersion || release.tagName == "v" + CurrentVersion
    ensures CheckForUpdates(Some(release), platform, arch).value.isNewer == false
  {
    assert StripV(release.tagName) == CurrentVersion;
    CompareVersionsReflexive(CurrentVersion);
  }

  /** A release without a body, or with an empty one, gets the placeholder changelog. */
  lemma MissingBodyChangelog(release: Release, platform: string, arch: string)
    requires release.body.None? || release.body == Some("")
    ensures CheckForUpdates(Some(release), platform, arch).value.changelog == NoChangelog
  {
  }
}
