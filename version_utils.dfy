/**
 * The release scripts' version helpers (scripts/version-utils.mjs): the
 * `<base>-d<MMDD>.<hash>` development version, stripping it back off,
 * choosing between the two, and the download links of a release. The git
 * hash, the date, the environment and package.json are inputs.
 */
module VersionUtils {
  import opened Wrappers
  import Text

  /** `getCurrentMonthDate` for a calendar month (1–12) and day (1–31). */
  function MonthDate(month: nat, day: nat): (r: string)
    requires 1 <= month <= 12 && 1 <= day <= 31
    ensures |r| == 4 && Text.AllDigits(r)
    ensures Text.DigitsValue(r[..2]) == month && Text.DigitsValue(r[2..]) == day
  {
    var m := Text.Pad2(month);
    var d := Text.Pad2(day);
    assert (m + d)[..2] == m && (m + d)[2..] == d;
    m + d
  }

  predicate IsLowerHex(c: char) {
    Text.IsDigit(c) || 'a' <= c <= 'f'
  }

  predicate AllLowerHex(s: string) {
    forall i :: 0 <= i < |s| ==> IsLowerHex(s[i])
  }

  /** `v` ends with `-d`, `k` digits, `.` and seven lowercase hex digits. */
  predicate DevSuffix(v: string, k: nat) {
    2 <= k <= 4 && |v| >= 10 + k
    && v[|v| - 10 - k] == '-' && v[|v| - 9 - k] == 'd'
    && Text.AllDigits(v[|v| - 8 - k..|v| - 8]) && v[|v| - 8] == '.'
    && AllLowerHex(v[|v| - 7..])
  }

  /** At most one digit count fits, so which one the pattern tries first does not matter. */
  lemma DevSuffixUnique(v: string, j: nat, k: nat)
    requires DevSuffix(v, j) && DevSuffix(v, k)
    ensures j == k
  {
  }

  /** `version.replace(/-d\d{2,4}\.[a-f0-9]{7}$/, '')` */
  function StripDevSuffix(v: string): (r: string)
    ensures r == v <==> !(DevSuffix(v, 2) || DevSuffix(v, 3) || DevSuffix(v, 4))
    ensures r != v ==> exists k :: 2 <= k <= 4 && DevSuffix(v, k) && r == v[..|v| - 10 - k]
  {
    if DevSuffix(v, 4) then v[..|v| - 14]
    else if DevSuffix(v, 3) then v[..|v| - 13]
    else if DevSuffix(v, 2) then v[..|v| - 12]
    else v
  }

  /** `getBaseVersion`: package.json's version without a development suffix, '1.0.0' when it cannot be read. */
  function GetBaseVersion(packageVersion: Option<string>): string {
    match packageVersion
    case None => "1.0.0"
    case Some(v) => StripDevSuffix(v)
  }

  /** `getDevVersion` */
  function DevVersion(base: string, monthDate: string, hash: string): (r: string)
    ensures Text.StartsWith(r, base + "-d") && Text.EndsWith(r, "." + hash)
  {
    assert base + "-d" + monthDate + "." + hash == (base + "-d") + (monthDate + "." + hash);
    assert base + "-d" + monthDate + "." + hash == (base + "-d" + monthDate) + ("." + hash);
    base + "-d" + monthDate + "." + hash
  }

  /** Stripping a development version built from a short commit hash gives back its base. */
  lemma DevVersionRoundTrip(base: string, month: nat, day: nat, hash: string)
    requires 1 <= month <= 12 && 1 <= day <= 31
    requires |hash| == 7 && AllLowerHex(hash)
    ensures StripDevSuffix(DevVersion(base, MonthDate(month, day), hash)) == base
  {
    var md := MonthDate(month, day);
    var v := DevVersion(base, md, hash);
    assert v == base + "-d" + md + "." + hash;
    assert |v| == |base| + 14;
    assert v[|v| - 12..|v| - 8] == md;
    assert v[|v| - 7..] == hash;
    assert DevSuffix(v, 4);
    assert v[..|v| - 14] == base;
  }

  /** With the 'unknown' fallback hash the suffix is not recognised and the version stays as it is. */
  lemma UnknownHashNotStripped(base: string, month: nat, day: nat)
    requires 1 <= month <= 12 && 1 <= day <= 31
    ensures StripDevSuffix(DevVersion(base, MonthDate(month, day), "unknown")) == DevVersion(base, MonthDate(month, day), "unknown")
    ensures DevVersion(base, MonthDate(month, day), "unknown") != base
  {
    var v := DevVersion(base, MonthDate(month, day), "unknown");
    assert v == base + "-d" + MonthDate(month, day) + "." + "unknown";
    assert v[|v| - 7..] == "unknown";
    assert !IsLowerHex(v[|v| - 7..][0]);
    assert |v| == |base| + 14;
  }

  /** `isDevBuild` */
  predicate IsDevBuild(nodeEnv: string, argv: seq<string>, githubEvent: string) {
    nodeEnv == "development" || "--dev" in argv || githubEvent == "workflow_dispatch"
  }

  /** `getProcessedVersion` */
  function ProcessedVersion(isDev: bool, packageVersion: Option<string>, monthDate: string, hash: string): (r: string)
    ensures isDev ==> r == DevVersion(GetBaseVersion(packageVersion), monthDate, hash)
    ensures !isDev ==> r == GetBaseVersion(packageVersion)
  {
    var base := GetBaseVersion(packageVersion);
    if isDev then DevVersion(base, monthDate, hash) else base
  }

  /** A development build's version strips back to the release it was cut from. */
  lemma ProcessedVersionStrips(packageVersion: Option<string>, month: nat, day: nat, hash: string)
    requires 1 <= month <= 12 && 1 <= day <= 31
    requires |hash| == 7 && AllLowerHex(hash)
    ensures StripDevSuffix(ProcessedVersion(true, packageVersion, MonthDate(month, day), hash)) == GetBaseVersion(packageVersion)
  {
    DevVersionRoundTrip(GetBaseVersion(packageVersion), month, day, hash);
  }

  const Releases: string := "https://github.com/ZToolsCenter/ZTools/releases/download/"

  /** `getDownloadUrl` */
  function DownloadUrl(isDev: bool, version: string): (r: string)
    ensures Text.StartsWith(r, Releases)
    ensures isDev ==> Text.EndsWith(r, "/download/dev")
    ensures !isDev ==> Text.EndsWith(r, "/download/v" + version)
  {
    assert Releases == "https://github.com/ZToolsCenter/ZTools/releases" + "/download/";
    if isDev then
      assert Releases + "dev" == "https://github.com/ZToolsCenter/ZTools/releases" + "/download/dev";
      Releases + "dev"
    else
      assert Releases + "v" + version == "https://github.com/ZToolsCenter/ZTools/releases" + ("/download/v" + version);
      Releases + "v" + version
  }

  /** The artifact name suffixes a release links to, in order. */
  const Artifacts: seq<string> := ["-win-x64-setup.exe", "-win-x64.zip", "-mac-arm64.dmg", "-mac-arm64.zip",
                                   "-mac-x64.dmg", "-mac-x64.zip"]

  /** Where an artifact is downloaded from. */
  function ArtifactUrl(downloadUrl: string, version: string, artifact: string): string {
    downloadUrl + "/ZTools-" + version + artifact
  }

  /** One list entry: `- <caption>：[<file>](<url>)` */
  function Link(downloadUrl: string, version: string, caption: string, artifact: string): (r: string)
    ensures Text.Contains(r, ArtifactUrl(downloadUrl, version, artifact))
  {
    var a := "- " + caption + "：[ZTools-" + version + artifact + "](";
    var r := a + ArtifactUrl(downloadUrl, version, artifact) + ")\n";
    Text.ContainsInfix(a, ArtifactUrl(downloadUrl, version, artifact), ")\n");
    r
  }

  /** The pieces of the Markdown, in order: headings and link lines. */
  function MarkdownPieces(downloadUrl: string, version: string): seq<string> {
    ["\n\n---\n\n### 下载地址：\n\n",
     "#### Windows 10/11 (x64)：\n\n",
     Link(downloadUrl, version, "安装版", Artifacts[0]),
     Link(downloadUrl, version, "便携版", Artifacts[1]),
     "\n",
     "#### macOS 11+ (Apple Silicon)：\n\n",
     Link(downloadUrl, version, "DMG", Artifacts[2]),
     Link(downloadUrl, version, "ZIP", Artifacts[3]),
     "\n",
     "#### macOS 10.13+ (Intel)：\n\n",
     Link(downloadUrl, version, "DMG", Artifacts[4]),
     Link(downloadUrl, version, "ZIP", Artifacts[5])]
  }

  /** `generateDownloadLinksMarkdown` */
  function DownloadLinksMarkdown(downloadUrl: string, version: string): string {
    Text.Concat(MarkdownPieces(downloadUrl, version))
  }

  /** The Markdown links every one of the six artifacts of that version under that address. */
  lemma MarkdownLinksEveryArtifact(downloadUrl: string, version: string)
    ensures forall a :: a in Artifacts ==> Text.Contains(DownloadLinksMarkdown(downloadUrl, version), ArtifactUrl(downloadUrl, version, a))
  {
    var pieces := MarkdownPieces(downloadUrl, version);
    var at := [2, 3, 6, 7, 10, 11];
    forall j | 0 <= j < 6
      ensures Text.Contains(Text.Concat(pieces), ArtifactUrl(downloadUrl, version, Artifacts[j]))
    {
      Text.ContainsPiece(pieces, at[j], ArtifactUrl(downloadUrl, version, Artifacts[j]));
    }
  }
}
