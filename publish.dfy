/**
 * The plugin CLI's pre-publish checks (ztools-plugin-cli/src/publish.ts):
 * the plugin name and version formats, and `validatePluginProject`, which
 * finds plugin.json, reads it and checks its fields and the git state in a
 * fixed order. The file system, JSON parsing and git are inputs.
 */
module Publish {
  import opened Wrappers
  import Text
  import Versions
  import InternalPlugins

  predicate IsLowerAlpha(c: char) {
    'a' <= c <= 'z'
  }

  /** `[a-z0-9]` */
  predicate IsNameEnd(c: char) {
    IsLowerAlpha(c) || Text.IsDigit(c)
  }

  /** `[a-z0-9-]` */
  predicate IsNameChar(c: char) {
    IsNameEnd(c) || c == '-'
  }

  /** `validatePluginName`: `^[a-z][a-z0-9-]*[a-z0-9]$`, read position by position. */
  predicate ValidPluginName(name: string) {
    |name| >= 2 && IsLowerAlpha(name[0]) && IsNameEnd(name[|name| - 1])
    && forall i :: 1 <= i < |name| - 1 ==> IsNameChar(name[i])
  }

  /** What follows the first letter: `[a-z0-9-]*[a-z0-9]$`, consumed left to right. */
  predicate NameTail(s: string)
    decreases |s|
  {
    if |s| == 0 then false
    else if |s| == 1 then IsNameEnd(s[0])
    else IsNameChar(s[0]) && NameTail(s[1..])
  }

  /** The pattern as a left-to-right matcher: one letter, then the tail. */
  predicate NameMatcher(name: string) {
    |name| > 0 && IsLowerAlpha(name[0]) && NameTail(name[1..])
  }

  lemma {:induction false} NameTailPositions(s: string)
    ensures NameTail(s) <==> |s| >= 1 && IsNameEnd(s[|s| - 1]) && forall i :: 0 <= i < |s| - 1 ==> IsNameChar(s[i])
    decreases |s|
  {
    if |s| > 1 {
      NameTailPositions(s[1..]);
      assert forall i :: 1 <= i < |s| - 1 ==> s[1..][i - 1] == s[i];
    }
  }

  /** The positional reading and the matcher accept the same names. */
  lemma NameMatcherAgrees(name: string)
    ensures NameMatcher(name) <==> ValidPluginName(name)
  {
    if |name| > 0 {
      NameTailPositions(name[1..]);
      assert forall i :: 1 <= i < |name| - 1 ==> name[1..][i - 1] == name[i];
    }
  }

  /** An accepted name is a single directory name: no separator, not `.` or `..`, no upper case. */
  lemma ValidNameIsSegment(dir: string, name: string)
    requires ValidPluginName(name) && '/' !in dir
    ensures '/' !in name && name != "." && name != ".."
    ensures forall i :: 0 <= i < |name| ==> !('A' <= name[i] <= 'Z')
    ensures Text.Split(InternalPlugins.PathJoin(dir, name), '/') == [dir, name]
  {
    assert forall i :: 0 <= i < |name| ==> IsNameChar(name[i]);
    Text.SplitPair(dir, '/', name);
  }

  /** The error message's own examples pass; a single letter, a leading digit or dash and a trailing dash do not. */
  lemma NameExamples()
    ensures ValidPluginName("my-plugin") && ValidPluginName("hello-world") && ValidPluginName("plugin-123")
    ensures !ValidPluginName("a") && !ValidPluginName("1plugin") && !ValidPluginName("-plugin")
    ensures !ValidPluginName("plugin-") && !ValidPluginName("My-plugin")
  {
  }

  /** A non-empty run of ASCII digits (`\d+`). */
  predicate Number(s: string) {
    |s| > 0 && Text.AllDigits(s)
  }

  /** `validateVersion`: `^\d+\.\d+\.\d+$` — three '.'-separated non-empty digit runs. */
  predicate ValidVersion(version: string) {
    var parts := Text.Split(version, '.');
    |parts| == 3 && Number(parts[0]) && Number(parts[1]) && Number(parts[2])
  }

  lemma NoDotInNumber(s: string)
    requires Text.AllDigits(s)
    ensures '.' !in s
  {
    assert forall i :: 0 <= i < |s| ==> s[i] != '.';
  }

  /** Any `major.minor.patch` of digit runs is accepted, and splits back into its three runs. */
  lemma DottedTripleAccepted(a: string, b: string, c: string)
    requires Number(a) && Number(b) && Number(c)
    ensures Text.Split(a + "." + b + "." + c, '.') == [a, b, c]
    ensures ValidVersion(a + "." + b + "." + c)
  {
    NoDotInNumber(a);
    NoDotInNumber(b);
    NoDotInNumber(c);
    Text.SplitHead(a, '.', b + "." + c);
    Text.SplitPair(b, '.', c);
    assert a + "." + b + "." + c == a + ['.'] + (b + ['.'] + c);
  }

  /** Every accepted version is exactly such a triple: nothing before, between or after the runs. */
  lemma AcceptedIsDottedTriple(version: string)
    requires ValidVersion(version)
    ensures var p := Text.Split(version, '.'); version == p[0] + "." + p[1] + "." + p[2]
  {
    var p := Text.Split(version, '.');
    Text.JoinSplit(version, '.');
    assert p[1..][1..] == [p[2]];
    assert Text.Join(p[1..][1..], ".") == p[2];
    assert Text.Join(p[1..], ".") == p[1] + "." + p[2];
    assert Text.Join(p, ".") == p[0] + "." + (p[1] + "." + p[2]);
  }

  /** The release helpers order an accepted version by its three numbers. */
  lemma AcceptedVersionComponents(version: string)
    requires ValidVersion(version)
    ensures var p := Text.Split(version, '.');
            Versions.Components(version) == [Text.DigitsValue(p[0]), Text.DigitsValue(p[1]), Text.DigitsValue(p[2])]
  {
  }

  /** The message's examples pass. */
  lemma VersionExamplesAccepted()
    ensures ValidVersion("1.0.0") && ValidVersion("1.2.3") && ValidVersion("2.10.5")
  {
    assert ValidVersion("1.0.0") by {
      assert "1" + "." + "0" + "." + "0" == "1.0.0";
      DottedTripleAccepted("1", "0", "0");
    }
    assert ValidVersion("1.2.3") by {
      assert "1" + "." + "2" + "." + "3" == "1.2.3";
      DottedTripleAccepted("1", "2", "3");
    }
    assert ValidVersion("2.10.5") by {
      assert "2" + "." + "10" + "." + "5" == "2.10.5";
      DottedTripleAccepted("2", "10", "5");
    }
  }

  /** Two parts are too few. */
  lemma TwoPartsRejected()
    ensures !ValidVersion("1.0")
  {
    Text.SplitPair("1", '.', "0");
  }

  /** Four parts are too many. */
  lemma FourPartsRejected()
    ensures !ValidVersion("1.0.0.0")
  {
    DottedTripleAccepted("0", "0", "0");
    Text.SplitHead("1", '.', "0.0.0");
  }

  /** An empty part is not a number. */
  lemma EmptyPartRejected()
    ensures !ValidVersion("1..0")
  {
    Text.SplitHead("1", '.', ".0");
    Text.SplitPair("", '.', "0");
  }

  /** A `v` prefix is not part of a number. */
  lemma PrefixRejected()
    ensures !ValidVersion("v1.0.0")
  {
    Text.SplitHead("v1", '.', "0.0");
    assert "v1.0.0" == "v1" + ['.'] + "0.0";
    assert Text.Split("v1.0.0", '.')[0] == "v1";
    assert !Text.IsDigit("v1"[0]);
  }

  /** No superfluous leading zero: a single digit, or a first digit other than '0'. */
  predicate NoLeadingZero(s: string) {
    |s| == 1 || (|s| > 1 && s[0] != '0')
  }

  /**
   * The version core of section 2 of Semantic Versioning 2.0.0: three
   * non-negative integers without leading zeros. This is the check the
   * version message describes; `ValidVersion` is what the pattern accepts.
   */
  predicate SemVerCore(version: string) {
    var parts := Text.Split(version, '.');
    ValidVersion(version) && NoLeadingZero(parts[0]) && NoLeadingZero(parts[1]) && NoLeadingZero(parts[2])
  }

  /** A digit run that does not start with '0' has a value of at least one. */
  lemma {:induction false} PositiveValue(s: string)
    requires Number(s) && s[0] != '0'
    ensures Text.DigitsValue(s) >= 1
    decreases |s|
  {
    if |s| > 1 {
      PositiveValue(s[..|s| - 1]);
    }
  }

  /** A digit run without a leading zero is exactly how its value is written. */
  lemma {:induction false} CanonicalDigits(s: string)
    requires Number(s) && NoLeadingZero(s)
    ensures Text.NatToString(Text.DigitsValue(s)) == s
    decreases |s|
  {
    var n := Text.DigitsValue(s);
    var last := s[|s| - 1];
    var d := last as int - '0' as int;
    if |s| == 1 {
      assert s[..0] == [];
      assert [Text.DigitChar(d)] == s;
    } else {
      var init := s[..|s| - 1];
      CanonicalDigits(init);
      PositiveValue(init);
      assert n == Text.DigitsValue(init) * 10 + d;
      assert n / 10 == Text.DigitsValue(init) && n % 10 == d;
      assert init + [last] == s;
    }
  }

  /** A core version is exactly how its three numbers are written, so distinct ones never compare equal by accident. */
  lemma SemVerCanonical(version: string)
    requires SemVerCore(version)
    ensures var c := Versions.Components(version);
            |c| == 3
            && version == Text.NatToString(c[0]) + "." + Text.NatToString(c[1]) + "." + Text.NatToString(c[2])
  {
    var p := Text.Split(version, '.');
    AcceptedIsDottedTriple(version);
    CanonicalDigits(p[0]);
    CanonicalDigits(p[1]);
    CanonicalDigits(p[2]);
  }

  /** The two checks differ in the leading zeros only. */
  lemma SemVerCoreNarrows(version: string)
    ensures SemVerCore(version) ==> ValidVersion(version)
    ensures ValidVersion(version) && !SemVerCore(version) ==>
              exists i :: 0 <= i < 3 && |Text.Split(version, '.')[i]| > 1 && Text.Split(version, '.')[i][0] == '0'
  {
    if ValidVersion(version) && !SemVerCore(version) {
      var p := Text.Split(version, '.');
      if !NoLeadingZero(p[0]) {
        assert |p[0]| > 1 && p[0][0] == '0';
      } else if !NoLeadingZero(p[1]) {
        assert |p[1]| > 1 && p[1][0] == '0';
      } else {
        assert |p[2]| > 1 && p[2][0] == '0';
      }
    }
  }

  /**
   * As written, the pattern accepts "01.2.3", which is not a Semantic
   * Versioning core version and which the release helpers order as equal to
   * "1.2.3".
   */
  lemma LeadingZeroAccepted()
    ensures ValidVersion("01.2.3") && !SemVerCore("01.2.3")
    ensures Versions.Components("01.2.3") == Versions.Components("1.2.3") && "01.2.3" != "1.2.3"
  {
    DottedTripleAccepted("01", "2", "3");
    DottedTripleAccepted("1", "2", "3");
    assert "01" + "." + "2" + "." + "3" == "01.2.3";
    assert "1" + "." + "2" + "." + "3" == "1.2.3";
    assert Text.DigitsValue("01") == 1 by {
      assert "01"[..1] == "0";
      assert "0"[..0] == "";
    }
    assert Text.DigitsValue("1") == 1 by {
      assert "1"[..0] == "";
    }
  }

  /** The fields of plugin.json this check reads; "" stands for a missing or empty field. */
  datatype PluginConfig = PluginConfig(name: string, title: string, version: string)

  const NoPluginJson: string := "未找到plugin.json，请确保在插件项目根目录下执行此命令\n支持的路径：./plugin.json, ./public/plugin.json"
  const NoName: string := "plugin.json中缺少name字段"
  const NoTitle: string := "plugin.json中缺少title字段（插件标题）"
  const NoVersion: string := "plugin.json中缺少version字段（版本号）"
  const NotGitRepo: string := "当前目录不是Git仓库，请先执行 git init"
  const NoCommits: string := "没有找到任何提交记录，请至少提交一次代码"

  function ReadFailed(message: string): string {
    "读取plugin.json失败: " + message
  }

  function BadName(name: string): string {
    "插件名称格式不正确: \"" + name + "\"\n"
    + "插件名称只允许小写字母、数字和连字符 \"-\"，且必须以字母开头，以字母或数字结尾\n"
    + "示例: my-plugin, hello-world, plugin-123"
  }

  function BadVersion(version: string): string {
    "版本号格式不正确: \"" + version + "\"\n"
    + "版本号必须是语义化版本号格式 (major.minor.patch)\n"
    + "示例: 1.0.0, 1.2.3, 2.10.5"
  }

  /** Where plugin.json may be, in the order they are tried. */
  function Candidates(cwd: string): seq<string> {
    [InternalPlugins.PathJoin(cwd, "plugin.json"),
     InternalPlugins.PathJoin(InternalPlugins.PathJoin(cwd, "public"), "plugin.json")]
  }

  /** The first candidate that exists: None when neither does. */
  function Located(cwd: string, present: string -> bool): (r: Option<string>)
    ensures r.None? <==> forall i :: 0 <= i < 2 ==> !present(Candidates(cwd)[i])
    ensures r.Some? ==> present(r.value) && (r.value == Candidates(cwd)[0] || !present(Candidates(cwd)[0]))
    ensures r.Some? ==> r.value in Candidates(cwd)
  {
    if present(Candidates(cwd)[0]) then Some(Candidates(cwd)[0])
    else if present(Candidates(cwd)[1]) then Some(Candidates(cwd)[1])
    else None
  }

  /** Everything the check demands of a plugin.json that was read, the version as the pattern accepts it. */
  predicate Publishable(c: PluginConfig) {
    c.name != "" && c.title != "" && c.version != "" && ValidPluginName(c.name) && ValidVersion(c.version)
  }

  /** The same demands with the version a core version without leading zeros. */
  predicate PublishableCorrected(c: PluginConfig) {
    Publishable(c) && SemVerCore(c.version)
  }

  /** The corrected demands reject a plugin.json the pattern lets through only for a leading zero in its version. */
  lemma CorrectedRejectsLeadingZeros(c: PluginConfig)
    ensures PublishableCorrected(c) ==> Publishable(c)
    ensures Publishable(c) && !PublishableCorrected(c) ==>
              exists i :: 0 <= i < 3 && |Text.Split(c.version, '.')[i]| > 1 && Text.Split(c.version, '.')[i][0] == '0'
  {
    SemVerCoreNarrows(c.version);
  }

  /**
   * `validatePluginProject`: the first plugin.json that exists, read and
   * checked for name, title and version, the name and version formats, then
   * a git repository with at least one commit; each failure is its own error,
   * reported in that order.
   */
  method ValidatePluginProject(cwd: string, present: string -> bool, read: string -> Result<PluginConfig, string>,
                               isGitRepo: bool, hasCommits: bool)
    returns (r: Result<PluginConfig, string>)
    ensures r.Success? <==>
              Located(cwd, present).Some? && read(Located(cwd, present).value).Success?
              && Publishable(read(Located(cwd, present).value).value) && isGitRepo && hasCommits
    ensures r.Success? ==> r.value == read(Located(cwd, present).value).value
    ensures Located(cwd, present).None? ==> r == Failure(NoPluginJson)
    ensures Located(cwd, present).Some? ==>
              match read(Located(cwd, present).value)
              case Failure(m) => r == Failure(ReadFailed(m))
              case Success(c) =>
                if c.name == "" then r == Failure(NoName)
                else if c.title == "" then r == Failure(NoTitle)
                else if c.version == "" then r == Failure(NoVersion)
                else if !ValidPluginName(c.name) then r == Failure(BadName(c.name))
                else if !ValidVersion(c.version) then r == Failure(BadVersion(c.version))
                else if !isGitRepo then r == Failure(NotGitRepo)
                else if !hasCommits then r == Failure(NoCommits)
                else r == Success(c)
  {
    var candidates := Candidates(cwd);
    var found: Option<string> := None;
    var i := 0;
    while i < |candidates|
      invariant 0 <= i <= |candidates|
      invariant found.None? ==> forall j :: 0 <= j < i ==> !present(candidates[j])
      invariant found.Some? ==> found == Located(cwd, present)
    {
      if present(candidates[i]) {
        found := Some(candidates[i]);
        break;
      }
      i := i + 1;
    }
    assert found == Located(cwd, present);
    if found.None? {
      return Failure(NoPluginJson);
    }
    var config: PluginConfig;
    match read(found.value) {
      case Failure(message) => return Failure(ReadFailed(message));
      case Success(c) => config := c;
    }
    if config.name == "" {
      return Failure(NoName);
    }
    if config.title == "" {
      return Failure(NoTitle);
    }
    if config.version == "" {
      return Failure(NoVersion);
    }
    if !ValidPluginName(config.name) {
      return Failure(BadName(config.name));
    }
    if !ValidVersion(config.version) {
      return Failure(BadVersion(config.version));
    }
    if !isGitRepo {
      return Failure(NotGitRepo);
    }
    if !hasCommits {
      return Failure(NoCommits);
    }
    return Success(config);
  }

  /**
   * `validatePluginProject` with the corrected version check: a version the
   * pattern accepts but that carries a leading zero is refused with the
   * version error, at the place of the version check.
   */
  method ValidatePluginProjectCorrected(cwd: string, present: string -> bool, read: string -> Result<PluginConfig, string>,
                                        isGitRepo: bool, hasCommits: bool)
    returns (r: Result<PluginConfig, string>)
    ensures r.Success? <==>
              Located(cwd, present).Some? && read(Located(cwd, present).value).Success?
              && PublishableCorrected(read(Located(cwd, present).value).value) && isGitRepo && hasCommits
    ensures r.Success? ==> r.value == read(Located(cwd, present).value).value
    ensures Located(cwd, present).None? ==> r == Failure(NoPluginJson)
    ensures Located(cwd, present).Some? ==>
              match read(Located(cwd, present).value)
              case Failure(m) => r == Failure(ReadFailed(m))
              case Success(c) =>
                if c.name == "" then r == Failure(NoName)
                else if c.title == "" then r == Failure(NoTitle)
                else if c.version == "" then r == Failure(NoVersion)
                else if !ValidPluginName(c.name) then r == Failure(BadName(c.name))
                else if !SemVerCore(c.version) then r == Failure(BadVersion(c.version))
                else if !isGitRepo then r == Failure(NotGitRepo)
                else if !hasCommits then r == Failure(NoCommits)
                else r == Success(c)
  {
    r := ValidatePluginProject(cwd, present, read, isGitRepo, hasCommits);
    var located := Located(cwd, present);
    if located.Some? && read(located.value).Success? {
      var c := read(located.value).value;
      if c.name != "" && c.title != "" && c.version != "" && ValidPluginName(c.name)
         && ValidVersion(c.version) && !SemVerCore(c.version) {
        r := Failure(BadVersion(c.version));
      }
    }
  }
}
