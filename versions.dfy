/**
 * Dotted version numbers as the plugin market and the updater compare them
 * (`compareVersions` in src/main/api/renderer/plugins.ts and
 * src/main/api/updater.ts, which are the same code), and the scan both use
 * to pick the newest list file from a folder listing.
 */
module Versions {
  import opened Wrappers
  import Text

  /**
   * `Number(part) || 0` for one component. Only plain digit strings are
   * given their value; every other component counts as 0.
   */
  function ComponentValue(part: string): nat {
    if Text.AllDigits(part) then Text.DigitsValue(part) else 0
  }

  /** `v.split('.').map(Number)`, with the `|| 0` applied. */
  function Components(v: string): (r: seq<nat>)
    ensures |r| == |Text.Split(v, '.')|
  {
    var parts := Text.Split(v, '.');
    seq(|parts|, i requires 0 <= i < |parts| => ComponentValue(parts[i]))
  }

  function Head(s: seq<nat>): nat {
    if |s| > 0 then s[0] else 0
  }

  function Tail(s: seq<nat>): seq<nat> {
    if |s| > 0 then s[1..] else []
  }

  /** The sign of the first differing component, a missing component reading as 0. */
  function CompareParts(a: seq<nat>, b: seq<nat>): (r: int)
    ensures -1 <= r <= 1
    decreases |a| + |b|
  {
    if |a| == 0 && |b| == 0 then 0
    else if Head(a) > Head(b) then 1
    else if Head(a) < Head(b) then -1
    else CompareParts(Tail(a), Tail(b))
  }

  /** `compareVersions(v1, v2)`. */
  function VersionOrder(v1: string, v2: string): int {
    CompareParts(Components(v1), Components(v2))
  }

  /** `compareVersions`: walks the longer component list, returning at the first difference. */
  method CompareVersions(v1: string, v2: string) returns (r: int)
    ensures r == VersionOrder(v1, v2)
    ensures -1 <= r <= 1
  {
    r := CompareComponents(Components(v1), Components(v2));
  }

  /** The loop of `compareVersions` over the two component lists. */
  method CompareComponents(parts1: seq<nat>, parts2: seq<nat>) returns (r: int)
    ensures r == CompareParts(parts1, parts2)
  {
    var n := if |parts1| > |parts2| then |parts1| else |parts2|;
    var i := 0;
    while i < n
      invariant 0 <= i <= n
      invariant CompareParts(parts1, parts2) == CompareParts(Drop(parts1, i), Drop(parts2, i))
    {
      var p1 := if i < |parts1| then parts1[i] else 0;
      var p2 := if i < |parts2| then parts2[i] else 0;
      DropStep(parts1, i);
      DropStep(parts2, i);
      if p1 > p2 {
        return 1;
      }
      if p1 < p2 {
        return -1;
      }
      i := i + 1;
    }
    DropStep(parts1, i);
    DropStep(parts2, i);
    return 0;
  }

  /** The components from index `i` on. */
  function Drop(s: seq<nat>, i: nat): seq<nat> {
    if i < |s| then s[i..] else []
  }

  /** Comparing from index `i` looks at component `i` (0 when missing), then moves on to `i + 1`. */
  lemma DropStep(s: seq<nat>, i: nat)
    ensures Head(Drop(s, i)) == (if i < |s| then s[i] else 0)
    ensures Tail(Drop(s, i)) == Drop(s, i + 1)
    ensures i >= |s| ==> Drop(s, i) == []
  {
    if i < |s| {
      assert Drop(s, i)[1..] == s[i + 1..];
    }
  }

  lemma {:induction false} CompareSelf(a: seq<nat>)
    ensures CompareParts(a, a) == 0
    decreases |a|
  {
    if |a| > 0 {
      CompareSelf(Tail(a));
    }
  }

  lemma {:induction false} CompareAntisymmetric(a: seq<nat>, b: seq<nat>)
    ensures CompareParts(b, a) == -CompareParts(a, b)
    decreases |a| + |b|
  {
    if (|a| > 0 || |b| > 0) && Head(a) == Head(b) {
      CompareAntisymmetric(Tail(a), Tail(b));
    }
  }

  lemma {:induction false} CompareAtMostTransitive(a: seq<nat>, b: seq<nat>, c: seq<nat>)
    requires CompareParts(a, b) <= 0 && CompareParts(b, c) <= 0
    ensures CompareParts(a, c) <= 0
    ensures CompareParts(a, b) < 0 || CompareParts(b, c) < 0 ==> CompareParts(a, c) < 0
    decreases |a| + |b| + |c|
  {
    if |a| == 0 && |b| == 0 && |c| == 0 {
    } else if Head(a) == Head(b) && Head(b) == Head(c) {
      CompareAtMostTransitive(Tail(a), Tail(b), Tail(c));
    }
  }

  /** A trailing zero component changes nothing: '1.0' and '1.0.0' are the same version. */
  lemma {:induction false} TrailingZero(a: seq<nat>)
    ensures CompareParts(a + [0], a) == 0
    decreases |a|
  {
    if |a| > 0 {
      assert Tail(a + [0]) == Tail(a) + [0];
      TrailingZero(Tail(a));
    }
  }

  /** `compareVersions(v, v) == 0`, and swapping the arguments negates the result. */
  lemma VersionOrderLaws(v: string, w: string)
    ensures VersionOrder(v, v) == 0
    ensures VersionOrder(w, v) == -VersionOrder(v, w)
  {
    CompareSelf(Components(v));
    CompareAntisymmetric(Components(v), Components(w));
  }

  /** '1.0' and '1.0.0' compare equal. */
  lemma ShortFormEqual()
    ensures VersionOrder("1.0", "1.0.0") == 0
  {
    assert Text.Split("", '.') == [""];
    assert "0"[1..] == "";
    assert ['0'] + "" == "0" && ['1'] + "" == "1";
    assert Text.Split("0", '.') == ["0"];
    assert ".0"[1..] == "0";
    assert Text.Split(".0", '.') == ["", "0"];
    assert "0.0"[1..] == ".0";
    assert Text.Split("0.0", '.') == ["0", "0"];
    assert ".0.0"[1..] == "0.0";
    assert Text.Split(".0.0", '.') == ["", "0", "0"];
    assert "1.0"[1..] == ".0";
    assert Text.Split("1.0", '.') == ["1", "0"];
    assert "1.0.0"[1..] == ".0.0";
    assert Text.Split("1.0.0", '.') == ["1", "0", "0"];
    assert "1"[..0] == "" && "0"[..0] == "";
    assert Text.DigitsValue("1") == 1 && Text.DigitsValue("0") == 0;
    assert Components("1.0") == [1, 0];
    assert Components("1.0.0") == [1, 0, 0];
    TrailingZero([1, 0]);
    CompareAntisymmetric([1, 0] + [0], [1, 0]);
  }

  // ---------------------------------------------------------------------
  // File names carrying a version: `<prefix>(\d+(\.\d+)*)\.txt`

  /** The number of leading digits. */
  function DigitRun(s: string): (n: nat)
    ensures n <= |s| && Text.AllDigits(s[..n])
    ensures n < |s| ==> !Text.IsDigit(s[n])
    decreases |s|
  {
    if |s| > 0 && Text.IsDigit(s[0]) then
      var k := DigitRun(s[1..]);
      assert s[..k + 1] == [s[0]] + s[1..][..k];
      k + 1
    else 0
  }

  /** The greedy `(\.\d+)*` at the start of `s`. */
  function DotGroups(s: string): (n: nat)
    ensures n <= |s|
    decreases |s|
  {
    if |s| >= 2 && s[0] == '.' && Text.IsDigit(s[1]) then
      var d := DigitRun(s[1..]);
      1 + d + DotGroups(s[1 + d..])
    else 0
  }

  /** The greedy `\d+(\.\d+)*` at the start of `s` (0 when `s` does not start with a digit). */
  function VersionRun(s: string): (n: nat)
    ensures n <= |s|
  {
    var d := DigitRun(s);
    if d == 0 then 0 else d + DotGroups(s[d..])
  }

  /**
   * What the version group captures at a position: the greedy dotted run,
   * which must be followed by `.txt` (backtracking into a shorter run can
   * only leave a digit or a `.digit` next, never `.txt`).
   */
  function VersionAt(s: string): Option<string> {
    var n := VersionRun(s);
    if n > 0 && Text.StartsWith(s[n..], ".txt") then Some(s[..n]) else None
  }

  /** `name.match(/<prefix>(\d+(\.\d+)*)\.txt/)?.[1]`: the leftmost position that matches. */
  function VersionInName(name: string, prefix: string): (r: Option<string>)
    decreases |name|
  {
    if Text.StartsWith(name, prefix) && VersionAt(name[|prefix|..]).Some? then VersionAt(name[|prefix|..])
    else if |name| == 0 then None
    else VersionInName(name[1..], prefix)
  }

  /** A dotted version as the pattern captures it: digit groups joined by single dots. */
  predicate IsDottedVersion(v: string) {
    |v| > 0 && VersionRun(v) == |v|
  }

  lemma {:induction false} DigitRunStops(s: string, t: string)
    requires Text.AllDigits(s)
    requires |t| > 0 && !Text.IsDigit(t[0])
    ensures DigitRun(s + t) == |s|
    decreases |s|
  {
    if |s| > 0 {
      assert (s + t)[1..] == s[1..] + t;
      DigitRunStops(s[1..], t);
    } else {
      assert s + t == t;
    }
  }

  lemma {:induction false} DigitRunPrefix(s: string, t: string)
    requires DigitRun(s) < |s|
    ensures DigitRun(s + t) == DigitRun(s)
    decreases |s|
  {
    if |s| > 0 && Text.IsDigit(s[0]) {
      assert (s + t)[1..] == s[1..] + t;
      DigitRunPrefix(s[1..], t);
    }
  }

  lemma {:induction false} DotGroupsFollowedByTxt(s: string)
    requires DotGroups(s) == |s|
    ensures DotGroups(s + ".txt") == |s|
    decreases |s|
  {
    var st := s + ".txt";
    if |s| == 0 {
      assert st == ".txt";
      assert !Text.IsDigit(st[1]);
    } else {
      var d := DigitRun(s[1..]);
      assert st[0] == '.' && st[1] == s[1];
      assert st[1..] == s[1..] + ".txt";
      if d < |s[1..]| {
        DigitRunPrefix(s[1..], ".txt");
      } else {
        DigitRunStops(s[1..], ".txt");
      }
      assert st[1 + d..] == s[1 + d..] + ".txt";
      DotGroupsFollowedByTxt(s[1 + d..]);
    }
  }

  /** A dotted version followed by `.txt` is captured whole. */
  lemma VersionRunBeforeTxt(v: string)
    requires IsDottedVersion(v)
    ensures VersionAt(v + ".txt") == Some(v)
  {
    var vt := v + ".txt";
    var d := DigitRun(v);
    if d < |v| {
      DigitRunPrefix(v, ".txt");
    } else {
      DigitRunStops(v, ".txt");
    }
    assert vt[d..] == v[d..] + ".txt";
    DotGroupsFollowedByTxt(v[d..]);
    assert vt[|v|..] == ".txt";
    assert vt[..|v|] == v;
  }

  /** The update and market file names yield exactly their version. */
  lemma NamedFileYieldsVersion(prefix: string, v: string)
    requires IsDottedVersion(v)
    ensures VersionInName(prefix + v + ".txt", prefix) == Some(v)
  {
    var name := prefix + v + ".txt";
    assert name[|prefix|..] == v + ".txt";
    VersionRunBeforeTxt(v);
  }

  /** A file of a folder listing on the file host, as the market and the updater read it. */
  datatype ListedFile = ListedFile(id: string, nameAll: string)

  /** The names of the listed files, in order. */
  function FileNames(files: seq<ListedFile>): (r: seq<string>)
    ensures |r| == |files| && forall i :: 0 <= i < |r| ==> r[i] == files[i].nameAll
  {
    seq(|files|, i requires 0 <= i < |files| => files[i].nameAll)
  }

  /** Every name among the first `n` that carries a version carries one at most `v`. */
  predicate AllAtMost(names: seq<string>, prefix: string, n: nat, v: string)
    requires n <= |names|
  {
    forall j :: 0 <= j < n && VersionInName(names[j], prefix).Some? ==>
      VersionOrder(VersionInName(names[j], prefix).value, v) <= 0
  }

  /** Every name among the first `n` that carries a version carries one strictly below `v`. */
  predicate AllBelow(names: seq<string>, prefix: string, n: nat, v: string)
    requires n <= |names|
  {
    forall j :: 0 <= j < n && VersionInName(names[j], prefix).Some? ==>
      VersionOrder(VersionInName(names[j], prefix).value, v) < 0
  }

  /**
   * Index `i` is the file the scan of a listing settles on, with version
   * `v`: above '0.0.0', at least every listed version, and strictly above
   * every version listed before it.
   */
  predicate IsLatest(names: seq<string>, prefix: string, i: nat, v: string) {
    i < |names| && VersionInName(names[i], prefix) == Some(v) && VersionOrder(v, "0.0.0") > 0
    && AllAtMost(names, prefix, |names|, v) && AllBelow(names, prefix, i, v)
  }

  /** At most one file of a listing is the latest one. */
  lemma LatestUnique(names: seq<string>, prefix: string, i: nat, v: string, j: nat, w: string)
    requires IsLatest(names, prefix, i, v) && IsLatest(names, prefix, j, w)
    ensures i == j && v == w
  {
    CompareAntisymmetric(Components(v), Components(w));
  }

  /**
   * The scan of a folder listing: among the names carrying a version, the
   * first whose version is strictly greater than every earlier one and than
   * '0.0.0'. Answers its index and version, or None and '0.0.0'.
   */
  method LatestFile(names: seq<string>, prefix: string) returns (latest: Option<nat>, latestVersion: string)
    ensures latest.None? ==> latestVersion == "0.0.0"
    ensures latest.None? <==> AllAtMost(names, prefix, |names|, "0.0.0")
    ensures latest.Some? ==> latest.value < |names| && VersionInName(names[latest.value], prefix) == Some(latestVersion)
    ensures latest.Some? ==> VersionOrder(latestVersion, "0.0.0") > 0
    ensures AllAtMost(names, prefix, |names|, latestVersion)
    ensures latest.Some? ==> AllBelow(names, prefix, latest.value, latestVersion)
    ensures latest.Some? ==> IsLatest(names, prefix, latest.value, latestVersion)
  {
    latest := None;
    latestVersion := "0.0.0";
    for i := 0 to |names|
      invariant latest.None? ==> latestVersion == "0.0.0"
      invariant latest.Some? ==> latest.value < i && VersionInName(names[latest.value], prefix) == Some(latestVersion)
      invariant latest.Some? ==> VersionOrder(latestVersion, "0.0.0") > 0
      invariant AllAtMost(names, prefix, i, latestVersion)
      invariant latest.Some? ==> AllBelow(names, prefix, latest.value, latestVersion)
    {
      var m := VersionInName(names[i], prefix);
      if m.Some? {
        var c := CompareVersions(m.value, latestVersion);
        if c > 0 {
          ScanStep(names, prefix, i, latestVersion, m.value);
          NewLatestAboveFloor(latestVersion, m.value, latest.None?);
          latest := Some(i);
          latestVersion := m.value;
        }
      }
    }
  }

  /** A version above the current latest is above '0.0.0' too. */
  lemma NewLatestAboveFloor(current: string, v: string, atFloor: bool)
    requires atFloor ==> current == "0.0.0"
    requires !atFloor ==> VersionOrder(current, "0.0.0") > 0
    requires VersionOrder(v, current) > 0
    ensures VersionOrder(v, "0.0.0") > 0
  {
    if !atFloor {
      CompareAntisymmetric(Components(current), Components(v));
      CompareAntisymmetric(Components("0.0.0"), Components(current));
      CompareAtMostTransitive(Components("0.0.0"), Components(current), Components(v));
      CompareAntisymmetric(Components("0.0.0"), Components(v));
    }
  }

  /** A strictly newer version is strictly above everything seen so far. */
  lemma ScanStep(names: seq<string>, prefix: string, i: nat, old_: string, v: string)
    requires i < |names|
    requires VersionOrder(v, old_) > 0
    requires AllAtMost(names, prefix, i, old_)
    requires VersionInName(names[i], prefix) == Some(v)
    ensures AllBelow(names, prefix, i, v)
    ensures AllAtMost(names, prefix, i + 1, v)
  {
    CompareAntisymmetric(Components(v), Components(old_));
    CompareSelf(Components(v));
    forall j | 0 <= j < i && VersionInName(names[j], prefix).Some?
      ensures VersionOrder(VersionInName(names[j], prefix).value, v) < 0
    {
      CompareAtMostTransitive(Components(VersionInName(names[j], prefix).value), Components(old_), Components(v));
    }
  }
}
