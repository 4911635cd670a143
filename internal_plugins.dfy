/**
 * The list of built-in (privileged) plugins and where they are loaded from
 * (src/main/core/internalPlugins.ts).
 */
module InternalPlugins {
  import opened Text

  /** `INTERNAL_PLUGIN_NAMES` */
  const InternalPluginNames: seq<string> := ["setting"]

  /** `isInternalPlugin`: membership in the built-in list. */
  predicate IsInternalPlugin(name: string) {
    name in InternalPluginNames
  }

  /** 'setting' is the one privileged name. */
  lemma OnlySettingIsInternal(name: string)
    ensures IsInternalPlugin(name) <==> name == "setting"
  {
  }

  /** `path.join` / `path.resolve` of two segments, with '/' as separator and no normalisation. */
  function PathJoin(dir: string, segment: string): (p: string)
    ensures StartsWith(p, dir) && EndsWith(p, segment) && |p| == |dir| + 1 + |segment|
  {
    dir + "/" + segment
  }

  /**
   * `getInternalPluginPath`: `<cwd>/internal-plugins/<name>` in development,
   * `<resourcesPath>/internal-plugins/<name>` when packaged.
   */
  function InternalPluginPath(name: string, isPackaged: bool, cwd: string, resourcesPath: string): (p: string)
    ensures !isPackaged ==> StartsWith(p, cwd + "/internal-plugins/")
    ensures isPackaged ==> StartsWith(p, resourcesPath + "/internal-plugins/")
    ensures EndsWith(p, "/" + name)
  {
    var base := if isPackaged then resourcesPath else cwd;
    assert PathJoin(PathJoin(base, "internal-plugins"), name) == (base + "/internal-plugins/") + name;
    assert PathJoin(PathJoin(base, "internal-plugins"), name) == (base + "/internal-plugins") + ("/" + name);
    PathJoin(PathJoin(base, "internal-plugins"), name)
  }

  /** The directory name of an internal plugin's path is the plugin name itself. */
  lemma {:induction false} InternalPathNamesPlugin(name: string, isPackaged: bool, cwd: string, resourcesPath: string)
    requires '/' !in name
    ensures var parts := Split(InternalPluginPath(name, isPackaged, cwd, resourcesPath), '/');
            parts[|parts| - 1] == name
  {
    var base := if isPackaged then resourcesPath else cwd;
    var p := InternalPluginPath(name, isPackaged, cwd, resourcesPath);
    assert p == (base + "/internal-plugins") + ("/" + name);
    SplitLastSegment(base + "/internal-plugins", name);
  }

  /** Splitting `dir + "/" + seg` on '/' ends with `seg` when `seg` has no '/'. */
  lemma {:induction false} SplitLastSegment(dir: string, seg: string)
    requires '/' !in seg
    ensures var parts := Split(dir + ("/" + seg), '/');
            parts[|parts| - 1] == seg
    decreases |dir|
  {
    if |dir| == 0 {
      assert dir + ("/" + seg) == "/" + seg;
      assert ("/" + seg)[1..] == seg;
      SplitWithoutSeparator(seg);
    } else {
      var s := dir + ("/" + seg);
      assert s[1..] == dir[1..] + ("/" + seg);
      SplitLastSegment(dir[1..], seg);
      SplitHasSeparator(s[1..], dir[1..], seg);
      var rest := Split(s[1..], '/');
      if s[0] == '/' {
        assert Split(s, '/') == [""] + rest;
      } else {
        assert Split(s, '/') == [[s[0]] + rest[0]] + rest[1..];
      }
    }
  }

  lemma {:induction false} SplitWithoutSeparator(s: string)
    requires '/' !in s
    ensures Split(s, '/') == [s]
    decreases |s|
  {
    if |s| > 0 {
      assert '/' !in s[1..] by {
        forall c | c in s[1..] ensures c != '/' {
          assert c in s;
        }
      }
      SplitWithoutSeparator(s[1..]);
      assert s[0] in s && [s[0]] + s[1..] == s;
    }
  }

  lemma {:induction false} SplitHasSeparator(t: string, dir: string, seg: string)
    requires t == dir + ("/" + seg)
    ensures |Split(t, '/')| >= 2
    decreases |t|
  {
    var parts := Split(t, '/');
    if |dir| == 0 {
      assert t[0] == '/';
      assert parts == [""] + Split(t[1..], '/');
    } else {
      assert t[1..] == dir[1..] + ("/" + seg);
      SplitHasSeparator(t[1..], dir[1..], seg);
      if t[0] == '/' {
        assert parts == [""] + Split(t[1..], '/');
      } else {
        var rest := Split(t[1..], '/');
        assert parts == [[t[0]] + rest[0]] + rest[1..];
      }
    }
  }
}
