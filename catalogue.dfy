/**
 * Records shared by the launcher's command catalogue: the `cmds` entries of
 * a plugin manifest, its features, installed plugins, and the command items
 * shown in search, history and the pinned list.
 *
 * JavaScript's optional fields are modelled two ways: a string that the
 * code only tests for truthiness is "" when absent; a field tested with
 * `!== undefined` or `??` is an Option.
 */
module Catalogue {
  import opened Wrappers

  /** A `cmds` entry: a plain text command or a match command object (`name` is its `label` field, `pattern` its `match` field). */
  datatype Cmd =
    | TextCmd(text: string)
    | ObjectCmd(kind: string, name: string, pattern: string, regex: string,
                minLength: Option<int>, maxLength: Option<int>, exclude: string,
                fileType: string, extensions: Option<seq<string>>)

  /** A manifest feature; `cmds` is None when missing or not an array. */
  datatype Feature = Feature(code: string, explain: string, icon: string, cmds: Option<seq<Cmd>>)

  /** An installed plugin as the `plugins` setting lists it; `features` is None when missing or not an array. */
  datatype Plugin = Plugin(name: string, path: string, logo: string, version: string, description: string,
                           main: string, features: Option<seq<Feature>>, isDevelopment: bool)

  /** A command item (`Command`, and `HistoryItem` with its `lastUsed` / `useCount`). */
  datatype Command = Command(
    name: string,
    path: string,
    icon: Option<string>,
    kind: string,
    subType: string,
    featureCode: Option<string>,
    pluginExplain: string,
    cmdType: string,
    matchCmd: Option<Cmd>,
    lastUsed: int,
    useCount: int)

  /** A bare command record of the given kind at a path. */
  function Item(name: string, path: string, kind: string): Command {
    Command(name, path, None, kind, "", None, "", "", None, 0, 0)
  }

  /**
   * The rule `removeFromHistory`, `pinApp`, `unpinApp` and `isPinned` share:
   * with a feature code given, a plugin entry is named by path and code;
   * every other entry by its path alone.
   */
  predicate Names(item: Command, path: string, featureCode: Option<string>) {
    if item.kind == "plugin" && featureCode.Some? then item.path == path && item.featureCode == featureCode
    else item.path == path
  }

  /** An item names its own path and feature code. */
  lemma NamesItself(item: Command)
    ensures Names(item, item.path, item.featureCode)
  {
  }

  /** `isPinned(path, featureCode)`, and the existence test of `pinApp`: some entry of the list is named. */
  predicate IsPinned(pinned: seq<Command>, path: string, featureCode: Option<string>) {
    exists e :: e in pinned && Names(e, path, featureCode)
  }

  /** An installed application as the scanner reports it. */
  datatype App = App(name: string, path: string, icon: string)

  /** A Windows system setting (`ms-settings:` URI). */
  datatype Setting = Setting(name: string, uri: string)
}
