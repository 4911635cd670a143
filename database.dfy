/**
 * The namespaced front end of the shared document store
 * (src/main/api/shared/database.ts).
 *
 * Every plugin sees its own partition `PLUGIN/<name>/` of one store: ids are
 * prefixed on the way in and the prefix is stripped on the way out. Host code
 * uses `ZTOOLS/<key>`. The lmdb engine behind it is not part of this model:
 * it is the abstract `Store` below, and wherever the engine runs a revision
 * check its verdict (`accepted`) and the revision it assigns (`newRev`) are
 * inputs.
 */
module Database {
  import opened Wrappers
  import opened Text

  /** A stored field value, kept as its serialised form. */
  type Value = string

  datatype Doc = Doc(id: string, rev: Option<string>, fields: map<string, Value>)

  /** The `{ id, ok, rev }` reply of a write. */
  datatype WriteResult = WriteResult(id: string, ok: bool, rev: Option<string>)

  /** The engine's state: documents by id and the attachment database by key. */
  datatype Store = Store(docs: map<string, Doc>, attachments: map<string, Value>)

  const PluginRoot: string := "PLUGIN/"
  const HostRoot: string := "ZTOOLS/"
  const AttachmentTag: string := "attachment:"
  const MetadataTag: string := "attachment-ext:"
  const DataField: string := "data"

  /** `PLUGIN/<name>/` */
  function PluginPrefix(name: string): (p: string)
    ensures StartsWith(p, PluginRoot) && |p| == |name| + 8 && p[|p| - 1] == '/'
    ensures p[7..|p| - 1] == name
  {
    PluginRoot + name + "/"
  }

  /**
   * `getPluginPrefix`: `viewPlugin` is the name pluginManager reports for the
   * sender, `windowPlugin` the name the plugin-window registry reports for
   * its webContents id. An empty window name is falsy and does not count.
   */
  function GetPluginPrefix(viewPlugin: Option<string>, windowPlugin: Option<string>): (r: Option<string>)
    ensures r.Some? <==> viewPlugin.Some? || (windowPlugin.Some? && windowPlugin.value != "")
    ensures viewPlugin.Some? ==> r == Some(PluginPrefix(viewPlugin.value))
    ensures viewPlugin.None? && r.Some? ==> r == Some(PluginPrefix(windowPlugin.value))
  {
    if viewPlugin.Some? then Some(PluginPrefix(viewPlugin.value))
    else if windowPlugin.Some? && windowPlugin.value != "" then Some(PluginPrefix(windowPlugin.value))
    else None
  }

  /** Inbound rewrite: `if (prefix) id = prefix + id`. */
  function Scope(prefix: Option<string>, id: string): string {
    if prefix.Some? then prefix.value + id else id
  }

  /** Outbound rewrite: `if (prefix && id && id.startsWith(prefix)) id = id.slice(prefix.length)`. */
  function Unscope(prefix: Option<string>, id: string): (r: string)
    ensures prefix.None? ==> r == id
    ensures prefix.Some? && StartsWith(id, prefix.value) ==> prefix.value + r == id
    ensures prefix.Some? && !StartsWith(id, prefix.value) ==> r == id
  {
    if prefix.Some? && id != "" && StartsWith(id, prefix.value) then id[|prefix.value|..] else id
  }

  /** Stripping undoes prefixing, for every caller and every id. */
  lemma UnscopeScope(prefix: Option<string>, id: string)
    ensures Unscope(prefix, Scope(prefix, id)) == id
  {
    if prefix.Some? {
      var p := prefix.value;
      assert StartsWith(p + id, p);
      assert (p + id)[|p|..] == id;
    }
  }

  /** Prefixing is injective per caller: distinct ids never share a stored id. */
  lemma ScopeInjective(prefix: Option<string>, a: string, b: string)
    ensures Scope(prefix, a) == Scope(prefix, b) ==> a == b
  {
    UnscopeScope(prefix, a);
    UnscopeScope(prefix, b);
  }

  /**
   * Two distinct plugin names without '/' give prefixes neither of which
   * starts the other.
   */
  lemma PrefixesIncomparable(a: string, b: string)
    requires a != b && '/' !in a && '/' !in b
    ensures !StartsWith(PluginPrefix(a), PluginPrefix(b))
  {
    var pa, pb := PluginPrefix(a), PluginPrefix(b);
    if |b| < |a| {
      assert a[|b|] in a;
      assert pa[7 + |b|] != pb[7 + |b|];
    } else if |b| == |a| {
      assert pa[7..|pa| - 1] != pb[7..|pb| - 1];
    }
  }

  /** Hence ids stored by two different plugins never collide and never shadow each other. */
  lemma NamespacesDisjoint(a: string, b: string, k: string)
    requires a != b && '/' !in a && '/' !in b
    ensures !StartsWith(Scope(Some(PluginPrefix(a)), k), PluginPrefix(b))
  {
    var pa, pb := PluginPrefix(a), PluginPrefix(b);
    if |pb| <= |pa| {
      PrefixesIncomparable(a, b);
      assert (pa + k)[..|pb|] == pa[..|pb|];
    } else {
      assert b[|pa| - 8] in b;
      assert pb[|pa| - 1] == b[|pa| - 8];
      assert (pa + k)[|pa| - 1] == '/';
    }
  }

  /** Host ids `ZTOOLS/...` never fall in a plugin namespace. */
  lemma HostOutsidePlugins(key: string, name: string)
    ensures !StartsWith(HostRoot + key, PluginPrefix(name))
  {
    assert (HostRoot + key)[0] == 'Z' && PluginPrefix(name)[0] == 'P';
  }

  // ---------------------------------------------------------------------
  // The abstract engine

  function EngineGet(s: Store, id: string): Option<Doc> {
    if id in s.docs then Some(s.docs[id]) else None
  }

  /** An accepted put stores the document under its id with the new revision. */
  function EnginePut(s: Store, doc: Doc, accepted: bool, newRev: string): (Store, WriteResult) {
    if accepted then
      (s.(docs := s.docs[doc.id := doc.(rev := Some(newRev))]), WriteResult(doc.id, true, Some(newRev)))
    else
      (s, WriteResult(doc.id, false, None))
  }

  /** A remove succeeds when the engine accepts it and the id is stored. */
  function EngineRemove(docs: map<string, Doc>, id: string, accepted: bool): (map<string, Doc>, WriteResult) {
    if accepted && id in docs then (docs - {id}, WriteResult(id, true, None))
    else (docs, WriteResult(id, false, None))
  }

  // ---------------------------------------------------------------------
  // The db:* handlers (the synchronous and the promise channel run these same functions)

  /** `db:put` */
  function HandlePut(s: Store, prefix: Option<string>, doc: Doc, accepted: bool, newRev: string): (r: (Store, WriteResult))
    ensures r.1.id == doc.id && r.1.ok == accepted
    ensures accepted ==> r.0.docs == s.docs[Scope(prefix, doc.id) := Doc(Scope(prefix, doc.id), Some(newRev), doc.fields)]
    ensures !accepted ==> r.0 == s
  {
    var (s', res) := EnginePut(s, doc.(id := Scope(prefix, doc.id)), accepted, newRev);
    UnscopeScope(prefix, doc.id);
    (s', res.(id := Unscope(prefix, res.id)))
  }

  /** `db:get` */
  function HandleGet(s: Store, prefix: Option<string>, id: string): (r: Option<Doc>)
    ensures r.Some? <==> Scope(prefix, id) in s.docs
    ensures r.Some? ==> r.value.fields == s.docs[Scope(prefix, id)].fields
  {
    match EngineGet(s, Scope(prefix, id))
    case None => None
    case Some(d) =>
      if prefix.Some? && StartsWith(d.id, prefix.value) then Some(d.(id := Unscope(prefix, d.id))) else Some(d)
  }

  /** A plugin reads back what it wrote, under the id it wrote it with. */
  lemma PutThenGet(s: Store, prefix: Option<string>, doc: Doc, newRev: string)
    ensures HandleGet(HandlePut(s, prefix, doc, true, newRev).0, prefix, doc.id) == Some(doc.(rev := Some(newRev)))
  {
    UnscopeScope(prefix, doc.id);
  }

  /** A write by plugin `a` changes nothing in the namespace of plugin `b`. */
  lemma PutIsolation(s: Store, a: string, b: string, doc: Doc, accepted: bool, newRev: string, k: string)
    requires a != b && '/' !in a && '/' !in b
    requires StartsWith(k, PluginPrefix(b))
    ensures var s' := HandlePut(s, Some(PluginPrefix(a)), doc, accepted, newRev).0;
            (k in s'.docs <==> k in s.docs) && (k in s.docs ==> s'.docs[k] == s.docs[k])
  {
    NamespacesDisjoint(a, b, doc.id);
  }

  datatype DocOrId = ById(id: string) | ByDoc(doc: Doc)

  /** `db:remove`: a string id or a document, prefixed either way. */
  function HandleRemove(s: Store, prefix: Option<string>, target: DocOrId, accepted: bool): (r: (Store, WriteResult))
    ensures var id := match target case ById(i) => i case ByDoc(d) => d.id;
            r.1.id == id && (r.1.ok <==> accepted && Scope(prefix, id) in s.docs)
            && r.0.docs == if r.1.ok then s.docs - {Scope(prefix, id)} else s.docs
  {
    var id := match target case ById(i) => i case ByDoc(d) => d.id;
    var (docs', res) := EngineRemove(s.docs, Scope(prefix, id), accepted);
    UnscopeScope(prefix, id);
    (s.(docs := docs'), res.(id := Unscope(prefix, res.id)))
  }

  /** The key of `db:all-docs`: an array of ids, one id prefix, or nothing. */
  datatype AllDocsKey = Keys(keys: seq<string>) | Key(key: string) | NoKey

  /** The key rewrite of `db:all-docs`. */
  function RewriteAllDocsKey(prefix: Option<string>, key: AllDocsKey): (r: AllDocsKey)
    ensures prefix.None? ==> r == key
    ensures prefix.Some? && key.Keys? ==>
              r.Keys? && |r.keys| == |key.keys| && forall i :: 0 <= i < |key.keys| ==> r.keys[i] == prefix.value + key.keys[i]
    ensures prefix.Some? && key.Key? ==> r == Key(prefix.value + key.key)
    ensures prefix.Some? && key.NoKey? ==> r == Key(prefix.value)
  {
    if prefix.None? then key
    else match key
      case Keys(ks) => Keys(seq(|ks|, i requires 0 <= i < |ks| => prefix.value + ks[i]))
      case Key(k) => Key(prefix.value + k)
      case NoKey => Key(prefix.value)
  }

  /** `docs.forEach(doc => doc._id = prefix + doc._id)` of `db:bulk-docs`. */
  method ScopeIdsInPlace(docs: array<Doc>, prefix: Option<string>)
    modifies docs
    ensures forall i :: 0 <= i < docs.Length ==> docs[i] == old(docs[i]).(id := Scope(prefix, old(docs[i]).id))
  {
    if prefix.None? {
      return;
    }
    var i := 0;
    while i < docs.Length
      invariant 0 <= i <= docs.Length
      invariant forall j :: 0 <= j < i ==> docs[j] == old(docs[j]).(id := Scope(prefix, old(docs[j]).id))
      invariant forall j :: i <= j < docs.Length ==> docs[j] == old(docs[j])
    {
      docs[i] := docs[i].(id := prefix.value + docs[i].id);
      i := i + 1;
    }
  }

  /** The result loop of `db:bulk-docs`: every result id loses the caller's prefix. */
  method UnscopeResultsInPlace(results: array<WriteResult>, prefix: Option<string>)
    modifies results
    ensures forall i :: 0 <= i < results.Length ==> results[i] == old(results[i]).(id := Unscope(prefix, old(results[i]).id))
  {
    if prefix.None? {
      return;
    }
    var i := 0;
    while i < results.Length
      invariant 0 <= i <= results.Length
      invariant forall j :: 0 <= j < i ==> results[j] == old(results[j]).(id := Unscope(prefix, old(results[j]).id))
      invariant forall j :: i <= j < results.Length ==> results[j] == old(results[j])
    {
      var r := results[i];
      if r.id != "" && StartsWith(r.id, prefix.value) {
        results[i] := r.(id := r.id[|prefix.value|..]);
      }
      i := i + 1;
    }
  }

  /** The result loop of `db:all-docs`: every returned document loses the caller's prefix. */
  method UnscopeDocsInPlace(docs: array<Doc>, prefix: Option<string>)
    modifies docs
    ensures forall i :: 0 <= i < docs.Length ==> docs[i] == old(docs[i]).(id := Unscope(prefix, old(docs[i]).id))
  {
    if prefix.None? {
      return;
    }
    var i := 0;
    while i < docs.Length
      invariant 0 <= i <= docs.Length
      invariant forall j :: 0 <= j < i ==> docs[j] == old(docs[j]).(id := Unscope(prefix, old(docs[j]).id))
      invariant forall j :: i <= j < docs.Length ==> docs[j] == old(docs[j])
    {
      if StartsWith(docs[i].id, prefix.value) {
        docs[i] := docs[i].(id := docs[i].id[|prefix.value|..]);
      }
      i := i + 1;
    }
  }

  /** The reply of `db:bulk-docs`: an array of results, or an engine error object passed through. */
  datatype BulkReply = Results(results: seq<WriteResult>) | ErrorObject(message: string)

  /**
   * `db:bulk-docs`: every document is prefixed in place, the engine's reply
   * is stripped when it is an array.
   */
  method HandleBulkDocs(docs: array<Doc>, prefix: Option<string>, reply: BulkReply) returns (out: BulkReply)
    modifies docs
    ensures forall i :: 0 <= i < docs.Length ==> docs[i].id == Scope(prefix, old(docs[i].id))
    ensures reply.ErrorObject? ==> out == reply
    ensures reply.Results? ==> out.Results? && |out.results| == |reply.results|
    ensures reply.Results? ==> forall i :: 0 <= i < |reply.results| ==> out.results[i] == reply.results[i].(id := Unscope(prefix, reply.results[i].id))
  {
    ScopeIdsInPlace(docs, prefix);
    if reply.Results? {
      var a := new WriteResult[|reply.results|](i requires 0 <= i < |reply.results| => reply.results[i]);
      UnscopeResultsInPlace(a, prefix);
      out := Results(a[..]);
    } else {
      out := reply;
    }
  }

  /** `db:post-attachment`, `db:get-attachment` and `db:get-attachment-type` address `prefix + id`. */
  function AttachmentRequestId(prefix: Option<string>, id: string): (r: string)
    ensures prefix.Some? ==> r == prefix.value + id && Unscope(prefix, r) == id
    ensures prefix.None? ==> r == id
  {
    UnscopeScope(prefix, id);
    Scope(prefix, id)
  }

  // ---------------------------------------------------------------------
  // db-storage:* (a localStorage-like view; the engine may throw)

  /** The document `db-storage:set-item` writes: `{ _id, data }` plus the stored `_rev`. */
  function StorageDoc(s: Store, prefix: Option<string>, key: string, value: Value): (d: Doc)
    ensures d.id == Scope(prefix, key) && d.fields == map[DataField := value]
    ensures d.rev == (if d.id in s.docs then s.docs[d.id].rev else None)
  {
    var id := Scope(prefix, key);
    Doc(id, if id in s.docs then s.docs[id].rev else None, map[DataField := value])
  }

  /** What `set-item` and `remove-item` return: undefined, the failed result, or `{ error }`. */
  datatype StorageReply = Done | Rejected(result: WriteResult) | Thrown(error: string)

  /** `db-storage:set-item`; `thrown` is the engine's exception, if it raised one. */
  function StorageSetItem(s: Store, prefix: Option<string>, key: string, value: Value,
                          accepted: bool, newRev: string, thrown: Option<string>): (r: (Store, StorageReply))
    ensures thrown.Some? ==> r == (s, Thrown(thrown.value))
    ensures thrown.None? ==> (r.1 == Done <==> accepted)
    ensures thrown.None? && accepted ==> StorageGetItem(r.0, prefix, key, None) == Some(value)
  {
    if thrown.Some? then (s, Thrown(thrown.value))
    else
      var (s', res) := EnginePut(s, StorageDoc(s, prefix, key, value), accepted, newRev);
      (s', if res.ok then Done else Rejected(res))
  }

  /** `db-storage:get-item`: the stored `data`, or null when absent or when the engine throws. */
  function StorageGetItem(s: Store, prefix: Option<string>, key: string, thrown: Option<string>): (r: Option<Value>)
    ensures thrown.Some? ==> r.None?
    ensures r.Some? ==> Scope(prefix, key) in s.docs && DataField in s.docs[Scope(prefix, key)].fields
                        && s.docs[Scope(prefix, key)].fields[DataField] == r.value
  {
    if thrown.Some? then None
    else match EngineGet(s, Scope(prefix, key))
      case None => None
      case Some(d) => if DataField in d.fields then Some(d.fields[DataField]) else None
  }

  /** `db-storage:remove-item` */
  function StorageRemoveItem(s: Store, prefix: Option<string>, key: string, accepted: bool,
                             thrown: Option<string>): (r: (Store, StorageReply))
    ensures thrown.Some? ==> r == (s, Thrown(thrown.value))
    ensures thrown.None? ==> (r.1 == Done <==> accepted && Scope(prefix, key) in s.docs)
    ensures r.1 == Done ==> StorageGetItem(r.0, prefix, key, None).None?
  {
    if thrown.Some? then (s, Thrown(thrown.value))
    else
      var (docs', res) := EngineRemove(s.docs, Scope(prefix, key), accepted);
      (s.(docs := docs'), if res.ok then Done else Rejected(res))
  }

  // ---------------------------------------------------------------------
  // Host helpers on the ZTOOLS namespace

  /** `dbPut(key, data)`: writes `{ _id: 'ZTOOLS/' + key, data }` with the stored `_rev`; errors are rethrown. */
  function DbPut(s: Store, key: string, value: Value, accepted: bool, newRev: string,
                 thrown: Option<string>): (r: Result<(Store, WriteResult), string>)
    ensures thrown.Some? ==> r == Failure(thrown.value)
    ensures thrown.None? ==> r.Success? && r.value.1 == WriteResult(HostRoot + key, accepted, if accepted then Some(newRev) else None)
    ensures thrown.None? && accepted ==>
              r.value.0.docs == s.docs[HostRoot + key := Doc(HostRoot + key, Some(newRev), map[DataField := value])]
  {
    if thrown.Some? then Failure(thrown.value)
    else Success(EnginePut(s, StorageDoc(s, Some(HostRoot), key, value), accepted, newRev))
  }

  /** `dbGet(key)`: `data` of `ZTOOLS/` + key, or null when absent or when the engine throws. */
  function DbGet(s: Store, key: string, thrown: Option<string>): (r: Option<Value>)
    ensures r.Some? ==> thrown.None? && HostRoot + key in s.docs
  {
    StorageGetItem(s, Some(HostRoot), key, thrown)
  }

  /** What the host puts, it gets back. */
  lemma DbPutThenGet(s: Store, key: string, value: Value, newRev: string)
    ensures var r := DbPut(s, key, value, true, newRev, None);
            r.Success? && DbGet(r.value.0, key, None) == Some(value)
  {
  }

  /** The revision a host write carries is the one stored before it. */
  lemma DbPutCarriesRevision(s: Store, key: string, value: Value)
    requires HostRoot + key in s.docs
    ensures StorageDoc(s, Some(HostRoot), key, value).rev == s.docs[HostRoot + key].rev
  {
  }

  // ---------------------------------------------------------------------
  // Plugin data management

  /** Length of the leading run of non-'/' characters. */
  function SegmentLength(s: string): (n: nat)
    ensures n <= |s| && '/' !in s[..n] && (n < |s| ==> s[n] == '/')
  {
    if |s| == 0 || s[0] == '/' then 0
    else
      var n := SegmentLength(s[1..]);
      assert s[..n + 1] == [s[0]] + s[1..][..n];
      n + 1
  }

  /** The name the pattern `^PLUGIN\/([^/]+)\/` captures, if it matches. */
  function ParsePluginName(id: string): (r: Option<string>)
    ensures r.Some? ==> r.value != "" && '/' !in r.value && StartsWith(id, PluginPrefix(r.value))
  {
    if !StartsWith(id, PluginRoot) then None
    else
      var rest := id[7..];
      var n := SegmentLength(rest);
      if 0 < n < |rest| then
        assert id[..8 + n] == PluginRoot + rest[..n] + "/";
        Some(rest[..n])
      else None
  }

  /** The parser recovers the name of every plugin id. */
  lemma ParseRecoversName(name: string, key: string)
    requires name != "" && '/' !in name
    ensures ParsePluginName(PluginPrefix(name) + key) == Some(name)
  {
    var id := PluginPrefix(name) + key;
    assert StartsWith(id, PluginRoot);
    var rest := id[7..];
    assert rest == name + ("/" + key);
    SegmentOf(name, "/" + key);
    assert rest[..|name|] == name;
  }

  lemma {:induction false} SegmentOf(seg: string, tail: string)
    requires '/' !in seg && |tail| > 0 && tail[0] == '/'
    ensures SegmentLength(seg + tail) == |seg|
    decreases |seg|
  {
    if |seg| > 0 {
      assert (seg + tail)[1..] == seg[1..] + tail;
      SegmentOf(seg[1..], tail);
    }
  }

  /** The name `^attachment-ext:PLUGIN\/([^/]+)\/` captures. */
  function ParseMetadataName(key: string): (r: Option<string>)
    ensures r.Some? ==> StartsWith(key, MetadataTag + PluginPrefix(r.value))
  {
    if StartsWith(key, MetadataTag) then
      var r := ParsePluginName(key[|MetadataTag|..]);
      if r.Some? then
        assert key == MetadataTag + key[|MetadataTag|..];
        r
      else None
    else None
  }

  /** Ids in `ids` that the statistics parser attributes to plugin `name`. */
  function Attributed(ids: set<string>, name: string): set<string> {
    set id | id in ids && ParsePluginName(id) == Some(name)
  }

  /** Attachment-metadata keys in `keys` attributed to plugin `name`. */
  function AttributedMetadata(keys: set<string>, name: string): set<string> {
    set k | k in keys && ParseMetadataName(k) == Some(name)
  }

  datatype PluginStat = PluginStat(docCount: nat, attachmentCount: nat)

  /** Keys in `keys` that `parse` attributes to `name`. */
  function Tagged(keys: set<string>, parse: string -> Option<string>, name: string): set<string> {
    set k | k in keys && parse(k) == Some(name)
  }

  /** How often `name` was counted so far: absent names count zero. */
  function CountOf(counts: map<string, nat>, name: string): nat {
    if name in counts then counts[name] else 0
  }

  lemma TaggedStep(seen: set<string>, k: string, parse: string -> Option<string>, n: string)
    requires k !in seen
    ensures |Tagged(seen + {k}, parse, n)| == |Tagged(seen, parse, n)| + (if parse(k) == Some(n) then 1 else 0)
  {
    if parse(k) == Some(n) {
      assert Tagged(seen + {k}, parse, n) == Tagged(seen, parse, n) + {k};
    } else {
      assert Tagged(seen + {k}, parse, n) == Tagged(seen, parse, n);
    }
  }

  /** One counting loop of `_getPluginDataStats`: per name, how many keys the pattern attributes to it. */
  method Tally(keys: set<string>, parse: string -> Option<string>) returns (counts: map<string, nat>)
    ensures forall n :: CountOf(counts, n) == |Tagged(keys, parse, n)|
    ensures forall n :: n in counts ==> counts[n] > 0
  {
    var remaining := keys;
    ghost var seen: set<string> := {};
    counts := map[];
    while remaining != {}
      invariant remaining !! seen && remaining + seen == keys
      invariant forall n :: CountOf(counts, n) == |Tagged(seen, parse, n)|
      invariant forall n :: n in counts ==> counts[n] > 0
      decreases |remaining|
    {
      var k :| k in remaining;
      var m := parse(k);
      if m.Some? {
        counts := counts[m.value := CountOf(counts, m.value) + 1];
      }
      forall n ensures CountOf(counts, n) == |Tagged(seen + {k}, parse, n)| {
        TaggedStep(seen, k, parse, n);
      }
      remaining := remaining - {k};
      seen := seen + {k};
    }
  }

  /**
   * `_getPluginDataStats`: per plugin name, the number of documents listed
   * under `PLUGIN/` and of attachment-metadata keys in the range
   * `attachment-ext:PLUGIN/` that the name patterns attribute to it.
   */
  method PluginDataStats(s: Store) returns (stats: map<string, PluginStat>)
    ensures forall n :: n in stats ==> stats[n] == PluginStat(|Attributed(s.docs.Keys, n)|, |AttributedMetadata(s.attachments.Keys, n)|)
    ensures forall n :: n !in stats ==> |Attributed(s.docs.Keys, n)| == 0 && |AttributedMetadata(s.attachments.Keys, n)| == 0
  {
    var listed := set id | id in s.docs && StartsWith(id, PluginRoot);
    var docCounts := Tally(listed, ParsePluginName);
    var metaListed := set k | k in s.attachments && StartsWith(k, MetadataTag + PluginRoot);
    var metaCounts := Tally(metaListed, ParseMetadataName);
    forall n ensures Tagged(listed, ParsePluginName, n) == Attributed(s.docs.Keys, n)
                  && Tagged(metaListed, ParseMetadataName, n) == AttributedMetadata(s.attachments.Keys, n) {
      forall k | k in s.attachments && ParseMetadataName(k) == Some(n) ensures k in metaListed {
        assert (MetadataTag + PluginPrefix(n))[..|MetadataTag + PluginRoot|] == MetadataTag + PluginRoot;
      }
    }
    stats := map n | n in docCounts.Keys + metaCounts.Keys :: PluginStat(CountOf(docCounts, n), CountOf(metaCounts, n));
  }

  /** An installed plugin's name and logo, as `ZTOOLS/plugins` lists them. */
  datatype InstalledPlugin = InstalledPlugin(name: string, logo: string)

  /** `plugins.find(p => p.name === name)?.logo || null` */
  function LogoOf(plugins: seq<InstalledPlugin>, name: string): (r: Option<string>)
    ensures r.Some? ==> r.value != "" && exists i :: 0 <= i < |plugins| && plugins[i] == InstalledPlugin(name, r.value)
    ensures (forall i :: 0 <= i < |plugins| ==> plugins[i].name != name) ==> r.None?
  {
    if |plugins| == 0 then None
    else if plugins[0].name == name then (if plugins[0].logo != "" then Some(plugins[0].logo) else None)
    else
      var r := LogoOf(plugins[1..], name);
      if r.Some? then
        ghost var i :| 0 <= i < |plugins[1..]| && plugins[1..][i] == InstalledPlugin(name, r.value);
        assert plugins[i + 1] == InstalledPlugin(name, r.value);
        r
      else r
  }

  datatype KeyKind = Document | Attachment

  /** `_getPluginDocKeys`: every document key and attachment key of one plugin, prefix removed. */
  function PluginDocKeys(s: Store, name: string): (r: set<(string, KeyKind)>)
    ensures forall key :: (key, Document) in r <==> PluginPrefix(name) + key in s.docs
    ensures forall key :: (key, Attachment) in r <==> MetadataTag + PluginPrefix(name) + key in s.attachments
  {
    var p := PluginPrefix(name);
    var mp := MetadataTag + p;
    var docKeys := set id | id in s.docs && StartsWith(id, p) :: (id[|p|..], Document);
    var attKeys := set k | k in s.attachments && StartsWith(k, mp) :: (k[|mp|..], Attachment);
    assert forall key :: p + key in s.docs ==> (key, Document) in docKeys by {
      forall key | p + key in s.docs ensures (key, Document) in docKeys {
        assert StartsWith(p + key, p) && (p + key)[|p|..] == key;
      }
    }
    assert forall key :: mp + key in s.attachments ==> (key, Attachment) in attKeys by {
      forall key | mp + key in s.attachments ensures (key, Attachment) in attKeys {
        assert StartsWith(mp + key, mp) && (mp + key)[|mp|..] == key;
      }
    }
    assert forall id :: StartsWith(id, p) ==> id == p + id[|p|..];
    assert forall k :: StartsWith(k, mp) ==> k == mp + k[|mp|..];
    assert MetadataTag + PluginPrefix(name) == mp;
    docKeys + attKeys
  }

  /** What `_getPluginDoc` finds: the document, or the attachment's metadata under the document id. */
  datatype PluginDocView = FoundDocument(doc: Doc) | FoundAttachment(id: string, metadata: Value)

  const DocNotFound: string := "文档不存在"

  /** `_getPluginDoc`: the document first, then the attachment metadata, else an error. */
  function GetPluginDoc(s: Store, name: string, key: string): (r: Result<PluginDocView, string>)
    ensures var id := PluginPrefix(name) + key;
            (id in s.docs ==> r == Success(FoundDocument(s.docs[id])))
            && ((id !in s.docs && MetadataTag + id in s.attachments && s.attachments[MetadataTag + id] != "")
                ==> r == Success(FoundAttachment(id, s.attachments[MetadataTag + id])))
            && (r.Failure? <==> id !in s.docs && (MetadataTag + id !in s.attachments || s.attachments[MetadataTag + id] == ""))
            && (r.Failure? ==> r.error == DocNotFound)
  {
    var id := PluginPrefix(name) + key;
    if id in s.docs then Success(FoundDocument(s.docs[id]))
    else if MetadataTag + id in s.attachments && s.attachments[MetadataTag + id] != "" then
      Success(FoundAttachment(id, s.attachments[MetadataTag + id]))
    else Failure(DocNotFound)
  }

  /** Removes `keys` from the attachment database one by one, counting the removals. */
  method RemoveAttachmentKeys(m: map<string, Value>, keys: set<string>) returns (m': map<string, Value>, count: nat)
    requires keys <= m.Keys
    ensures m'.Keys == m.Keys - keys && (forall k :: k in m' ==> m'[k] == m[k]) && count == |keys|
  {
    m' := m;
    count := 0;
    var remaining := keys;
    while remaining != {}
      invariant remaining <= keys
      invariant count == |keys - remaining|
      invariant m' == Without(m, keys - remaining)
      decreases |remaining|
    {
      var k :| k in remaining;
      KeyStep(m, keys, remaining, k);
      m' := m' - {k};
      count := count + 1;
      remaining := remaining - {k};
    }
    assert keys - remaining == keys;
    WithoutKeys(m, keys);
  }

  /** One turn of the attachment loop: one more key removed and counted. */
  lemma KeyStep<V>(m: map<string, V>, keys: set<string>, remaining: set<string>, k: string)
    requires k in remaining && remaining <= keys
    ensures |keys - (remaining - {k})| == |keys - remaining| + 1
    ensures Without(m, keys - remaining) - {k} == Without(m, keys - (remaining - {k}))
  {
    assert keys - (remaining - {k}) == (keys - remaining) + {k};
    WithoutOneMore(m, keys - remaining, k);
  }

  /** What is left after removing `keys`: the other keys, with their values. */
  lemma WithoutKeys<V>(m: map<string, V>, keys: set<string>)
    ensures Without(m, keys).Keys == m.Keys - keys
    ensures forall k :: k in Without(m, keys) ==> Without(m, keys)[k] == m[k]
  {
  }

  /** `m` without the entries of `keys`. */
  function Without<V>(m: map<string, V>, keys: set<string>): map<string, V> {
    map k | k in m && k !in keys :: m[k]
  }

  lemma WithoutOneMore<V>(m: map<string, V>, keys: set<string>, x: string)
    ensures Without(m, keys) - {x} == Without(m, keys + {x})
  {
  }

  /** One turn of the document loop: a refused id changes nothing, any other is removed and counted. */
  lemma DoneStep<V>(m: map<string, V>, ids: set<string>, remaining: set<string>, refused: set<string>, id: string)
    requires id in remaining && remaining <= ids <= m.Keys
    ensures var done := (ids - remaining) - refused;
            var done' := (ids - (remaining - {id})) - refused;
            (id in refused ==> done' == done)
            && (id !in refused ==> |done'| == |done| + 1 && id in Without(m, done) && Without(m, done) - {id} == Without(m, done'))
  {
    var done := (ids - remaining) - refused;
    var done' := (ids - (remaining - {id})) - refused;
    if id !in refused {
      assert id !in done && done' == done + {id};
      WithoutOneMore(m, done, id);
    } else {
      assert done' == done;
    }
  }

  /** The document loop of `_clearPluginData`: one engine removal per listed id, counting the successful ones. */
  method RemoveDocuments(s: Store, ids: set<string>, refused: set<string>) returns (s': Store, count: nat)
    requires ids <= s.docs.Keys
    ensures s'.attachments == s.attachments && count == |ids - refused|
    ensures s'.docs == Without(s.docs, ids - refused)
  {
    var docs := s.docs;
    count := 0;
    var remaining := ids;
    while remaining != {}
      invariant remaining <= ids
      invariant count == |(ids - remaining) - refused|
      invariant docs == Without(s.docs, (ids - remaining) - refused)
      decreases |remaining|
    {
      var id :| id in remaining;
      DoneStep(s.docs, ids, remaining, refused, id);
      var removal := EngineRemove(docs, id, id !in refused);
      assert removal.1.ok == (id !in refused);
      if removal.1.ok {
        count := count + 1;
      }
      docs := removal.0;
      remaining := remaining - {id};
    }
    s' := s.(docs := docs);
  }

  /**
   * `_clearPluginData`: removes every document of the plugin (the engine
   * refuses the ids in `refused`), then every `attachment:` blob and every
   * `attachment-ext:` metadata key of the plugin. Only successful document
   * removals and blob removals are counted.
   */
  method ClearPluginData(s: Store, name: string, refused: set<string>) returns (s': Store, deletedCount: nat)
    ensures var p := PluginPrefix(name);
            var docIds := set id | id in s.docs && StartsWith(id, p);
            var blobs := set k | k in s.attachments && StartsWith(k, AttachmentTag + p);
            deletedCount == |docIds - refused| + |blobs|
            && s'.docs.Keys == s.docs.Keys - (docIds - refused)
            && s'.attachments.Keys == set k | k in s.attachments && !StartsWith(k, AttachmentTag + p) && !StartsWith(k, MetadataTag + p)
    ensures forall id :: id in s'.docs ==> s'.docs[id] == s.docs[id]
    ensures forall k :: k in s'.attachments ==> s'.attachments[k] == s.attachments[k]
  {
    var p := PluginPrefix(name);
    var docIds := set id | id in s.docs && StartsWith(id, p);
    var docCount;
    s', docCount := RemoveDocuments(s, docIds, refused);

    var blobs := set k | k in s.attachments && StartsWith(k, AttachmentTag + p);
    var metadata := set k | k in s.attachments && StartsWith(k, MetadataTag + p);
    var afterBlobs, blobCount := RemoveAttachmentKeys(s.attachments, blobs);
    assert metadata <= afterBlobs.Keys by {
      forall k | k in metadata ensures k !in blobs {
        BlobAndMetadataKeysDisjoint(p, k);
      }
    }
    var afterMetadata, _ := RemoveAttachmentKeys(afterBlobs, metadata);
    s' := s'.(attachments := afterMetadata);
    deletedCount := docCount + blobCount;
  }

  /** `attachment:` and `attachment-ext:` keys never overlap, so clearing never counts a metadata key. */
  lemma BlobAndMetadataKeysDisjoint(p: string, k: string)
    ensures !(StartsWith(k, AttachmentTag + p) && StartsWith(k, MetadataTag + p))
  {
    assert (AttachmentTag + p)[10] == ':' && (MetadataTag + p)[10] == '-';
  }
}
