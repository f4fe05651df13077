/**
 * The restore side of the dashboard pipeline (grafana_restore.py): every
 * datasource reference in a backed-up dashboard is remapped to a datasource
 * that exists on the target server, empty panel-level references are
 * back-filled from the panel's query targets, and each dashboard loses its
 * server-assigned identity before it is submitted.
 */
module GrafanaRestore {
  import opened Text
  import opened JsonTree

  /** The uid (and replacement string) of Grafana's built-in pseudo-datasource. */
  const Builtin: string := "-- Grafana --"

  /**
   * What one restore run knows while it remaps references: the names on the
   * target server, the backup's uid-to-name table, and the operator's
   * `datasourceMapping` and `defaultDatasource` settings: the mapping as a
   * dict from names to any JSON value, the default as any JSON value.
   */
  datatype RestoreConfig = RestoreConfig(
    targetNames: set<string>,
    backupNames: map<string, string>,
    mappingConfig: map<string, Json>,
    defaultDs: Json)

  /** The values a remapped object reference may take. */
  predicate Closed(v: Json, cfg: RestoreConfig)
  {
    v == JStr(Builtin) || (v.JStr? && v.s in cfg.targetNames) || v == cfg.defaultDs
  }

  /** The fields of a reference object that the resolver strips are strings (or absent). */
  predicate RefWellTyped(dfs: seq<Entry>)
  {
    StrippedField(dfs, "uid").Ok? && StrippedField(dfs, "name").Ok? && StrippedField(dfs, "type").Ok?
  }

  /** Every operator mapping names a string. */
  predicate ConfigWellTyped(cfg: RestoreConfig)
  {
    forall n :: n in cfg.mappingConfig ==> cfg.mappingConfig[n].JStr?
  }

  /** The stripped string under `k`, or "" when `k` is absent (a present non-string raises). */
  function StrippedField(dfs: seq<Entry>, k: string): (r: Outcome<string>)
    ensures r.Ok? <==> !Has(dfs, k) || Get(dfs, k).value.JStr?
    ensures r.Fail? ==> r == Fail(Raised)
    ensures r.Ok? && Has(dfs, k) ==> r.value == Trim(Get(dfs, k).value.s)
    ensures !Has(dfs, k) ==> r == Ok("")
    ensures r.Ok? ==> IsTrimmed(r.value)
  {
    Strip(GetOr(dfs, k, JStr("")))
  }

  /** `mapping.get(uid, "").strip()` for the reference's stripped uid. */
  function BackupLookup(uid: string, backupNames: map<string, string>): (r: string)
    ensures IsTrimmed(r)
    ensures uid in backupNames ==> r == Trim(backupNames[uid])
    ensures uid !in backupNames ==> r == ""
  {
    Trim(if uid in backupNames then backupNames[uid] else "")
  }

  /** The backup's name for the reference's uid, or "" when it has no uid. */
  function UidName(dfs: seq<Entry>, backupNames: map<string, string>): (r: Outcome<string>)
    ensures r.Ok? ==> IsTrimmed(r.value)
    ensures !Has(dfs, "uid") ==> r == Ok("")
    ensures Has(dfs, "uid") ==> (r.Ok? <==> StrippedField(dfs, "uid").Ok?)
    ensures r.Ok? && Has(dfs, "uid") ==> r.value == BackupLookup(StrippedField(dfs, "uid").value, backupNames)
  {
    if Has(dfs, "uid") then
      var uid :- StrippedField(dfs, "uid");
      Ok(BackupLookup(uid, backupNames))
    else Ok("")
  }

  /** The first non-empty string of `xs`, or "" when there is none. */
  function FirstNonEmpty(xs: seq<string>): (r: string)
    ensures r == "" <==> forall i :: 0 <= i < |xs| ==> xs[i] == ""
    ensures r != "" ==> exists i :: 0 <= i < |xs| && xs[i] == r && forall j :: 0 <= j < i ==> xs[j] == ""
  {
    if xs == [] then ""
    else if xs[0] != "" then xs[0]
    else
      var r := FirstNonEmpty(xs[1..]);
      assert forall i :: 1 <= i < |xs| ==> xs[i] == xs[1..][i - 1];
      r
  }

  /**
   * The name a reference object stands for: its stripped `name`; if that is
   * empty and it has a `uid`, the backup's name for the stripped uid; if
   * still empty and it has a `type`, its stripped type.
   */
  function CandidateName(dfs: seq<Entry>, backupNames: map<string, string>): (r: Outcome<string>)
    ensures StrippedField(dfs, "name").Fail? ==> r == Fail(Raised)
    ensures r.Ok? ==> IsTrimmed(r.value)
  {
    var name :- StrippedField(dfs, "name");
    if name != "" then Ok(name)
    else
      var fromUid :- UidName(dfs, backupNames);
      if fromUid != "" then Ok(fromUid)
      else if Has(dfs, "type") then StrippedField(dfs, "type")
      else Ok("")
  }

  /** The string a lookup gave, or "" for one that raised. */
  function OrEmpty(o: Outcome<string>): string
  {
    if o.Ok? then o.value else ""
  }

  /**
   * The candidate is the first non-empty source among the stripped name, the
   * backup table's name for the stripped uid, and the stripped type. A later
   * source is read only when the earlier ones are empty, so the lookup raises
   * exactly when a source it reaches is present and not a string.
   */
  lemma CandidateIsFirstNonEmpty(dfs: seq<Entry>, backupNames: map<string, string>)
    ensures CandidateName(dfs, backupNames).Ok? ==>
              CandidateName(dfs, backupNames).value == FirstNonEmpty([
                OrEmpty(StrippedField(dfs, "name")),
                OrEmpty(UidName(dfs, backupNames)),
                OrEmpty(StrippedField(dfs, "type"))])
    ensures CandidateName(dfs, backupNames).Fail? <==>
              StrippedField(dfs, "name").Fail? ||
              (StrippedField(dfs, "name") == Ok("") &&
               (UidName(dfs, backupNames).Fail? ||
                (UidName(dfs, backupNames) == Ok("") && StrippedField(dfs, "type").Fail?)))
  {
    var name := OrEmpty(StrippedField(dfs, "name"));
    var fromUid := OrEmpty(UidName(dfs, backupNames));
    var typ := OrEmpty(StrippedField(dfs, "type"));
    var xs := [name, fromUid, typ];
    if name == "" {
      assert xs[1..] == [fromUid, typ];
      if fromUid == "" {
        assert xs[1..][1..] == [typ];
        assert FirstNonEmpty([typ]) == typ;
      }
    }
  }

  /**
   * The last three links of the precedence chain, for a candidate name: a candidate
   * on the target is used as it is; otherwise the operator's mapping for it,
   * stripped, if that is on the target; otherwise the default.
   */
  function Choose(candidate: string, cfg: RestoreConfig): (r: Outcome<Json>)
    ensures r.Ok? ==> Closed(r.value, cfg)
    ensures candidate in cfg.targetNames ==> r == Ok(JStr(candidate))
    ensures candidate !in cfg.targetNames && candidate !in cfg.mappingConfig ==> r == Ok(cfg.defaultDs)
    ensures r.Fail? <==> candidate !in cfg.targetNames && candidate in cfg.mappingConfig
                         && !cfg.mappingConfig[candidate].JStr?
    ensures r.Ok? && r.value.JStr? && r.value.s != candidate && r.value != cfg.defaultDs ==>
              candidate in cfg.mappingConfig && Trim(cfg.mappingConfig[candidate].s) == r.value.s
              && r.value.s in cfg.targetNames
    ensures candidate in cfg.mappingConfig && cfg.mappingConfig[candidate].JStr?
            && candidate !in cfg.targetNames && Trim(cfg.mappingConfig[candidate].s) !in cfg.targetNames
            ==> r == Ok(cfg.defaultDs)
    ensures candidate in cfg.mappingConfig && cfg.mappingConfig[candidate].JStr?
            && candidate !in cfg.targetNames && Trim(cfg.mappingConfig[candidate].s) in cfg.targetNames
            ==> r == Ok(JStr(Trim(cfg.mappingConfig[candidate].s)))
  {
    if candidate in cfg.targetNames then Ok(JStr(candidate))
    else if candidate in cfg.mappingConfig then
      var mapped :- Strip(cfg.mappingConfig[candidate]);
      if mapped in cfg.targetNames then Ok(JStr(mapped)) else Ok(cfg.defaultDs)
    else Ok(cfg.defaultDs)
  }

  /** The reference object names the built-in pseudo-datasource by its uid. */
  predicate IsBuiltinRef(dfs: seq<Entry>)
  {
    StrippedField(dfs, "uid") == Ok(Builtin)
  }

  /**
   * The value an object-valued `datasource` is replaced by: the built-in
   * string for the built-in uid whatever else the object holds, else the
   * choice for its candidate name. Every result is a closed value.
   */
  function Resolve(dfs: seq<Entry>, cfg: RestoreConfig): (r: Outcome<Json>)
    ensures IsBuiltinRef(dfs) ==> r == Ok(JStr(Builtin))
    ensures r.Ok? ==> Closed(r.value, cfg)
    ensures StrippedField(dfs, "uid").Fail? ==> r == Fail(Raised)
    ensures StrippedField(dfs, "uid").Ok? && !IsBuiltinRef(dfs) ==>
              (CandidateName(dfs, cfg.backupNames).Fail? ==> r == Fail(CandidateName(dfs, cfg.backupNames).failure)) &&
              (CandidateName(dfs, cfg.backupNames).Ok? ==> r == Choose(CandidateName(dfs, cfg.backupNames).value, cfg))
  {
    var uid :- StrippedField(dfs, "uid");
    if uid == Builtin then Ok(JStr(Builtin))
    else
      var candidate :- CandidateName(dfs, cfg.backupNames);
      Choose(candidate, cfg)
  }

  /** Resolution raises only on a reference or a mapping that holds a non-string where a string is stripped. */
  lemma ResolveTotal(dfs: seq<Entry>, cfg: RestoreConfig)
    requires RefWellTyped(dfs) && ConfigWellTyped(cfg)
    ensures Resolve(dfs, cfg).Ok?
  {
    var uid := StrippedField(dfs, "uid").value;
    if uid != Builtin {
      CandidateIsFirstNonEmpty(dfs, cfg.backupNames);
      var c := CandidateName(dfs, cfg.backupNames);
      if c.value in cfg.mappingConfig {
        assert cfg.mappingConfig[c.value].JStr?;
      }
      assert Choose(c.value, cfg).Ok?;
    }
  }

  // ---------------------------------------------------------------------------
  // The recursive remapping pass over a whole dashboard tree

  /**
   * The pass over one value: in a dict every `datasource` entry holding a
   * dict is resolved (and not descended into), every other entry is walked;
   * a list is walked element by element; anything else is left alone.
   */
  function Remap(item: Json, cfg: RestoreConfig): (r: Outcome<Json>)
    ensures r.Ok? ==> (r.value.JObj? <==> item.JObj?)
    decreases item, 1
  {
    match item
    case JObj(fs) =>
      var out :- RemapEntries(fs, cfg);
      Ok(JObj(out))
    case JArr(es) =>
      var out :- RemapElems(es, cfg);
      Ok(JArr(out))
    case _ => Ok(item)
  }

  function RemapEntry(e: Entry, cfg: RestoreConfig): Outcome<Entry>
    decreases e, 2
  {
    if e.key == "datasource" then
      if e.val.JObj? then
        var v :- Resolve(e.val.fields, cfg);
        Ok(Entry(e.key, v))
      else Ok(e)
    else
      var v :- Remap(e.val, cfg);
      Ok(Entry(e.key, v))
  }

  function RemapEntries(fs: seq<Entry>, cfg: RestoreConfig): Outcome<seq<Entry>>
    decreases fs, 0
  {
    if fs == [] then Ok([])
    else
      var init :- RemapEntries(fs[..|fs| - 1], cfg);
      var last :- RemapEntry(fs[|fs| - 1], cfg);
      Ok(init + [last])
  }

  function RemapElems(es: seq<Json>, cfg: RestoreConfig): Outcome<seq<Json>>
    decreases es, 0
  {
    if es == [] then Ok([])
    else
      var init :- RemapElems(es[..|es| - 1], cfg);
      var last :- Remap(es[|es| - 1], cfg);
      Ok(init + [last])
  }

  /** Once a prefix of a dict's entries fails, the pass over the whole dict fails the same way. */
  lemma {:induction false} RemapEntriesPrefixFail(fs: seq<Entry>, cfg: RestoreConfig, j: nat)
    requires j <= |fs| && RemapEntries(fs[..j], cfg).Fail?
    ensures RemapEntries(fs, cfg) == RemapEntries(fs[..j], cfg)
    decreases |fs| - j
  {
    if j < |fs| {
      assert fs[..|fs| - 1][..j] == fs[..j];
      RemapEntriesPrefixFail(fs[..|fs| - 1], cfg, j);
    } else {
      assert fs[..j] == fs;
    }
  }

  /** Once a prefix of a list fails, the pass over the whole list fails the same way. */
  lemma {:induction false} RemapElemsPrefixFail(es: seq<Json>, cfg: RestoreConfig, j: nat)
    requires j <= |es| && RemapElems(es[..j], cfg).Fail?
    ensures RemapElems(es, cfg) == RemapElems(es[..j], cfg)
    decreases |es| - j
  {
    if j < |es| {
      assert es[..|es| - 1][..j] == es[..j];
      RemapElemsPrefixFail(es[..|es| - 1], cfg, j);
    } else {
      assert es[..j] == es;
    }
  }

  /**
   * update_datasource_references_target: walks `item`, rewriting each
   * object-valued `datasource` entry of every dict in turn, and stops at the
   * first exception. The updated tree is the one `Remap` describes.
   */
  method UpdateDatasourceReferencesTarget(item: Json, cfg: RestoreConfig) returns (r: Outcome<Json>)
    ensures r == Remap(item, cfg)
    decreases item, 1
  {
    match item {
      case JObj(fs) =>
        var out := UpdateEntries(fs, cfg);
        r := if out.Ok? then Ok(JObj(out.value)) else Fail(out.failure);
      case JArr(es) =>
        var out := UpdateElems(es, cfg);
        r := if out.Ok? then Ok(JArr(out.value)) else Fail(out.failure);
      case _ =>
        r := Ok(item);
    }
  }

  /** The loop over `item.items()` (lines 76-104), entry by entry in order. */
  method UpdateEntries(fs: seq<Entry>, cfg: RestoreConfig) returns (r: Outcome<seq<Entry>>)
    ensures r == RemapEntries(fs, cfg)
    decreases fs, 0
  {
    var out: seq<Entry> := [];
    for i := 0 to |fs|
      invariant RemapEntries(fs[..i], cfg) == Ok(out)
    {
      assert fs[..i + 1][..i] == fs[..i];
      var e := UpdateEntry(fs[i], cfg);
      if e.Fail? {
        RemapEntriesPrefixFail(fs, cfg, i + 1);
        return Fail(e.failure);
      }
      out := out + [e.value];
    }
    assert fs[..|fs|] == fs;
    r := Ok(out);
  }

  /**
   * One entry (lines 77-104): a `datasource` holding a dict is resolved, a
   * `datasource` holding anything else is kept, any other value is walked.
   */
  method UpdateEntry(e: Entry, cfg: RestoreConfig) returns (r: Outcome<Entry>)
    ensures r == RemapEntry(e, cfg)
    decreases e, 2
  {
    if e.key == "datasource" {
      if e.val.JObj? {
        var v := Resolve(e.val.fields, cfg);
        r := if v.Ok? then Ok(Entry(e.key, v.value)) else Fail(v.failure);
      } else {
        r := Ok(e);
      }
    } else {
      var v := UpdateDatasourceReferencesTarget(e.val, cfg);
      r := if v.Ok? then Ok(Entry(e.key, v.value)) else Fail(v.failure);
    }
  }

  /** The loop over a list's elements (lines 105-107), in order. */
  method UpdateElems(es: seq<Json>, cfg: RestoreConfig) returns (r: Outcome<seq<Json>>)
    ensures r == RemapElems(es, cfg)
    decreases es, 0
  {
    var out: seq<Json> := [];
    for i := 0 to |es|
      invariant RemapElems(es[..i], cfg) == Ok(out)
    {
      assert es[..i + 1][..i] == es[..i];
      var v := UpdateDatasourceReferencesTarget(es[i], cfg);
      if v.Fail? {
        RemapElemsPrefixFail(es, cfg, i + 1);
        return Fail(v.failure);
      }
      out := out + [v.value];
    }
    assert es[..|es|] == es;
    r := Ok(out);
  }

  // ---------------------------------------------------------------------------
  // What the pass does, stated position by position

  /**
   * `b` is `a` with every object-valued `datasource` entry the pass reaches
   * replaced by its resolution: same keys in the same order, same list
   * lengths, every other value walked, a non-object `datasource` value kept,
   * and nothing inside a `datasource` object visited.
   */
  ghost predicate RemappedFrom(a: Json, b: Json, cfg: RestoreConfig)
    decreases a, 1
  {
    match a
    case JObj(fa) =>
      b.JObj? && |b.fields| == |fa| &&
      forall i :: 0 <= i < |fa| ==> EntryRemappedFrom(fa[i], b.fields[i], cfg)
    case JArr(ea) =>
      b.JArr? && |b.elems| == |ea| &&
      forall i :: 0 <= i < |ea| ==> RemappedFrom(ea[i], b.elems[i], cfg)
    case _ => b == a
  }

  ghost predicate EntryRemappedFrom(e: Entry, f: Entry, cfg: RestoreConfig)
    decreases e, 2
  {
    f.key == e.key &&
    if e.key == "datasource" then
      if e.val.JObj? then Resolve(e.val.fields, cfg) == Ok(f.val) else f.val == e.val
    else RemappedFrom(e.val, f.val, cfg)
  }

  lemma {:induction false} RemapSound(a: Json, cfg: RestoreConfig)
    ensures Remap(a, cfg).Ok? ==> RemappedFrom(a, Remap(a, cfg).value, cfg)
    decreases a, 1
  {
    match a
    case JObj(fs) => RemapEntriesSound(fs, cfg);
    case JArr(es) => RemapElemsSound(es, cfg);
    case _ =>
  }

  lemma {:induction false} RemapEntrySound(e: Entry, cfg: RestoreConfig)
    ensures RemapEntry(e, cfg).Ok? ==> EntryRemappedFrom(e, RemapEntry(e, cfg).value, cfg)
    decreases e, 2
  {
    if e.key != "datasource" {
      RemapSound(e.val, cfg);
    }
  }

  lemma {:induction false} RemapEntriesSound(fs: seq<Entry>, cfg: RestoreConfig)
    ensures RemapEntries(fs, cfg).Ok? ==>
              |RemapEntries(fs, cfg).value| == |fs| &&
              forall i :: 0 <= i < |fs| ==> EntryRemappedFrom(fs[i], RemapEntries(fs, cfg).value[i], cfg)
    decreases fs, 0
  {
    if fs != [] {
      RemapEntriesSound(fs[..|fs| - 1], cfg);
      RemapEntrySound(fs[|fs| - 1], cfg);
    }
  }

  lemma {:induction false} RemapElemsSound(es: seq<Json>, cfg: RestoreConfig)
    ensures RemapElems(es, cfg).Ok? ==>
              |RemapElems(es, cfg).value| == |es| &&
              forall i :: 0 <= i < |es| ==> RemappedFrom(es[i], RemapElems(es, cfg).value[i], cfg)
    decreases es, 0
  {
    if es != [] {
      RemapElemsSound(es[..|es| - 1], cfg);
      RemapSound(es[|es| - 1], cfg);
    }
  }

  lemma {:induction false} RemapComplete(a: Json, b: Json, cfg: RestoreConfig)
    requires RemappedFrom(a, b, cfg)
    ensures Remap(a, cfg) == Ok(b)
    decreases a, 1
  {
    match a
    case JObj(fs) => RemapEntriesComplete(fs, b.fields, cfg);
    case JArr(es) => RemapElemsComplete(es, b.elems, cfg);
    case _ =>
  }

  lemma {:induction false} RemapEntryComplete(e: Entry, f: Entry, cfg: RestoreConfig)
    requires EntryRemappedFrom(e, f, cfg)
    ensures RemapEntry(e, cfg) == Ok(f)
    decreases e, 2
  {
    if e.key != "datasource" {
      RemapComplete(e.val, f.val, cfg);
    }
  }

  lemma {:induction false} RemapEntriesComplete(fs: seq<Entry>, out: seq<Entry>, cfg: RestoreConfig)
    requires |out| == |fs| && forall i :: 0 <= i < |fs| ==> EntryRemappedFrom(fs[i], out[i], cfg)
    ensures RemapEntries(fs, cfg) == Ok(out)
    decreases fs, 0
  {
    if fs != [] {
      var n := |fs| - 1;
      RemapEntriesComplete(fs[..n], out[..n], cfg);
      RemapEntryComplete(fs[n], out[n], cfg);
      assert out[..n] + [out[n]] == out;
    }
  }

  lemma {:induction false} RemapElemsComplete(es: seq<Json>, out: seq<Json>, cfg: RestoreConfig)
    requires |out| == |es| && forall i :: 0 <= i < |es| ==> RemappedFrom(es[i], out[i], cfg)
    ensures RemapElems(es, cfg) == Ok(out)
    decreases es, 0
  {
    if es != [] {
      var n := |es| - 1;
      RemapElemsComplete(es[..n], out[..n], cfg);
      RemapComplete(es[n], out[n], cfg);
      assert out[..n] + [out[n]] == out;
    }
  }

  /** The pass yields `b` exactly when `b` is `a` with its reachable object references resolved. */
  lemma RemapCharacterization(a: Json, b: Json, cfg: RestoreConfig)
    ensures Remap(a, cfg) == Ok(b) <==> RemappedFrom(a, b, cfg)
  {
    RemapSound(a, cfg);
    if RemappedFrom(a, b, cfg) {
      RemapComplete(a, b, cfg);
    }
  }

  /** The pass changes nothing but the values of `datasource` entries: keys, order and list lengths survive. */
  lemma {:induction false} RemappedFromKeepsSkeleton(a: Json, b: Json, cfg: RestoreConfig)
    requires RemappedFrom(a, b, cfg)
    ensures EraseRefs(b) == EraseRefs(a)
    decreases a
  {
    match a
    case JObj(fa) =>
      forall i | 0 <= i < |fa| && fa[i].key != "datasource"
        ensures EraseRefs(b.fields[i].val) == EraseRefs(fa[i].val)
      {
        RemappedFromKeepsSkeleton(fa[i].val, b.fields[i].val, cfg);
      }
    case JArr(ea) =>
      forall i | 0 <= i < |ea| ensures EraseRefs(b.elems[i]) == EraseRefs(ea[i]) {
        RemappedFromKeepsSkeleton(ea[i], b.elems[i], cfg);
      }
    case _ =>
  }

  /** No `datasource` entry the pass reaches holds an object. */
  ghost predicate NoObjectRefs(j: Json)
  {
    match j
    case JObj(fs) =>
      forall i :: 0 <= i < |fs| ==>
        if fs[i].key == "datasource" then !fs[i].val.JObj? else NoObjectRefs(fs[i].val)
    case JArr(es) => forall i :: 0 <= i < |es| ==> NoObjectRefs(es[i])
    case _ => true
  }

  /** Every object the pass would resolve has string-or-absent uid, name and type. */
  ghost predicate RefsWellTyped(j: Json)
  {
    match j
    case JObj(fs) =>
      forall i :: 0 <= i < |fs| ==>
        if fs[i].key == "datasource" then (fs[i].val.JObj? ==> RefWellTyped(fs[i].val.fields))
        else RefsWellTyped(fs[i].val)
    case JArr(es) => forall i :: 0 <= i < |es| ==> RefsWellTyped(es[i])
    case _ => true
  }

  lemma ResolvedIsNoObject(dfs: seq<Entry>, cfg: RestoreConfig)
    requires Resolve(dfs, cfg).Ok? && !cfg.defaultDs.JObj?
    ensures !Resolve(dfs, cfg).value.JObj?
  {
    assert Closed(Resolve(dfs, cfg).value, cfg);
  }

  /** Unless the default is itself an object, no object reference survives the pass. */
  lemma {:induction false} RemappedFromResolvesAll(a: Json, b: Json, cfg: RestoreConfig)
    requires RemappedFrom(a, b, cfg) && !cfg.defaultDs.JObj?
    ensures NoObjectRefs(b)
    decreases a
  {
    match a
    case JObj(fa) =>
      forall i | 0 <= i < |fa|
        ensures if fa[i].key == "datasource" then !b.fields[i].val.JObj? else NoObjectRefs(b.fields[i].val)
      {
        if fa[i].key != "datasource" {
          RemappedFromResolvesAll(fa[i].val, b.fields[i].val, cfg);
        } else if fa[i].val.JObj? {
          ResolvedIsNoObject(fa[i].val.fields, cfg);
        }
      }
    case JArr(ea) =>
      forall i | 0 <= i < |ea| ensures NoObjectRefs(b.elems[i]) {
        RemappedFromResolvesAll(ea[i], b.elems[i], cfg);
      }
    case _ =>
  }

  /** A tree without object references is its own remapping. */
  lemma {:induction false} NoObjectRefsRemapsToItself(j: Json, cfg: RestoreConfig)
    requires NoObjectRefs(j)
    ensures RemappedFrom(j, j, cfg)
    decreases j
  {
    match j
    case JObj(fs) =>
      forall i | 0 <= i < |fs| && fs[i].key != "datasource" ensures RemappedFrom(fs[i].val, fs[i].val, cfg) {
        NoObjectRefsRemapsToItself(fs[i].val, cfg);
      }
    case JArr(es) =>
      forall i | 0 <= i < |es| ensures RemappedFrom(es[i], es[i], cfg) {
        NoObjectRefsRemapsToItself(es[i], cfg);
      }
    case _ =>
  }

  /**
   * Remapping an already remapped tree changes nothing (when the default is
   * not an object): string references are never re-validated.
   */
  lemma RemapIdempotent(a: Json, cfg: RestoreConfig)
    requires Remap(a, cfg).Ok? && !cfg.defaultDs.JObj?
    ensures Remap(Remap(a, cfg).value, cfg) == Remap(a, cfg)
  {
    var b := Remap(a, cfg).value;
    RemapSound(a, cfg);
    RemappedFromResolvesAll(a, b, cfg);
    NoObjectRefsRemapsToItself(b, cfg);
    RemapComplete(b, b, cfg);
  }

  /** The only way the pass raises is on a reference or mapping with a non-string where a string is stripped. */
  lemma {:induction false} RemapTotal(a: Json, cfg: RestoreConfig)
    requires RefsWellTyped(a) && ConfigWellTyped(cfg)
    ensures Remap(a, cfg).Ok?
    decreases a, 1
  {
    match a
    case JObj(fs) => RemapEntriesTotal(fs, cfg);
    case JArr(es) => RemapElemsTotal(es, cfg);
    case _ =>
  }

  lemma {:induction false} RemapEntriesTotal(fs: seq<Entry>, cfg: RestoreConfig)
    requires ConfigWellTyped(cfg)
    requires forall i :: 0 <= i < |fs| ==>
      if fs[i].key == "datasource" then (fs[i].val.JObj? ==> RefWellTyped(fs[i].val.fields))
      else RefsWellTyped(fs[i].val)
    ensures RemapEntries(fs, cfg).Ok?
    decreases fs, 0
  {
    if fs != [] {
      var n := |fs| - 1;
      RemapEntriesTotal(fs[..n], cfg);
      var e := fs[n];
      if e.key == "datasource" {
        if e.val.JObj? {
          ResolveTotal(e.val.fields, cfg);
        }
      } else {
        RemapTotal(e.val, cfg);
      }
    }
  }

  lemma {:induction false} RemapElemsTotal(es: seq<Json>, cfg: RestoreConfig)
    requires ConfigWellTyped(cfg)
    requires forall i :: 0 <= i < |es| ==> RefsWellTyped(es[i])
    ensures RemapElems(es, cfg).Ok?
    decreases es, 0
  {
    if es != [] {
      RemapElemsTotal(es[..|es| - 1], cfg);
      RemapTotal(es[|es| - 1], cfg);
    }
  }

  // ---------------------------------------------------------------------------
  // Back-filling an empty panel-level datasource from the panel's query targets

  /**
   * What one query target offers its panel: a non-empty string `datasource`
   * as it is, or the non-empty stripped `name` of an object `datasource`.
   * A target that is not a dict raises (it has no `get`).
   */
  function TargetOffer(t: Json): (r: Outcome<Option<string>>)
    ensures r.Fail? ==> r == Fail(Raised)
    ensures r.Ok? <==> t.JObj? && (GetOr(t.fields, "datasource", JNull).JObj? ==>
                                   StrippedField(GetOr(t.fields, "datasource", JNull).fields, "name").Ok?)
    ensures r.Ok? && r.value.Some? ==> r.value.value != ""
    ensures t.JObj? && GetOr(t.fields, "datasource", JNull).JStr? ==>
              r == Ok(var s := GetOr(t.fields, "datasource", JNull).s; if s != "" then Some(s) else None)
    ensures r.Ok? && t.JObj? && GetOr(t.fields, "datasource", JNull).JObj? ==>
              r.value == (var n := StrippedField(GetOr(t.fields, "datasource", JNull).fields, "name").value;
                          if n != "" then Some(n) else None)
    ensures r.Ok? && t.JObj? && !GetOr(t.fields, "datasource", JNull).JObj? && !GetOr(t.fields, "datasource", JNull).JStr? ==>
              r.value == None
  {
    var ds :- DictGet(t, "datasource", JNull);
    match ds
    case JStr(s) => Ok(if s != "" then Some(s) else None)
    case JObj(dfs) =>
      var name :- StrippedField(dfs, "name");
      Ok(if name != "" then Some(name) else None)
    case _ => Ok(None)
  }

  /**
   * The offer of the first target that makes one, scanning in order and
   * stopping there (`JsonTree.FirstSomeAt`, `FirstSomeFound` and
   * `FirstSomeNone` characterise the scan).
   */
  function FirstOffer(ts: seq<Json>): Outcome<Option<string>>
  {
    FirstSome(ts, TargetOffer)
  }

  /**
   * fix_panel_datasource, as a value: a panel whose `datasource` is the empty
   * string and which has `targets` gets the first target's offer; every other
   * panel, and a panel whose targets offer nothing, is returned as it is.
   */
  function Backfill(panel: Json): (r: Outcome<Json>)
    ensures r.Ok? && r.value != panel ==>
              panel.JObj? && Get(panel.fields, "datasource") == Some(JStr("")) && Has(panel.fields, "targets")
    ensures panel.JObj? && !(Get(panel.fields, "datasource") == Some(JStr("")) && Has(panel.fields, "targets")) ==>
              r == Ok(panel)
    ensures !panel.JObj? ==> (r.Ok? <==> PyIn(panel, "datasource") == Ok(false)) && (r.Ok? ==> r.value == panel)
    ensures panel.JObj? && Get(panel.fields, "datasource") == Some(JStr("")) && Has(panel.fields, "targets") ==>
              (r.Ok? <==> PyIter(Get(panel.fields, "targets").value).Ok? &&
                          FirstOffer(PyIter(Get(panel.fields, "targets").value).value).Ok?)
    ensures panel.JObj? && Get(panel.fields, "datasource") == Some(JStr("")) && Has(panel.fields, "targets") &&
            PyIter(Get(panel.fields, "targets").value).Ok? &&
            FirstOffer(PyIter(Get(panel.fields, "targets").value).value) == Ok(None) ==>
              r == Ok(panel)
  {
    var hasDs :- PyIn(panel, "datasource");
    if !hasDs then Ok(panel)
    else
      var ds :- PyGet(panel, "datasource");
      if ds != JStr("") || !Has(panel.fields, "targets") then Ok(panel)
      else
        var ts :- PyIter(Get(panel.fields, "targets").value);
        var offer :- FirstOffer(ts);
        match offer
        case None => Ok(panel)
        case Some(n) =>
          assert n != "" by { FirstOfferNonEmpty(ts); }
          Ok(JObj(SetKey(panel.fields, "datasource", JStr(n))))
  }

  /** A name the scan picks is never empty. */
  lemma {:induction false} FirstOfferNonEmpty(ts: seq<Json>)
    ensures FirstOffer(ts).Ok? && FirstOffer(ts).value.Some? ==> FirstOffer(ts).value.value != ""
  {
    if ts != [] {
      FirstOfferNonEmpty(ts[1..]);
    }
  }

  /**
   * A panel that a target can repair: its `datasource` is the empty string,
   * it has iterable `targets`, and the scan over them picks `n`.
   */
  ghost predicate Offers(panel: Json, n: string)
  {
    panel.JObj? && Get(panel.fields, "datasource") == Some(JStr("")) && Has(panel.fields, "targets") &&
    PyIter(Get(panel.fields, "targets").value).Ok? &&
    FirstOffer(PyIter(Get(panel.fields, "targets").value).value) == Ok(Some(n))
  }

  /**
   * The back-fill changes a panel exactly when a target offers a name, and
   * then only its `datasource` entry, which becomes that name (a new name is
   * never empty, so a changed panel really differs).
   */
  lemma BackfillSetsFirstOffer(panel: Json, n: string)
    ensures Offers(panel, n) ==> Backfill(panel) == Ok(JObj(SetKey(panel.fields, "datasource", JStr(n))))
    ensures Offers(panel, n) ==> n != ""
    ensures Backfill(panel).Ok? && Backfill(panel).value != panel ==>
              exists m :: Offers(panel, m) && Backfill(panel) == Ok(JObj(SetKey(panel.fields, "datasource", JStr(m))))
    ensures panel.JObj? && Get(panel.fields, "datasource") == Some(JStr("")) && Has(panel.fields, "targets") &&
            PyIter(Get(panel.fields, "targets").value).Ok? &&
            FirstOffer(PyIter(Get(panel.fields, "targets").value).value).Ok? &&
            (forall m :: !Offers(panel, m)) ==>
              Backfill(panel) == Ok(panel)
  {
    if panel.JObj? && Has(panel.fields, "targets") {
      var ts := PyIter(Get(panel.fields, "targets").value);
      if ts.Ok? {
        FirstOfferNonEmpty(ts.value);
      }
    }
    if Backfill(panel).Ok? && Backfill(panel).value != panel {
      var ts := PyIter(Get(panel.fields, "targets").value).value;
      assert Offers(panel, FirstOffer(ts).value.value);
    }
  }

  /**
   * fix_panel_datasource: scans the panel's targets in order and returns as
   * soon as one offers a datasource.
   */
  method FixPanelDatasource(panel: Json) returns (r: Outcome<Json>)
    ensures r == Backfill(panel)
  {
    var hasDs := PyIn(panel, "datasource");
    if hasDs.Fail? {
      return Fail(hasDs.failure);
    }
    if !hasDs.value {
      return Ok(panel);
    }
    var ds := PyGet(panel, "datasource");
    if ds.Fail? {
      return Fail(ds.failure);
    }
    if ds.value != JStr("") || !Has(panel.fields, "targets") {
      return Ok(panel);
    }
    var targets := PyIter(Get(panel.fields, "targets").value);
    if targets.Fail? {
      return Fail(targets.failure);
    }
    var ts := targets.value;
    for i := 0 to |ts|
      invariant FirstOffer(ts) == FirstOffer(ts[i..])
    {
      assert ts[i..][1..] == ts[i + 1..];
      var offer := TargetOffer(ts[i]);
      if offer.Fail? {
        return Fail(offer.failure);
      }
      if offer.value.Some? {
        return Ok(JObj(SetKey(panel.fields, "datasource", JStr(offer.value.value))));
      }
    }
    return Ok(panel);
  }

  // ---------------------------------------------------------------------------
  // The backup's uid-to-name map and the target instance's name set

  /** `d[k].strip()` when `d` is a dict holding a string under `k`; None otherwise. */
  function StrField(d: Json, k: string): Option<string>
  {
    if d.JObj? && Has(d.fields, k) && Get(d.fields, k).value.JStr? then Some(Trim(Get(d.fields, k).value.s)) else None
  }

  /** The stripped uid of a backup record whose `uid` and `name` are both strings. */
  function RecordUid(ds: Json): Option<string>
  {
    if StrField(ds, "name").Some? then StrField(ds, "uid") else None
  }

  /** The stripped name of a backup record whose `uid` and `name` are both strings. */
  function RecordName(ds: Json): Option<string>
  {
    if StrField(ds, "uid").Some? then StrField(ds, "name") else None
  }

  /**
   * One record's step in load_backup_ds_mapping: a record holding both `uid`
   * and `name` as strings maps its stripped uid to its stripped name, a
   * record lacking either is skipped, and a record that holds both but is
   * not a dict of strings raises.
   */
  function AddBackupRecord(m: map<string, string>, ds: Json): (r: Outcome<map<string, string>>)
    ensures r.Fail? ==> r == Fail(Raised)
    ensures RecordUid(ds).Some? ==> r == Ok(m[RecordUid(ds).value := RecordName(ds).value])
    ensures r.Ok? && RecordUid(ds).None? ==> r == Ok(m)
    ensures !(ds.JObj? || ds.JArr? || ds.JStr?) ==> r == Fail(Raised)
    ensures ds.JObj? && !(Has(ds.fields, "uid") && Has(ds.fields, "name")) ==> r == Ok(m)
    ensures ds.JObj? && Has(ds.fields, "uid") && Has(ds.fields, "name") ==>
              (r.Ok? <==> Get(ds.fields, "uid").value.JStr? && Get(ds.fields, "name").value.JStr?)
    ensures ds.JArr? || ds.JStr? ==>
              (r.Ok? <==> !(PyIn(ds, "uid") == Ok(true) && PyIn(ds, "name") == Ok(true)))
  {
    var hasUid :- PyIn(ds, "uid");
    if !hasUid then Ok(m)
    else
      // `"uid" in ds` did not raise, so neither does `"name" in ds`
      var hasName := PyIn(ds, "name").value;
      if !hasName then Ok(m)
      else
        var name :- PyGet(ds, "name");
        var n :- Strip(name);
        // `ds` is a dict holding "uid" by now, so `ds["uid"]` cannot raise
        var u :- Strip(Get(ds.fields, "uid").value);
        Ok(m[u := n])
  }

  function BackupNames(records: seq<Json>): Outcome<map<string, string>>
  {
    FoldOutcome(records, map[], AddBackupRecord)
  }

  /** The map's keys are exactly the stripped uids of the records that name one. */
  lemma {:induction false} BackupNamesKeys(records: seq<Json>)
    requires BackupNames(records).Ok?
    ensures forall u :: u in BackupNames(records).value <==> Yields(records, RecordUid, u)
  {
    if records != [] {
      var n := |records| - 1;
      BackupNamesKeys(records[..n]);
      var m0 := BackupNames(records[..n]).value;
      var m := BackupNames(records).value;
      assert AddBackupRecord(m0, records[n]) == Ok(m);
      forall u ensures u in m <==> Yields(records, RecordUid, u) {
        YieldsSnoc(records, RecordUid, u);
      }
    }
  }

  /** No record after record `i` names the same uid. */
  predicate LastForUid(records: seq<Json>, i: nat)
    requires i < |records|
  {
    forall j :: i < j < |records| ==> RecordUid(records[j]) != RecordUid(records[i])
  }

  /** A record that names another uid leaves `u`'s entry alone. */
  lemma AddBackupRecordKeeps(m: map<string, string>, ds: Json, u: string)
    requires AddBackupRecord(m, ds).Ok? && RecordUid(ds) != Some(u) && u in m
    ensures u in AddBackupRecord(m, ds).value && AddBackupRecord(m, ds).value[u] == m[u]
  {
  }

  /** Each uid maps to the stripped name of the last record that names it. */
  lemma {:induction false} BackupNamesLastWins(records: seq<Json>, i: nat)
    requires BackupNames(records).Ok?
    requires i < |records| && RecordUid(records[i]).Some? && LastForUid(records, i)
    ensures RecordUid(records[i]).value in BackupNames(records).value
    ensures Some(BackupNames(records).value[RecordUid(records[i]).value]) == RecordName(records[i])
  {
    var n := |records| - 1;
    var init := records[..n];
    var m := BackupNames(records).value;
    var u := RecordUid(records[i]).value;
    assert AddBackupRecord(BackupNames(init).value, records[n]) == Ok(m);
    if i == n {
      assert m == BackupNames(init).value[u := RecordName(records[n]).value];
    } else {
      assert init[i] == records[i];
      assert LastForUid(init, i) by {
        forall j | i < j < |init| ensures RecordUid(init[j]) != RecordUid(init[i]) {
          assert init[j] == records[j];
        }
      }
      BackupNamesLastWins(init, i);
      AddBackupRecordKeeps(BackupNames(init).value, records[n], u);
      assert m[u] == BackupNames(init).value[u];
    }
  }

  /** load_backup_ds_mapping as a value: a missing backup file gives the empty map. */
  function BackupMapping(file: Option<Json>): Outcome<map<string, string>>
  {
    if file.None? then Ok(map[])
    else
      var records :- PyIter(file.value);
      BackupNames(records)
  }

  /** load_backup_ds_mapping: `file` is the parsed backup file, or None when it does not exist. */
  method LoadBackupDsMapping(file: Option<Json>) returns (r: Outcome<map<string, string>>)
    ensures r == BackupMapping(file)
  {
    if file.None? {
      return Ok(map[]);
    }
    var items := PyIter(file.value);
    if items.Fail? {
      return Fail(items.failure);
    }
    r := CollectBackupNames(items.value);
  }

  /** The loop at lines 38-40: one table update per record, in order, stopping at the first exception. */
  method CollectBackupNames(records: seq<Json>) returns (r: Outcome<map<string, string>>)
    ensures r == BackupNames(records)
  {
    var mapping: map<string, string> := map[];
    for i := 0 to |records|
      invariant BackupNames(records[..i]) == Ok(mapping)
    {
      assert records[..i + 1][..i] == records[..i];
      var next := AddBackupRecord(mapping, records[i]);
      if next.Fail? {
        FoldOutcomePrefixFail(records, map[], AddBackupRecord, i + 1);
        return next;
      }
      mapping := next.value;
    }
    assert records[..|records|] == records;
    return Ok(mapping);
  }

  /** The stripped name of a target datasource record whose `name` is a string. */
  function TargetName(ds: Json): Option<string>
  {
    StrField(ds, "name")
  }

  /**
   * One record's step in fetch_target_datasources: a record holding `name`
   * adds its stripped name, any other record is skipped, and a record that
   * holds `name` but is not a dict with a string name raises.
   */
  function AddTargetName(names: set<string>, ds: Json): (r: Outcome<set<string>>)
    ensures r.Fail? ==> r == Fail(Raised)
    ensures TargetName(ds).Some? ==> r == Ok(names + {TargetName(ds).value})
    ensures r.Ok? && TargetName(ds).None? ==> r == Ok(names)
    ensures !(ds.JObj? || ds.JArr? || ds.JStr?) ==> r == Fail(Raised)
    ensures ds.JObj? && !Has(ds.fields, "name") ==> r == Ok(names)
    ensures ds.JObj? && Has(ds.fields, "name") ==> (r.Ok? <==> Get(ds.fields, "name").value.JStr?)
    ensures ds.JArr? || ds.JStr? ==> (r.Ok? <==> PyIn(ds, "name") == Ok(false))
  {
    var hasName :- PyIn(ds, "name");
    if !hasName then Ok(names)
    else
      var name :- PyGet(ds, "name");
      var n :- Strip(name);
      Ok(names + {n})
  }

  function TargetNames(records: seq<Json>): Outcome<set<string>>
  {
    FoldOutcome(records, {}, AddTargetName)
  }

  /** The set holds exactly the stripped names of the records that carry a string name. */
  lemma {:induction false} TargetNamesContents(records: seq<Json>)
    requires TargetNames(records).Ok?
    ensures forall n :: n in TargetNames(records).value <==> Yields(records, TargetName, n)
  {
    if records != [] {
      var k := |records| - 1;
      TargetNamesContents(records[..k]);
      var s0 := TargetNames(records[..k]).value;
      var s := TargetNames(records).value;
      assert AddTargetName(s0, records[k]) == Ok(s);
      forall n ensures n in s <==> Yields(records, TargetName, n) {
        YieldsSnoc(records, TargetName, n);
      }
    }
  }

  /** fetch_target_datasources as a value: any status but 200 exits with status 1. */
  function TargetSet(status: int, body: Json): Outcome<set<string>>
  {
    if status != 200 then Fail(Exit(1))
    else
      var records :- PyIter(body);
      TargetNames(records)
  }

  /** fetch_target_datasources, given the response's status and parsed body. */
  method FetchTargetDatasources(status: int, body: Json) returns (r: Outcome<set<string>>)
    ensures r == TargetSet(status, body)
  {
    if status != 200 {
      return Fail(Exit(1));
    }
    var items := PyIter(body);
    if items.Fail? {
      return Fail(items.failure);
    }
    r := CollectTargetNames(items.value);
  }

  /** The loop at lines 54-56: one set update per record, in order, stopping at the first exception. */
  method CollectTargetNames(records: seq<Json>) returns (r: Outcome<set<string>>)
    ensures r == TargetNames(records)
  {
    var names: set<string> := {};
    for i := 0 to |records|
      invariant TargetNames(records[..i]) == Ok(names)
    {
      assert records[..i + 1][..i] == records[..i];
      var next := AddTargetName(names, records[i]);
      if next.Fail? {
        FoldOutcomePrefixFail(records, {}, AddTargetName, i + 1);
        return next;
      }
      names := next.value;
    }
    assert records[..|records|] == records;
    return Ok(names);
  }

  // ---------------------------------------------------------------------------
  // Restoring the dashboards of a backup file

  /**
   * `dashboard.pop("id", None)`, `dashboard.pop("uid", None)`,
   * `dashboard["version"] = 0`: the target instance assigns a fresh id and
   * uid, and every other key keeps its value.
   */
  function ResetIdentity(fs: seq<Entry>): (r: seq<Entry>)
    ensures !Has(r, "id") && !Has(r, "uid") && Get(r, "version") == Some(JNum(0))
    ensures forall k :: k != "id" && k != "uid" && k != "version" ==> Get(r, k) == Get(fs, k)
  {
    var noId := PopKey(fs, "id");
    var noUid := PopKey(noId, "uid");
    assert Get(noUid, "id") == None;
    SetKey(noUid, "version", JNum(0))
  }

  /** A dashboard ready to post: a dict without `id` or `uid` whose `version` is 0. */
  predicate IdentityReset(d: Json)
  {
    d.JObj? && !Has(d.fields, "id") && !Has(d.fields, "uid") && Get(d.fields, "version") == Some(JNum(0))
  }

  /** The body posted to /api/dashboards/db: a new dashboard in the General folder, never overwriting. */
  function Payload(d: Json): Json
  {
    JObj([Entry("dashboard", d), Entry("folderId", JNum(0)), Entry("overwrite", JBool(false))])
  }

  /** Back-filling every top-level panel, when the dashboard's `panels` is a list. */
  function BackfillTopPanels(fs: seq<Entry>): (r: Outcome<seq<Entry>>)
    ensures r.Ok? ==> forall k :: k != "panels" ==> Get(r.value, k) == Get(fs, k)
    ensures !(Has(fs, "panels") && Get(fs, "panels").value.JArr?) ==> r == Ok(fs)
    ensures Has(fs, "panels") && Get(fs, "panels").value.JArr? ==>
              (r.Ok? <==> MapOutcome(Get(fs, "panels").value.elems, Backfill).Ok?) &&
              (r.Ok? ==> Get(r.value, "panels") == Some(JArr(MapOutcome(Get(fs, "panels").value.elems, Backfill).value)))
  {
    match Get(fs, "panels")
    case Some(JArr(ps)) =>
      var filled :- MapOutcome(ps, Backfill);
      Ok(SetKey(fs, "panels", JArr(filled)))
    case _ => Ok(fs)
  }

  /**
   * What restore_dashboards posts for one entry of the backup file: nothing
   * when the entry's `dashboard` is missing or falsy; otherwise the
   * dashboard with its datasource references resolved, its top-level panels
   * back-filled and its identity reset. An entry that is not a dict, or
   * whose truthy `dashboard` is not a dict, raises.
   */
  function PrepareDashboard(entry: Json, cfg: RestoreConfig): (r: Outcome<Option<Json>>)
    ensures r.Ok? ==> entry.JObj?
    ensures r == Ok(None) <==> entry.JObj? && !Truthy(GetOr(entry.fields, "dashboard", JNull))
    ensures r.Ok? && r.value.Some? ==> IdentityReset(r.value.value)
    ensures entry.JObj? && Truthy(GetOr(entry.fields, "dashboard", JNull)) ==>
              (r.Ok? <==> GetOr(entry.fields, "dashboard", JNull).JObj? &&
                          Remap(GetOr(entry.fields, "dashboard", JNull), cfg).Ok? &&
                          BackfillTopPanels(Remap(GetOr(entry.fields, "dashboard", JNull), cfg).value.fields).Ok?)
    ensures r.Ok? && r.value.Some? ==>
              forall k :: k != "id" && k != "uid" && k != "version" ==>
                Get(r.value.value.fields, k) ==
                Get(BackfillTopPanels(Remap(GetOr(entry.fields, "dashboard", JNull), cfg).value.fields).value, k)
  {
    var dashboard :- DictGet(entry, "dashboard", JNull);
    if !Truthy(dashboard) then Ok(None)
    else if !dashboard.JObj? then Fail(Raised)  // `dashboard.get('title', ...)`
    else
      var remapped :- Remap(dashboard, cfg);
      var filled :- BackfillTopPanels(remapped.fields);
      Ok(Some(JObj(ResetIdentity(filled))))
  }

  /** The posts made so far, and what ended the run early, if anything did. */
  datatype RestoreRun = RestoreRun(submitted: seq<Json>, stop: Option<Failure>)

  /**
   * The restore loop over the backup's entries: each prepared dashboard is
   * posted, whatever the response; skipped entries post nothing; the first
   * exception ends the run, keeping the posts already made.
   */
  function RestoreAll(entries: seq<Json>, cfg: RestoreConfig): RestoreRun
  {
    if entries == [] then RestoreRun([], None)
    else
      var prev := RestoreAll(entries[..|entries| - 1], cfg);
      if prev.stop.Some? then prev
      else
        match PrepareDashboard(entries[|entries| - 1], cfg)
        case Fail(f) => RestoreRun(prev.submitted, Some(f))
        case Ok(None) => prev
        case Ok(Some(d)) => RestoreRun(prev.submitted + [Payload(d)], None)
  }

  /** restore_dashboards as a value: a missing backup file exits with status 1 before any post. */
  function RestoreFile(file: Option<Json>, cfg: RestoreConfig): RestoreRun
  {
    if file.None? then RestoreRun([], Some(Exit(1)))
    else
      match PyIter(file.value)
      case Fail(f) => RestoreRun([], Some(f))
      case Ok(entries) => RestoreAll(entries, cfg)
  }

  lemma {:induction false} RestoreAllPrefixStop(entries: seq<Json>, cfg: RestoreConfig, j: nat)
    requires j <= |entries| && RestoreAll(entries[..j], cfg).stop.Some?
    ensures RestoreAll(entries, cfg) == RestoreAll(entries[..j], cfg)
    decreases |entries| - j
  {
    if j < |entries| {
      assert entries[..|entries| - 1][..j] == entries[..j];
      RestoreAllPrefixStop(entries[..|entries| - 1], cfg, j);
      if j == |entries| - 1 {
        assert entries[..|entries| - 1] == entries[..j];
      }
    } else {
      assert entries[..j] == entries;
    }
  }

  /** The loop of lines 159-160: back-fills each panel in order, stopping at the first exception. */
  method FixPanels(panels: seq<Json>) returns (r: Outcome<seq<Json>>)
    ensures r == MapOutcome(panels, Backfill)
  {
    var filled: seq<Json> := [];
    for k := 0 to |panels|
      invariant MapOutcome(panels[..k], Backfill) == Ok(filled)
    {
      var panel := FixPanelDatasource(panels[k]);
      if panel.Fail? {
        assert panels[..k + 1][..k] == panels[..k];
        MapOutcomePrefixFail(panels, Backfill, k + 1);
        return Fail(panel.failure);
      }
      MapOutcomeStep(panels, Backfill, k, filled, panel.value);
      filled := filled + [panel.value];
    }
    assert panels[..|panels|] == panels;
    return Ok(filled);
  }

  /** Lines 158-160: the back-fill runs only when the dashboard's `panels` is a list. */
  method FixTopPanels(fs: seq<Entry>) returns (r: Outcome<seq<Entry>>)
    ensures r == BackfillTopPanels(fs)
  {
    if !Has(fs, "panels") || !Get(fs, "panels").value.JArr? {
      return Ok(fs);
    }
    var filled := FixPanels(Get(fs, "panels").value.elems);
    if filled.Fail? {
      return Fail(filled.failure);
    }
    return Ok(SetKey(fs, "panels", JArr(filled.value)));
  }

  /** lines 150-164: one entry of the restore loop, up to the post. */
  method PrepareForRestore(entry: Json, cfg: RestoreConfig) returns (r: Outcome<Option<Json>>)
    ensures r == PrepareDashboard(entry, cfg)
  {
    var dashboard := DictGet(entry, "dashboard", JNull);
    if dashboard.Fail? {
      return Fail(dashboard.failure);
    }
    if !Truthy(dashboard.value) {
      return Ok(None);
    }
    if !dashboard.value.JObj? {
      return Fail(Raised);
    }
    var remapped := UpdateDatasourceReferencesTarget(dashboard.value, cfg);
    if remapped.Fail? {
      return Fail(remapped.failure);
    }
    var filled := FixTopPanels(remapped.value.fields);
    if filled.Fail? {
      return Fail(filled.failure);
    }
    var fs := PopKey(filled.value, "id");
    fs := PopKey(fs, "uid");
    fs := SetKey(fs, "version", JNum(0));
    return Ok(Some(JObj(fs)));
  }

  /**
   * restore_dashboards: `file` is the parsed backup file, or None when it
   * does not exist; `run.submitted` are the payloads posted, in order.
   */
  method RestoreDashboards(file: Option<Json>, cfg: RestoreConfig) returns (run: RestoreRun)
    ensures run == RestoreFile(file, cfg)
  {
    if file.None? {
      return RestoreRun([], Some(Exit(1)));
    }
    var items := PyIter(file.value);
    if items.Fail? {
      return RestoreRun([], Some(items.failure));
    }
    run := RestoreEach(items.value, cfg);
  }

  /** The loop at lines 149-174: prepare and post each entry in order, stopping at the first exception. */
  method RestoreEach(entries: seq<Json>, cfg: RestoreConfig) returns (run: RestoreRun)
    ensures run == RestoreAll(entries, cfg)
  {
    var submitted: seq<Json> := [];
    for i := 0 to |entries|
      invariant RestoreAll(entries[..i], cfg) == RestoreRun(submitted, None)
    {
      assert entries[..i + 1][..i] == entries[..i];
      var prepared := PrepareForRestore(entries[i], cfg);
      if prepared.Fail? {
        RestoreAllPrefixStop(entries, cfg, i + 1);
        return RestoreRun(submitted, Some(prepared.failure));
      }
      if prepared.value.Some? {
        submitted := submitted + [Payload(prepared.value.value)];
      }
    }
    assert entries[..|entries|] == entries;
    return RestoreRun(submitted, None);
  }

  /** Every payload posted carries a dashboard without `id` or `uid` and with `version` 0. */
  lemma {:induction false} RestoreAllPostsResetDashboards(entries: seq<Json>, cfg: RestoreConfig)
    ensures forall p :: p in RestoreAll(entries, cfg).submitted ==>
              exists d :: p == Payload(d) && IdentityReset(d)
  {
    if entries != [] {
      var prev := RestoreAll(entries[..|entries| - 1], cfg);
      RestoreAllPostsResetDashboards(entries[..|entries| - 1], cfg);
      var prepared := PrepareDashboard(entries[|entries| - 1], cfg);
      if prev.stop.None? && prepared.Ok? && prepared.value.Some? {
        var d := prepared.value.value;
        assert RestoreAll(entries, cfg).submitted == prev.submitted + [Payload(d)];
        assert IdentityReset(d);
      }
    }
  }

  /** How many entries hold a truthy `dashboard`. */
  function CountRestorable(entries: seq<Json>): nat
  {
    if entries == [] then 0
    else
      var last := entries[|entries| - 1];
      CountRestorable(entries[..|entries| - 1]) +
        (if last.JObj? && Truthy(GetOr(last.fields, "dashboard", JNull)) then 1 else 0)
  }

  /** A run that nothing stopped visited every entry, and every entry was a dict. */
  lemma {:induction false} RestoreAllCompleteRunDicts(entries: seq<Json>, cfg: RestoreConfig)
    requires RestoreAll(entries, cfg).stop.None?
    ensures forall i :: 0 <= i < |entries| ==> entries[i].JObj?
  {
    if entries != [] {
      var n := |entries| - 1;
      RestoreAllCompleteRunDicts(entries[..n], cfg);
      var prepared := PrepareDashboard(entries[n], cfg);
      assert prepared.Ok?;
      assert entries[n].JObj?;
      forall i | 0 <= i < |entries| ensures entries[i].JObj? {
        if i < n {
          assert entries[..n][i] == entries[i];
        }
      }
    }
  }

  /**
   * A run that nothing stopped posted exactly one payload per entry with a
   * truthy `dashboard`: skipping an entry does not end the run.
   */
  lemma {:induction false} RestoreAllCompleteRunCount(entries: seq<Json>, cfg: RestoreConfig)
    requires RestoreAll(entries, cfg).stop.None?
    ensures |RestoreAll(entries, cfg).submitted| == CountRestorable(entries)
  {
    if entries != [] {
      var n := |entries| - 1;
      var last := entries[n];
      RestoreAllCompleteRunCount(entries[..n], cfg);
      var prepared := PrepareDashboard(last, cfg);
      assert prepared.Ok? && last.JObj?;
      assert prepared.value.Some? <==> Truthy(GetOr(last.fields, "dashboard", JNull));
    }
  }

  /**
   * A run that an exception stopped posted exactly what the entries before
   * the failing one posted, and that entry's preparation raised.
   */
  lemma {:induction false} RestoreAllStopsAtFirstFailure(entries: seq<Json>, cfg: RestoreConfig)
    requires RestoreAll(entries, cfg).stop.Some?
    ensures exists j :: 0 <= j < |entries| && RestoreAll(entries[..j], cfg) == RestoreRun(RestoreAll(entries, cfg).submitted, None) &&
              PrepareDashboard(entries[j], cfg) == Fail(RestoreAll(entries, cfg).stop.value)
  {
    var n := |entries| - 1;
    var prev := RestoreAll(entries[..n], cfg);
    if prev.stop.Some? {
      RestoreAllStopsAtFirstFailure(entries[..n], cfg);
      var j :| 0 <= j < n && RestoreAll(entries[..n][..j], cfg) == RestoreRun(prev.submitted, None) &&
               PrepareDashboard(entries[..n][j], cfg) == Fail(prev.stop.value);
      assert entries[..n][..j] == entries[..j];
      assert entries[..n][j] == entries[j];
    } else {
      assert RestoreAll(entries[..n], cfg) == RestoreRun(RestoreAll(entries, cfg).submitted, None);
    }
  }
}
