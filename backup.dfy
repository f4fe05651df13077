/**
 * The export side of the backup: datasource records lose their `id`,
 * dashboards are listed by uid and fetched one by one, and every fetched
 * dashboard has each panel's object `datasource` reference replaced by the
 * datasource's name (update_datasource_references).
 */
module GrafanaBackup {
  import opened Text
  import opened JsonTree

  // ---------------------------------------------------------------------------
  // The panel walk of update_datasource_references

  /**
   * update_panel's first step on a dict: an object `datasource` is replaced
   * by that object's `name` value, or by "" when it has none, without
   * stripping and whatever its type; any other `datasource` value, and every
   * other key, is left as it is.
   */
  function NameDatasource(fs: seq<Entry>): (r: seq<Entry>)
    ensures forall k :: k != "datasource" ==> Get(r, k) == Get(fs, k)
    ensures Has(fs, "datasource") && Get(fs, "datasource").value.JObj? ==>
              r == fs[Find(fs, "datasource") := Entry("datasource", GetOr(Get(fs, "datasource").value.fields, "name", JStr("")))]
    ensures !(Has(fs, "datasource") && Get(fs, "datasource").value.JObj?) ==> r == fs
  {
    match Get(fs, "datasource")
    case Some(JObj(dfs)) => SetKey(fs, "datasource", GetOr(dfs, "name", JStr("")))
    case _ => fs
  }

  /**
   * update_panel as a value: a dict has its datasource named and then,
   * when its `panels` is a list, every nested panel walked; anything that
   * is not a dict is ignored.
   */
  function NormalizePanel(p: Json): (r: Json)
    ensures !p.JObj? ==> r == p
    ensures r.JObj? <==> p.JObj?
    ensures p.JObj? ==> Get(r.fields, "datasource") == Get(NameDatasource(p.fields), "datasource")
    ensures p.JObj? && Has(p.fields, "panels") && Get(p.fields, "panels").value.JArr? ==>
              Get(r.fields, "panels") == Some(JArr(NormalizeAll(Get(p.fields, "panels").value.elems)))
    ensures p.JObj? && !(Has(p.fields, "panels") && Get(p.fields, "panels").value.JArr?) ==>
              Get(r.fields, "panels") == Get(p.fields, "panels")
    ensures p.JObj? ==> forall k :: k != "datasource" && k != "panels" ==> Get(r.fields, k) == Get(p.fields, k)
    decreases p, 1
  {
    match p
    case JObj(fs) =>
      var named := NameDatasource(fs);
      var i := Find(fs, "panels");
      if i < |fs| && fs[i].val.JArr? then
        JObj(SetKey(named, "panels", JArr(NormalizeAll(fs[i].val.elems))))
      else
        JObj(named)
    case _ => p
  }

  /** update_panel applied to every panel of a list. */
  function NormalizeAll(ps: seq<Json>): (r: seq<Json>)
    ensures |r| == |ps|
    ensures forall j :: 0 <= j < |ps| ==> r[j] == NormalizePanel(ps[j])
    decreases ps, 0
  {
    seq(|ps|, j requires 0 <= j < |ps| => NormalizePanel(ps[j]))
  }

  /** update_panel: rewrites the panel's datasource, then walks its nested panels. */
  method UpdatePanel(panel: Json) returns (r: Json)
    ensures r == NormalizePanel(panel)
    decreases panel, 1
  {
    if !panel.JObj? {
      return panel;
    }
    var fs := panel.fields;
    if Has(fs, "datasource") {
      var ds := Get(fs, "datasource").value;
      if ds.JObj? {
        fs := SetKey(fs, "datasource", GetOr(ds.fields, "name", JStr("")));
      }
    }
    var i := Find(panel.fields, "panels");
    if i < |panel.fields| && panel.fields[i].val.JArr? {
      var subpanels := UpdatePanelList(panel.fields[i].val.elems);
      fs := SetKey(fs, "panels", JArr(subpanels));
    }
    return JObj(fs);
  }

  /** The loop `for panel in panels: update_panel(panel)`. */
  method UpdatePanelList(panels: seq<Json>) returns (r: seq<Json>)
    ensures r == NormalizeAll(panels)
    decreases panels, 0
  {
    ghost var all := NormalizeAll(panels);
    r := [];
    for j := 0 to |panels|
      invariant r == all[..j]
    {
      var panel := UpdatePanel(panels[j]);
      assert all[..j + 1] == all[..j] + [all[j]];
      r := r + [panel];
    }
    assert all[..|panels|] == all;
  }

  /** No panel the walk reaches holds an object `datasource`. */
  ghost predicate Flat(p: Json)
    decreases p, 1
  {
    p.JObj? ==>
      !(Has(p.fields, "datasource") && Get(p.fields, "datasource").value.JObj?) &&
      var i := Find(p.fields, "panels");
      (i < |p.fields| && p.fields[i].val.JArr? ==> AllFlat(p.fields[i].val.elems))
  }

  ghost predicate AllFlat(ps: seq<Json>)
    decreases ps, 0
  {
    forall j :: 0 <= j < |ps| ==> Flat(ps[j])
  }

  /** Every object `datasource` the walk reaches has a `name` that is not itself an object. */
  ghost predicate NamesFlat(p: Json)
    decreases p, 1
  {
    p.JObj? ==>
      (Has(p.fields, "datasource") && Get(p.fields, "datasource").value.JObj? ==>
         !GetOr(Get(p.fields, "datasource").value.fields, "name", JStr("")).JObj?) &&
      var i := Find(p.fields, "panels");
      (i < |p.fields| && p.fields[i].val.JArr? ==> AllNamesFlat(p.fields[i].val.elems))
  }

  ghost predicate AllNamesFlat(ps: seq<Json>)
    decreases ps, 0
  {
    forall j :: 0 <= j < |ps| ==> NamesFlat(ps[j])
  }

  /** A panel that holds no object datasource anywhere the walk reaches is left exactly as it is. */
  lemma {:induction false} FlatIsFixed(p: Json)
    requires Flat(p)
    ensures NormalizePanel(p) == p
    decreases p, 1
  {
    if p.JObj? {
      var fs := p.fields;
      var i := Find(fs, "panels");
      if i < |fs| && fs[i].val.JArr? {
        AllFlatIsFixed(fs[i].val.elems);
        assert Get(fs, "panels") == Some(fs[i].val);
      }
    }
  }

  lemma {:induction false} AllFlatIsFixed(ps: seq<Json>)
    requires AllFlat(ps)
    ensures NormalizeAll(ps) == ps
    decreases ps, 0
  {
    forall j | 0 <= j < |ps| ensures NormalizePanel(ps[j]) == ps[j] {
      FlatIsFixed(ps[j]);
    }
  }

  /** `Flat` of a dict, stated through lookups rather than positions. */
  lemma FlatByGet(p: Json)
    requires p.JObj?
    requires !(Has(p.fields, "datasource") && Get(p.fields, "datasource").value.JObj?)
    requires Has(p.fields, "panels") && Get(p.fields, "panels").value.JArr? ==> AllFlat(Get(p.fields, "panels").value.elems)
    ensures Flat(p)
  {
    var i := Find(p.fields, "panels");
    if i < |p.fields| {
      assert Get(p.fields, "panels") == Some(p.fields[i].val);
    }
  }

  /** When no datasource is named by an object, the walk leaves no object datasource behind. */
  lemma {:induction false} NormalizeFlattens(p: Json)
    requires NamesFlat(p)
    ensures Flat(NormalizePanel(p))
    decreases p, 1
  {
    if p.JObj? {
      var fs := p.fields;
      var named := NameDatasource(fs);
      var r := NormalizePanel(p);
      if Has(fs, "datasource") && Get(fs, "datasource").value.JObj? {
        assert Get(named, "datasource") == Some(GetOr(Get(fs, "datasource").value.fields, "name", JStr("")));
      } else {
        assert named == fs;
      }
      var i := Find(fs, "panels");
      if i < |fs| && fs[i].val.JArr? {
        NormalizeAllFlattens(fs[i].val.elems);
        assert r.fields == SetKey(named, "panels", JArr(NormalizeAll(fs[i].val.elems)));
        assert Get(r.fields, "datasource") == Get(named, "datasource");
      } else {
        assert r.fields == named;
        if i < |fs| {
          assert Get(fs, "panels") == Some(fs[i].val);
        }
      }
      FlatByGet(r);
    }
  }

  lemma {:induction false} NormalizeAllFlattens(ps: seq<Json>)
    requires AllNamesFlat(ps)
    ensures AllFlat(NormalizeAll(ps))
    decreases ps, 0
  {
    forall j | 0 <= j < |ps| ensures Flat(NormalizeAll(ps)[j]) {
      NormalizeFlattens(ps[j]);
    }
  }

  /** Walking a panel twice is walking it once, when no datasource is named by an object. */
  lemma NormalizePanelIdempotent(p: Json)
    requires NamesFlat(p)
    ensures NormalizePanel(NormalizePanel(p)) == NormalizePanel(p)
  {
    NormalizeFlattens(p);
    FlatIsFixed(NormalizePanel(p));
  }

  /**
   * A panel with the entries the walk may rewrite blanked out: the value of
   * its own first `datasource` entry becomes null, and, when its `panels` is
   * a list, every nested panel is blanked in the same way. Every other entry,
   * `targets` included, and the order of the keys stay as they are.
   */
  function BlankPanel(p: Json): Json
    decreases p, 1
  {
    match p
    case JObj(fs) =>
      var j := Find(fs, "panels");
      JObj(BlankTop(fs, Find(fs, "datasource"), j, if j < |fs| && fs[j].val.JArr? then BlankAll(fs[j].val.elems) else []))
    case _ => p
  }

  function BlankAll(ps: seq<Json>): seq<Json>
    decreases ps, 0
  {
    seq(|ps|, j requires 0 <= j < |ps| => BlankPanel(ps[j]))
  }

  /**
   * One level of `BlankPanel`, given where `datasource` and `panels` sit:
   * the first is nulled, the second, when a list, replaced by `inner`.
   */
  function BlankTop(fs: seq<Entry>, i: nat, j: nat, inner: seq<Json>): seq<Entry>
  {
    seq(|fs|, m requires 0 <= m < |fs| =>
      if m == i then Entry("datasource", JNull)
      else if m == j && fs[m].val.JArr? then Entry("panels", JArr(inner))
      else fs[m])
  }

  /** Writing into the nulled entry, or a list into the replaced list, keeps one level's blanking. */
  lemma BlankTopWrite(fs: seq<Entry>, i: nat, j: nat, inner: seq<Json>, w: nat, v: Json)
    requires w < |fs|
    requires w == i || (w == j && fs[w].val.JArr? && v.JArr?)
    ensures BlankTop(fs[w := Entry(fs[w].key, v)], i, j, inner) == BlankTop(fs, i, j, inner)
  {
    var gs := fs[w := Entry(fs[w].key, v)];
    var a := BlankTop(gs, i, j, inner);
    var b := BlankTop(fs, i, j, inner);
    forall m | 0 <= m < |b| ensures a[m] == b[m] {
      if m != w {
        assert gs[m] == fs[m];
      }
    }
  }

  /** Writing any value into a panel's `datasource` entry keeps its blanking. */
  lemma BlankWriteDatasource(fs: seq<Entry>, v: Json)
    requires Has(fs, "datasource")
    ensures BlankPanel(JObj(fs[Find(fs, "datasource") := Entry("datasource", v)])) == BlankPanel(JObj(fs))
  {
    var i := Find(fs, "datasource");
    var gs := fs[i := Entry("datasource", v)];
    FindAfterWrite(fs, i, v, "datasource");
    FindAfterWrite(fs, i, v, "panels");
    var j := Find(fs, "panels");
    assert j < |fs| ==> gs[j] == fs[j];
    var inner := if j < |fs| && fs[j].val.JArr? then BlankAll(fs[j].val.elems) else [];
    BlankTopWrite(fs, i, j, inner, i, v);
  }

  /** Writing a list with the same blanking into a panel's `panels` list keeps its blanking. */
  lemma BlankWritePanels(fs: seq<Entry>, ns: seq<Json>)
    requires Has(fs, "panels") && Get(fs, "panels").value.JArr?
    requires BlankAll(ns) == BlankAll(Get(fs, "panels").value.elems)
    ensures BlankPanel(JObj(fs[Find(fs, "panels") := Entry("panels", JArr(ns))])) == BlankPanel(JObj(fs))
  {
    var j := Find(fs, "panels");
    FindAfterWrite(fs, j, JArr(ns), "datasource");
    FindAfterWrite(fs, j, JArr(ns), "panels");
    BlankTopWrite(fs, Find(fs, "datasource"), j, BlankAll(ns), j, JArr(ns));
  }

  /**
   * The walk changes nothing but the `datasource` values of the panels it
   * visits: once those are blanked out, the walked panel is the panel it was
   * given, with every other key and value in place.
   */
  lemma {:induction false} NormalizeKeepsSkeleton(p: Json)
    ensures BlankPanel(NormalizePanel(p)) == BlankPanel(p)
    decreases p, 1
  {
    if p.JObj? {
      var fs := p.fields;
      var named := NameDatasource(fs);
      if named != fs {
        BlankWriteDatasource(fs, GetOr(Get(fs, "datasource").value.fields, "name", JStr("")));
      }
      assert BlankPanel(JObj(named)) == BlankPanel(p);
      var j := Find(fs, "panels");
      if j < |fs| && fs[j].val.JArr? {
        var es := fs[j].val.elems;
        NormalizeAllKeepsSkeleton(es);
        assert Get(named, "panels") == Some(JArr(es));
        BlankWritePanels(named, NormalizeAll(es));
      }
    }
  }

  lemma {:induction false} NormalizeAllKeepsSkeleton(ps: seq<Json>)
    ensures BlankAll(NormalizeAll(ps)) == BlankAll(ps)
    decreases ps, 0
  {
    forall j | 0 <= j < |ps| ensures BlankPanel(NormalizeAll(ps)[j]) == BlankPanel(ps[j]) {
      NormalizeKeepsSkeleton(ps[j]);
    }
  }

  // ---------------------------------------------------------------------------
  // update_datasource_references over a whole dashboard

  /**
   * `if "panels" in x and isinstance(x["panels"], list)`, then the walk of
   * every panel of that list: done for the dashboard and for each row. Only
   * the `in` test and the lookup can raise, on a value that is not a dict.
   */
  function NormalizePanels(x: Json): (r: Outcome<Json>)
    ensures r.Fail? ==> r == Fail(Raised)
    ensures x.JObj? ==> r.Ok? && r.value.JObj?
    ensures r.Ok? && !x.JObj? ==> r.value == x
    ensures r.Ok? ==> PyIn(x, "rows").Ok?
    ensures r.Ok? <==> x.JObj? || PyIn(x, "panels") == Ok(false)
    ensures x.JObj? && Has(x.fields, "panels") && Get(x.fields, "panels").value.JArr? ==>
              Get(r.value.fields, "panels") == Some(JArr(NormalizeAll(Get(x.fields, "panels").value.elems)))
    ensures x.JObj? ==> forall k :: k != "panels" ==> Get(r.value.fields, k) == Get(x.fields, k)
    ensures x.JObj? && !(Has(x.fields, "panels") && Get(x.fields, "panels").value.JArr?) ==> r == Ok(x)
  {
    var hasPanels :- PyIn(x, "panels");
    if !hasPanels then Ok(x)
    else
      var panels :- PyGet(x, "panels");
      if panels.JArr? then Ok(JObj(SetKey(x.fields, "panels", JArr(NormalizeAll(panels.elems))))) else Ok(x)
  }

  /** Every row of a `rows` list, when the dict has one, is a dict. */
  predicate RowsAreDicts(fs: seq<Entry>)
  {
    Has(fs, "rows") && Get(fs, "rows").value.JArr? ==>
      forall i :: 0 <= i < |Get(fs, "rows").value.elems| ==> Get(fs, "rows").value.elems[i].JObj?
  }

  /** The legacy layout: `if "rows" in d and isinstance(d["rows"], list)`, then every row's panels. */
  function NormalizeRows(d: Json): (r: Outcome<Json>)
    ensures r.Ok? ==> (r.value.JObj? <==> d.JObj?)
    ensures r.Ok? && !d.JObj? ==> r.value == d
    ensures !d.JObj? ==> (r.Ok? <==> PyIn(d, "rows") == Ok(false))
    ensures d.JObj? ==>
              (r.Ok? <==> (Has(d.fields, "rows") && Get(d.fields, "rows").value.JArr? ==>
                             forall i :: 0 <= i < |Get(d.fields, "rows").value.elems| ==>
                               NormalizePanels(Get(d.fields, "rows").value.elems[i]).Ok?))
    ensures d.JObj? && RowsAreDicts(d.fields) ==> r.Ok?
  {
    var hasRows :- PyIn(d, "rows");
    if !hasRows then Ok(d)
    else
      var rows :- PyGet(d, "rows");
      if !rows.JArr? then Ok(d)
      else
        var walked :- MapOutcome(rows.elems, NormalizePanels);
        Ok(JObj(SetKey(d.fields, "rows", JArr(walked))))
  }

  /** update_datasource_references as a value: the top-level panels first, then the rows. */
  function NormalizeDashboard(d: Json): (r: Outcome<Json>)
    ensures r.Ok? ==> (r.value.JObj? <==> d.JObj?)
    ensures !d.JObj? ==> (r.Ok? <==> PyIn(d, "panels") == Ok(false) && PyIn(d, "rows") == Ok(false))
    ensures d.JObj? ==> (r.Ok? <==> NormalizeRows(d).Ok?)
    ensures d.JObj? && RowsAreDicts(d.fields) ==> r.Ok?
    ensures r.Ok? && d.JObj? && Has(d.fields, "panels") && Get(d.fields, "panels").value.JArr? ==>
              Get(r.value.fields, "panels") == Some(JArr(NormalizeAll(Get(d.fields, "panels").value.elems)))
    ensures r.Ok? && d.JObj? && Has(d.fields, "rows") && Get(d.fields, "rows").value.JArr? ==>
              MapOutcome(Get(d.fields, "rows").value.elems, NormalizePanels).Ok? &&
              Get(r.value.fields, "rows") == Some(JArr(MapOutcome(Get(d.fields, "rows").value.elems, NormalizePanels).value))
    ensures r.Ok? && d.JObj? ==> forall k :: k != "panels" && k != "rows" ==> Get(r.value.fields, k) == Get(d.fields, k)
  {
    var top :- NormalizePanels(d);
    assert d.JObj? ==> Get(top.fields, "rows") == Get(d.fields, "rows");
    NormalizeRows(top)
  }

  /** Lines 41-43 and 47-49: the walk of `x["panels"]` when it is a list. */
  method UpdateTopPanels(x: Json) returns (r: Outcome<Json>)
    ensures r == NormalizePanels(x)
  {
    var hasPanels := PyIn(x, "panels");
    if hasPanels.Fail? {
      return Fail(hasPanels.failure);
    }
    if !hasPanels.value {
      return Ok(x);
    }
    var panels := PyGet(x, "panels");
    if panels.Fail? {
      return Fail(panels.failure);
    }
    if !panels.value.JArr? {
      return Ok(x);
    }
    var walked := UpdatePanelList(panels.value.elems);
    return Ok(JObj(SetKey(x.fields, "panels", JArr(walked))));
  }

  /** update_datasource_references: returns the dashboard it was given, rewritten. */
  method UpdateDatasourceReferences(dashboard: Json) returns (r: Outcome<Json>)
    ensures r == NormalizeDashboard(dashboard)
  {
    var top := UpdateTopPanels(dashboard);
    if top.Fail? {
      return top;
    }
    var d := top.value;
    // `"panels" in dashboard` did not raise, so neither does `"rows" in dashboard`
    var hasRows := PyIn(d, "rows").value;
    if !hasRows {
      return Ok(d);
    }
    var rows := PyGet(d, "rows");
    if rows.Fail? {
      return Fail(rows.failure);
    }
    if !rows.value.JArr? {
      return Ok(d);
    }
    var rs := rows.value.elems;
    var walked: seq<Json> := [];
    for j := 0 to |rs|
      invariant MapOutcome(rs[..j], NormalizePanels) == Ok(walked)
    {
      assert rs[..j + 1][..j] == rs[..j];
      var row := UpdateTopPanels(rs[j]);
      if row.Fail? {
        MapOutcomePrefixFail(rs, NormalizePanels, j + 1);
        return Fail(row.failure);
      }
      walked := walked + [row.value];
    }
    assert rs[..|rs|] == rs;
    return Ok(JObj(SetKey(d.fields, "rows", JArr(walked))));
  }

  /** A dashboard or row with every panel of its `panels` list, when it is one, blanked. */
  function BlankPanels(x: Json): Json
  {
    match x
    case JObj(fs) =>
      JObj(seq(|fs|, m requires 0 <= m < |fs| =>
        if m == Find(fs, "panels") && fs[m].val.JArr? then Entry("panels", JArr(BlankAll(fs[m].val.elems)))
        else fs[m]))
    case _ => x
  }

  /** A dashboard with every row of its `rows` list, when it is one, blanked as above. */
  function BlankRows(d: Json): Json
  {
    match d
    case JObj(fs) =>
      JObj(seq(|fs|, m requires 0 <= m < |fs| =>
        if m == Find(fs, "rows") && fs[m].val.JArr? then
          Entry("rows", JArr(BlankEach(fs[m].val.elems)))
        else fs[m]))
    case _ => d
  }

  function BlankEach(rows: seq<Json>): seq<Json>
  {
    seq(|rows|, k requires 0 <= k < |rows| => BlankPanels(rows[k]))
  }

  /** A dashboard with every `datasource` entry the walk visits blanked out. */
  function BlankDashboard(d: Json): Json
  {
    BlankRows(BlankPanels(d))
  }

  /**
   * The panel walk of a dashboard or row changes nothing but the
   * `datasource` values of the panels it visits.
   */
  lemma NormalizePanelsKeepsSkeleton(x: Json)
    requires NormalizePanels(x).Ok?
    ensures BlankPanels(NormalizePanels(x).value) == BlankPanels(x)
  {
    if x.JObj? && Has(x.fields, "panels") && Get(x.fields, "panels").value.JArr? {
      var fs := x.fields;
      var j := Find(fs, "panels");
      var es := fs[j].val.elems;
      NormalizeAllKeepsSkeleton(es);
      var q := fs[j := Entry("panels", JArr(NormalizeAll(es)))];
      FindAfterWrite(fs, j, JArr(NormalizeAll(es)), "panels");
      var a := BlankPanels(JObj(q)).fields;
      var b := BlankPanels(x).fields;
      forall m | 0 <= m < |b| ensures a[m] == b[m] {
        if m != j {
          assert q[m] == fs[m];
        }
      }
    }
  }

  /** Writing rows with the same blanking into a dashboard's `rows` list keeps its blanking. */
  lemma BlankWriteRows(fs: seq<Entry>, ws: seq<Json>)
    requires Has(fs, "rows") && Get(fs, "rows").value.JArr?
    requires BlankEach(ws) == BlankEach(Get(fs, "rows").value.elems)
    ensures BlankRows(JObj(fs[Find(fs, "rows") := Entry("rows", JArr(ws))])) == BlankRows(JObj(fs))
  {
    var j := Find(fs, "rows");
    var gs := fs[j := Entry("rows", JArr(ws))];
    FindAfterWrite(fs, j, JArr(ws), "rows");
    var a := BlankRows(JObj(gs)).fields;
    var b := BlankRows(JObj(fs)).fields;
    forall m | 0 <= m < |b| ensures a[m] == b[m] {
      if m != j {
        assert gs[m] == fs[m];
      }
    }
  }

  /** Blanking the panels of a dashboard or row keeps its keys in their order. */
  lemma BlankPanelsKeys(fs: seq<Entry>)
    ensures Keys(BlankPanels(JObj(fs)).fields) == Keys(fs)
  {
    var b := BlankPanels(JObj(fs)).fields;
    forall m | 0 <= m < |fs| ensures Keys(b)[m] == Keys(fs)[m] {
      if m == Find(fs, "panels") {
        assert fs[m].key == "panels";
      }
    }
  }

  /** Blanking the panels of a dashboard leaves its `rows` entry where and as it is. */
  lemma BlankPanelsKeepsRows(fs: seq<Entry>)
    ensures Find(BlankPanels(JObj(fs)).fields, "rows") == Find(fs, "rows")
    ensures Find(fs, "rows") < |fs| ==> BlankPanels(JObj(fs)).fields[Find(fs, "rows")] == fs[Find(fs, "rows")]
  {
    BlankPanelsKeys(fs);
    FindSameKeys(BlankPanels(JObj(fs)).fields, fs, "rows");
  }

  /** Writing into the `rows` entry and blanking the panels touch different entries. */
  lemma BlankPanelsWriteRows(fs: seq<Entry>, v: Json)
    requires Has(fs, "rows")
    ensures BlankPanels(JObj(fs[Find(fs, "rows") := Entry("rows", v)]))
            == JObj(BlankPanels(JObj(fs)).fields[Find(fs, "rows") := Entry("rows", v)])
  {
    var j := Find(fs, "rows");
    var gs := fs[j := Entry("rows", v)];
    FindAfterWrite(fs, j, v, "panels");
    var a := BlankPanels(JObj(gs)).fields;
    var b := BlankPanels(JObj(fs)).fields[j := Entry("rows", v)];
    forall m | 0 <= m < |b| ensures a[m] == b[m] {
      if m != j {
        assert gs[m] == fs[m];
      }
    }
  }

  /** The walk of the rows, when `d["rows"]` is a list, writes the walked rows into that entry. */
  lemma NormalizeRowsWrites(d: Json)
    requires NormalizeRows(d).Ok? && d.JObj? && Has(d.fields, "rows") && Get(d.fields, "rows").value.JArr?
    ensures MapOutcome(Get(d.fields, "rows").value.elems, NormalizePanels).Ok?
    ensures NormalizeRows(d).value
            == JObj(d.fields[Find(d.fields, "rows") :=
                      Entry("rows", JArr(MapOutcome(Get(d.fields, "rows").value.elems, NormalizePanels).value))])
  {
  }

  /**
   * The walk of the rows changes nothing but the `datasource` values of the
   * panels it visits in each row.
   */
  lemma NormalizeRowsKeepsSkeleton(d: Json)
    requires NormalizeRows(d).Ok?
    ensures BlankRows(NormalizeRows(d).value) == BlankRows(d)
  {
    if d.JObj? && Has(d.fields, "rows") && Get(d.fields, "rows").value.JArr? {
      var rows := Get(d.fields, "rows").value.elems;
      NormalizeRowsWrites(d);
      var walked := MapOutcome(rows, NormalizePanels).value;
      forall k | 0 <= k < |rows| ensures BlankEach(walked)[k] == BlankEach(rows)[k] {
        NormalizePanelsKeepsSkeleton(rows[k]);
      }
      BlankWriteRows(d.fields, walked);
    }
  }

  /**
   * Blanking the panels of a dashboard whose rows were walked is walking the
   * rows of the dashboard whose panels were blanked: the two touch different
   * entries.
   */
  lemma BlankPanelsWalkRows(y: Json)
    requires NormalizeRows(y).Ok?
    ensures NormalizeRows(BlankPanels(y)).Ok?
    ensures BlankPanels(NormalizeRows(y).value) == NormalizeRows(BlankPanels(y)).value
  {
    if y.JObj? {
      var fs := y.fields;
      BlankPanelsKeepsRows(fs);
      if Has(fs, "rows") && Get(fs, "rows").value.JArr? {
        NormalizeRowsWrites(y);
        var walked := MapOutcome(Get(fs, "rows").value.elems, NormalizePanels).value;
        BlankPanelsWriteRows(fs, JArr(walked));
        NormalizeRowsWrites(BlankPanels(y));
      }
    }
  }

  /**
   * update_datasource_references changes nothing but the `datasource` values
   * of the panels it visits: the dashboard keeps every key in its order and
   * every other value, `targets` included.
   */
  lemma NormalizeDashboardKeepsSkeleton(d: Json)
    requires NormalizeDashboard(d).Ok?
    ensures BlankDashboard(NormalizeDashboard(d).value) == BlankDashboard(d)
  {
    var y := NormalizePanels(d).value;
    NormalizePanelsKeepsSkeleton(d);
    BlankPanelsWalkRows(y);
    NormalizeRowsKeepsSkeleton(BlankPanels(y));
  }

  /** Every object datasource reachable from `x["panels"]` is named by a non-object. */
  ghost predicate PanelsNamesFlat(x: Json)
  {
    x.JObj? && Has(x.fields, "panels") && Get(x.fields, "panels").value.JArr? ==>
      AllNamesFlat(Get(x.fields, "panels").value.elems)
  }

  /** Every object datasource the dashboard walk reaches is named by a non-object. */
  ghost predicate DashboardNamesFlat(d: Json)
  {
    PanelsNamesFlat(d) &&
    (d.JObj? && Has(d.fields, "rows") && Get(d.fields, "rows").value.JArr? ==>
       forall row :: row in Get(d.fields, "rows").value.elems ==> PanelsNamesFlat(row))
  }

  /** No panel reachable from `x["panels"]` holds an object `datasource`. */
  ghost predicate PanelsFlat(x: Json)
  {
    x.JObj? && Has(x.fields, "panels") && Get(x.fields, "panels").value.JArr? ==>
      AllFlat(Get(x.fields, "panels").value.elems)
  }

  /** No panel the dashboard walk reaches, at the top or in a row, holds an object `datasource`. */
  ghost predicate DashboardFlat(d: Json)
  {
    PanelsFlat(d) &&
    (d.JObj? && Has(d.fields, "rows") && Get(d.fields, "rows").value.JArr? ==>
       forall row :: row in Get(d.fields, "rows").value.elems ==> PanelsFlat(row))
  }

  /**
   * The dashboard that leaves the backup carries only plain datasource
   * values on the panels the walk reaches, when no object is named by an
   * object.
   */
  lemma NormalizeDashboardFlattens(d: Json)
    requires NormalizeDashboard(d).Ok? && DashboardNamesFlat(d)
    ensures DashboardFlat(NormalizeDashboard(d).value)
  {
    var r := NormalizeDashboard(d).value;
    if d.JObj? {
      if Has(d.fields, "panels") && Get(d.fields, "panels").value.JArr? {
        NormalizeAllFlattens(Get(d.fields, "panels").value.elems);
      }
      if Has(d.fields, "rows") && Get(d.fields, "rows").value.JArr? {
        var rows := Get(d.fields, "rows").value.elems;
        var walked := MapOutcome(rows, NormalizePanels).value;
        forall row | row in walked ensures PanelsFlat(row) {
          var j :| 0 <= j < |walked| && walked[j] == row;
          assert rows[j] in rows;
          if rows[j].JObj? && Has(rows[j].fields, "panels") && Get(rows[j].fields, "panels").value.JArr? {
            NormalizeAllFlattens(Get(rows[j].fields, "panels").value.elems);
          }
        }
      }
    }
  }

  /** The export example: `{uid: "x", name: "Foo"}` becomes `"Foo"`, a bare `{uid: "x"}` becomes `""`, and `"Bar"` stays. */
  lemma NormalizePanelExample()
    ensures NormalizePanel(JObj([Entry("datasource", JObj([Entry("uid", JStr("x")), Entry("name", JStr("Foo"))]))]))
            == JObj([Entry("datasource", JStr("Foo"))])
    ensures NormalizePanel(JObj([Entry("datasource", JObj([Entry("uid", JStr("x"))]))]))
            == JObj([Entry("datasource", JStr(""))])
    ensures NormalizePanel(JObj([Entry("datasource", JStr("Bar"))])) == JObj([Entry("datasource", JStr("Bar"))])
  {
    var named := [Entry("datasource", JObj([Entry("uid", JStr("x")), Entry("name", JStr("Foo"))]))];
    assert GetOr([Entry("uid", JStr("x")), Entry("name", JStr("Foo"))], "name", JStr("")) == JStr("Foo");
    assert NameDatasource(named) == [Entry("datasource", JStr("Foo"))];
    var bare := [Entry("datasource", JObj([Entry("uid", JStr("x"))]))];
    assert GetOr([Entry("uid", JStr("x"))], "name", JStr("")) == JStr("");
    assert NameDatasource(bare) == [Entry("datasource", JStr(""))];
  }

  /** Walking the panels of a dashboard or row twice is walking them once. */
  lemma NormalizePanelsIdempotent(x: Json)
    requires NormalizePanels(x).Ok? && PanelsNamesFlat(x)
    ensures NormalizePanels(NormalizePanels(x).value) == NormalizePanels(x)
  {
    if x.JObj? && Has(x.fields, "panels") && Get(x.fields, "panels").value.JArr? {
      var es := Get(x.fields, "panels").value.elems;
      NormalizeAllFlattens(es);
      AllFlatIsFixed(NormalizeAll(es));
      var y := NormalizePanels(x).value;
      assert Get(y.fields, "panels") == Some(JArr(NormalizeAll(es)));
    }
  }

  /** A dict whose panels the walk leaves alone shares that with any dict holding the same `panels`. */
  lemma NormalizePanelsSamePanels(x: Json, y: Json)
    requires x.JObj? && y.JObj? && NormalizePanels(x) == Ok(x)
    requires Get(y.fields, "panels") == Get(x.fields, "panels")
    ensures NormalizePanels(y) == Ok(y)
  {
    if Has(x.fields, "panels") && Get(x.fields, "panels").value.JArr? {
      var es := Get(x.fields, "panels").value.elems;
      assert x.fields == SetKey(x.fields, "panels", JArr(NormalizeAll(es)));
      assert Get(x.fields, "panels") == Some(JArr(NormalizeAll(es)));
    }
  }

  /**
   * Normalising an already-normalised dashboard changes nothing, when no
   * datasource the walk reaches is named by an object.
   */
  lemma NormalizeDashboardIdempotent(d: Json)
    requires NormalizeDashboard(d).Ok? && DashboardNamesFlat(d)
    ensures NormalizeDashboard(NormalizeDashboard(d).value) == NormalizeDashboard(d)
  {
    var top := NormalizePanels(d).value;
    var r := NormalizeRows(top).value;
    NormalizePanelsIdempotent(d);
    if d.JObj? {
      assert Get(top.fields, "rows") == Get(d.fields, "rows");
      NormalizePanelsSamePanels(top, r);
      if Has(top.fields, "rows") && Get(top.fields, "rows").value.JArr? {
        var rows := Get(top.fields, "rows").value.elems;
        var walked := MapOutcome(rows, NormalizePanels).value;
        forall j | 0 <= j < |rows| ensures NormalizePanels(walked[j]) == Ok(walked[j]) {
          assert rows[j] in Get(d.fields, "rows").value.elems;
          NormalizePanelsIdempotent(rows[j]);
        }
        MapOutcomeIdentity(walked, NormalizePanels);
        assert Get(r.fields, "rows") == Some(JArr(walked));
      }
    }
  }

  // ---------------------------------------------------------------------------
  // fetch_datasources: the records saved without their `id`

  /** `ds.pop("id", None)`: only a dict has a `pop` that takes a key and a default. */
  function StripId(ds: Json): (r: Outcome<Json>)
    ensures r.Ok? <==> ds.JObj?
    ensures r.Ok? ==> r.value.JObj? && !Has(r.value.fields, "id")
    ensures r.Ok? ==> forall k :: k != "id" ==> Get(r.value.fields, k) == Get(ds.fields, k)
    ensures r.Ok? ==> forall e :: e in r.value.fields <==> e in ds.fields && e.key != "id"
  {
    if ds.JObj? then Ok(JObj(PopKey(ds.fields, "id"))) else Fail(Raised)
  }

  /**
   * What fetch_datasources saves, given the response's status and parsed
   * body: any status but 200 exits with status 1. A saved list has as many
   * records as the response, in the same order, none with an `id` and each
   * with every other field as before; a body that is not a list is saved
   * only when it yields no records, and then as it came.
   */
  function BackupDatasources(status: int, body: Json): (r: Outcome<Json>)
    ensures status != 200 ==> r == Fail(Exit(1))
    ensures r.Ok? && body.JArr? ==>
              r.value.JArr? && |r.value.elems| == |body.elems| &&
              forall i :: 0 <= i < |body.elems| ==>
                body.elems[i].JObj? && r.value.elems[i].JObj? && !Has(r.value.elems[i].fields, "id") &&
                forall k :: k != "id" ==> Get(r.value.elems[i].fields, k) == Get(body.elems[i].fields, k)
    ensures r.Ok? && !body.JArr? ==> r.value == body && PyIter(body) == Ok([])
    ensures r.Ok? <==> status == 200 && PyIter(body).Ok? &&
                       forall i :: 0 <= i < |PyIter(body).value| ==> PyIter(body).value[i].JObj?
    ensures status == 200 && body.JArr? && (forall i :: 0 <= i < |body.elems| ==> body.elems[i].JObj?) ==> r.Ok?
  {
    if status != 200 then Fail(Exit(1))
    else
      var records :- PyIter(body);
      var stripped :- MapOutcome(records, StripId);
      Ok(if body.JArr? then JArr(stripped) else body)
  }

  /** fetch_datasources, up to the file write. */
  method FetchDatasources(status: int, body: Json) returns (r: Outcome<Json>)
    ensures r == BackupDatasources(status, body)
  {
    if status != 200 {
      return Fail(Exit(1));
    }
    var items := PyIter(body);
    if items.Fail? {
      return Fail(items.failure);
    }
    var records := items.value;
    var stripped: seq<Json> := [];
    for i := 0 to |records|
      invariant MapOutcome(records[..i], StripId) == Ok(stripped)
    {
      assert records[..i + 1][..i] == records[..i];
      var ds := StripId(records[i]);
      if ds.Fail? {
        MapOutcomePrefixFail(records, StripId, i + 1);
        return Fail(ds.failure);
      }
      stripped := stripped + [ds.value];
    }
    assert records[..|records|] == records;
    return Ok(if body.JArr? then JArr(stripped) else body);
  }

  // ---------------------------------------------------------------------------
  // fetch_dashboards: the uid list, and the dashboards kept

  /** What `[item['uid'] for item in results if 'uid' in item]` takes from one search result. */
  function UidOf(item: Json): (r: Outcome<seq<Json>>)
    ensures r.Fail? ==> r == Fail(Raised)
    ensures item.JObj? ==> r == Ok(if Has(item.fields, "uid") then [Get(item.fields, "uid").value] else [])
    ensures r.Ok? && r.value != [] ==> item.JObj?
    ensures !item.JObj? ==> (r.Ok? <==> PyIn(item, "uid") == Ok(false))
  {
    var hasUid :- PyIn(item, "uid");
    if !hasUid then Ok([])
    else
      var uid :- PyGet(item, "uid");
      Ok([uid])
  }

  /** The uid list of line 77. */
  function DashboardUids(results: seq<Json>): Outcome<seq<Json>>
  {
    FlatMapOutcome(results, UidOf)
  }

  /** The `uid` of a search result that is a dict holding one. */
  function ResultUid(item: Json): Option<Json>
  {
    if item.JObj? && Has(item.fields, "uid") then Some(Get(item.fields, "uid").value) else None
  }

  /** The uid list holds exactly the `uid` values of the results that have one. */
  lemma {:induction false} DashboardUidsContents(results: seq<Json>)
    requires DashboardUids(results).Ok?
    ensures forall v :: v in DashboardUids(results).value <==> Yields(results, ResultUid, v)
  {
    if results != [] {
      var n := |results| - 1;
      DashboardUidsContents(results[..n]);
      var last := UidOf(results[n]);
      assert last.Ok?;
      assert DashboardUids(results).value == DashboardUids(results[..n]).value + last.value;
      assert last.value == [] || (results[n].JObj? && last.value == [ResultUid(results[n]).value]);
      forall v ensures v in DashboardUids(results).value <==> Yields(results, ResultUid, v) {
        YieldsSnoc(results, ResultUid, v);
      }
    }
  }

  /** The uid list keeps the results' order: the uids of a prefix come first. */
  lemma DashboardUidsInOrder(results: seq<Json>, j: nat)
    requires j <= |results| && DashboardUids(results).Ok?
    ensures DashboardUids(results[..j]).Ok? && DashboardUids(results[j..]).Ok?
    ensures DashboardUids(results).value == DashboardUids(results[..j]).value + DashboardUids(results[j..]).value
  {
    assert results == results[..j] + results[j..];
    FlatMapOutcomeAppend(results[..j], results[j..], UidOf);
  }

  /** A response of the dashboard server: its status and its parsed body. */
  datatype Response = Response(status: int, body: Json)

  /**
   * What one fetched dashboard adds to the saved list: nothing unless the
   * status is 200; the body as it came when it has no `dashboard` key;
   * otherwise the body with its `dashboard` normalised and every other key
   * as it came.
   */
  function KeepFetched(resp: Response): (r: Outcome<seq<Json>>)
    ensures resp.status != 200 ==> r == Ok([])
    ensures r.Ok? && resp.status == 200 ==> |r.value| == 1
    ensures r.Ok? && resp.status == 200 && PyIn(resp.body, "dashboard") == Ok(false) ==> r.value == [resp.body]
    ensures r.Ok? && resp.status == 200 && resp.body.JObj? && Has(resp.body.fields, "dashboard") ==>
              r.value[0].JObj? &&
              NormalizeDashboard(Get(resp.body.fields, "dashboard").value).Ok? &&
              Get(r.value[0].fields, "dashboard") == Some(NormalizeDashboard(Get(resp.body.fields, "dashboard").value).value) &&
              forall k :: k != "dashboard" ==> Get(r.value[0].fields, k) == Get(resp.body.fields, k)
    ensures resp.status == 200 ==>
              (r.Ok? <==> PyIn(resp.body, "dashboard") == Ok(false) ||
                          (resp.body.JObj? && Has(resp.body.fields, "dashboard") &&
                           NormalizeDashboard(Get(resp.body.fields, "dashboard").value).Ok?))
  {
    if resp.status != 200 then Ok([])
    else
      var hasDashboard :- PyIn(resp.body, "dashboard");
      if !hasDashboard then Ok([resp.body])
      else
        var dashboard :- PyGet(resp.body, "dashboard");
        var normalized :- NormalizeDashboard(dashboard);
        Ok([JObj(SetKey(resp.body.fields, "dashboard", normalized))])
  }

  /** The step of the loop of lines 80-90 for one uid: `server(uid)` answers `GET /api/dashboards/uid/<uid>`. */
  function KeepFrom(server: Json -> Response): Json -> Outcome<seq<Json>>
  {
    (uid: Json) => KeepFetched(server(uid))
  }

  /** The loop of lines 80-90. */
  function KeptDashboards(uids: seq<Json>, server: Json -> Response): Outcome<seq<Json>>
  {
    FlatMapOutcome(uids, KeepFrom(server))
  }

  /** What fetch_dashboards saves: any search status but 200 exits with status 1. */
  function BackupDashboards(searchStatus: int, searchBody: Json, server: Json -> Response): Outcome<seq<Json>>
  {
    if searchStatus != 200 then Fail(Exit(1))
    else
      var results :- PyIter(searchBody);
      var uids :- DashboardUids(results);
      KeptDashboards(uids, server)
  }

  /** Lines 83-90: the body of the loop for one response. */
  method SaveFetched(resp: Response) returns (r: Outcome<seq<Json>>)
    ensures r == KeepFetched(resp)
  {
    if resp.status != 200 {
      return Ok([]);
    }
    var hasDashboard := PyIn(resp.body, "dashboard");
    if hasDashboard.Fail? {
      return Fail(hasDashboard.failure);
    }
    if !hasDashboard.value {
      return Ok([resp.body]);
    }
    var dashboard := PyGet(resp.body, "dashboard");
    if dashboard.Fail? {
      return Fail(dashboard.failure);
    }
    var normalized := UpdateDatasourceReferences(dashboard.value);
    if normalized.Fail? {
      return Fail(normalized.failure);
    }
    return Ok([JObj(SetKey(resp.body.fields, "dashboard", normalized.value))]);
  }

  /** fetch_dashboards, up to the file write. */
  method FetchDashboards(searchStatus: int, searchBody: Json, server: Json -> Response) returns (r: Outcome<seq<Json>>)
    ensures r == BackupDashboards(searchStatus, searchBody, server)
  {
    if searchStatus != 200 {
      return Fail(Exit(1));
    }
    var items := PyIter(searchBody);
    if items.Fail? {
      return Fail(items.failure);
    }
    var uidList := DashboardUids(items.value);
    if uidList.Fail? {
      return Fail(uidList.failure);
    }
    r := FetchEach(uidList.value, server);
  }

  /** The loop at lines 80-90: one fetch per uid, in order, keeping the dashboards that came back. */
  method FetchEach(uids: seq<Json>, server: Json -> Response) returns (r: Outcome<seq<Json>>)
    ensures r == KeptDashboards(uids, server)
  {
    var dashboards: seq<Json> := [];
    for i := 0 to |uids|
      invariant FlatMapOutcome(uids[..i], KeepFrom(server)) == Ok(dashboards)
    {
      assert uids[..i + 1][..i] == uids[..i];
      var kept := SaveFetched(server(uids[i]));
      if kept.Fail? {
        FlatMapOutcomePrefixFail(uids, KeepFrom(server), i + 1);
        return Fail(kept.failure);
      }
      dashboards := dashboards + kept.value;
    }
    assert uids[..|uids|] == uids;
    return Ok(dashboards);
  }

  /** How many uids the server answers with status 200. */
  function CountFetched(uids: seq<Json>, server: Json -> Response): nat
  {
    if uids == [] then 0
    else CountFetched(uids[..|uids| - 1], server) + (if server(uids[|uids| - 1]).status == 200 then 1 else 0)
  }

  /** One dashboard is saved per uid answered with status 200, and none for any other uid. */
  lemma {:induction false} KeptDashboardsCount(uids: seq<Json>, server: Json -> Response)
    requires KeptDashboards(uids, server).Ok?
    ensures |KeptDashboards(uids, server).value| == CountFetched(uids, server)
  {
    if uids != [] {
      var n := |uids| - 1;
      KeptDashboardsCount(uids[..n], server);
      assert KeepFetched(server(uids[n])).Ok?;
    }
  }

  /** The saved dashboards keep the uids' order: those of a prefix of the uids come first. */
  lemma KeptDashboardsInOrder(uids: seq<Json>, server: Json -> Response, j: nat)
    requires j <= |uids| && KeptDashboards(uids, server).Ok?
    ensures KeptDashboards(uids[..j], server).Ok? && KeptDashboards(uids[j..], server).Ok?
    ensures KeptDashboards(uids, server).value ==
              KeptDashboards(uids[..j], server).value + KeptDashboards(uids[j..], server).value
  {
    assert uids == uids[..j] + uids[j..];
    FlatMapOutcomeAppend(uids[..j], uids[j..], KeepFrom(server));
  }
}
