/** The "top PB of each industry" stock selector: the price-to-book value
    of every stock on the last trading day, grouped by current industry,
    and the stock with the largest PB in each industry.

    The source keeps one mutable model object per stock code (the one the
    stock-to-PB map holds) and sets its industry name on every class row of
    that stock; here that object is the entry of the stock code in two maps,
    `pb` and `names`, and the industry lists hold stock codes. */
module SelectorPb {

  /** A current industry classification row: industry code, stock code and
      industry name. */
  datatype ClassRow = ClassRow(windIndCode: string, stockCode: string, industriesName: string)

  /** A derivative-indicator row of the trading day with a non-null PB. */
  datatype PbRow = PbRow(stockCode: string, pb: real)

  /** A selected model: the stock code, its PB and the industry name last
      set on it. */
  datatype Selected = Selected(stockCode: string, pb: real, industriesName: string)

  // ---------------------------------------------------------------------
  // The stock-to-PB map.

  /** `modelMap`: a later row with the same stock code overwrites an
      earlier one. */
  function PbMap(rows: seq<PbRow>): map<string, real> {
    if rows == [] then map[]
    else PbMap(rows[..|rows| - 1])[rows[|rows| - 1].stockCode := rows[|rows| - 1].pb]
  }

  /** A stock is in the map exactly when some row names it, and its PB is
      that of the last such row. */
  lemma {:induction false} PbMapLastWins(rows: seq<PbRow>, s: string)
    ensures s in PbMap(rows) <==> exists i :: 0 <= i < |rows| && rows[i].stockCode == s
    ensures s in PbMap(rows) ==> exists i :: (0 <= i < |rows| && rows[i].stockCode == s &&
      PbMap(rows)[s] == rows[i].pb && forall j :: i < j < |rows| ==> rows[j].stockCode != s)
  {
    if rows != [] {
      var init := rows[..|rows| - 1];
      PbMapLastWins(init, s);
      var n := |rows| - 1;
      if rows[n].stockCode != s && s in PbMap(rows) {
        var i :| 0 <= i < |init| && init[i].stockCode == s &&
          PbMap(init)[s] == init[i].pb && forall j :: i < j < |init| ==> init[j].stockCode != s;
        assert rows[i] == init[i];
      }
      if exists i :: 0 <= i < |rows| && rows[i].stockCode == s {
        var i :| 0 <= i < |rows| && rows[i].stockCode == s;
        if i < n {
          assert init[i] == rows[i];
        }
      }
    }
  }

  // ---------------------------------------------------------------------
  // The industry grouping.

  /** Whether a class row adds its stock to its industry: only stocks with
      a PB do. */
  predicate Adds(c: ClassRow, pb: map<string, real>) {
    c.stockCode in pb
  }

  /** `industriesModelMap`: industry code to the stocks added to it, in row
      order. */
  function Groups(classes: seq<ClassRow>, pb: map<string, real>): (g: map<string, seq<string>>)
    ensures forall k :: k in g ==> g[k] != []
    ensures forall k, s :: k in g && s in g[k] ==> s in pb
  {
    if classes == [] then map[]
    else
      var before := Groups(classes[..|classes| - 1], pb);
      var c := classes[|classes| - 1];
      if !Adds(c, pb) then before
      else before[c.windIndCode := (if c.windIndCode in before then before[c.windIndCode] else []) + [c.stockCode]]
  }

  predicate RowOf(classes: seq<ClassRow>, i: int, k: string, s: string, pb: map<string, real>) {
    0 <= i < |classes| && classes[i].windIndCode == k && classes[i].stockCode == s && Adds(classes[i], pb)
  }

  /** An industry is grouped exactly when some row adds a stock with a PB to
      it, and it holds exactly the stocks such rows add. */
  lemma {:induction false} GroupsSpec(classes: seq<ClassRow>, pb: map<string, real>, k: string, s: string)
    ensures k in Groups(classes, pb) <==> exists i :: 0 <= i < |classes| && classes[i].windIndCode == k && Adds(classes[i], pb)
    ensures k in Groups(classes, pb) ==> (s in Groups(classes, pb)[k] <==> exists i :: RowOf(classes, i, k, s, pb))
  {
    if classes != [] {
      var n := |classes| - 1;
      var init := classes[..n];
      GroupsSpec(init, pb, k, s);
      forall i | 0 <= i < n
        ensures classes[i] == init[i]
      {
      }
      var c := classes[n];
      if exists i :: RowOf(classes, i, k, s, pb) {
        var i :| RowOf(classes, i, k, s, pb);
        if i < n {
          assert RowOf(init, i, k, s, pb);
        }
      }
      if (exists i :: 0 <= i < |classes| && classes[i].windIndCode == k && Adds(classes[i], pb)) {
        var i :| 0 <= i < |classes| && classes[i].windIndCode == k && Adds(classes[i], pb);
        if i < n {
          assert init[i].windIndCode == k && Adds(init[i], pb);
        }
      }
      if k in Groups(classes, pb) && s in Groups(classes, pb)[k] {
        if c.windIndCode == k && Adds(c, pb) && s == c.stockCode {
          assert RowOf(classes, n, k, s, pb);
        } else {
          assert k in Groups(init, pb) && s in Groups(init, pb)[k];
          var i :| RowOf(init, i, k, s, pb);
          assert RowOf(classes, i, k, s, pb);
        }
      }
    }
  }

  /** The industry name last set on each stock's shared model object. */
  function Names(classes: seq<ClassRow>, pb: map<string, real>): map<string, string> {
    if classes == [] then map[]
    else
      var before := Names(classes[..|classes| - 1], pb);
      var c := classes[|classes| - 1];
      if !Adds(c, pb) then before else before[c.stockCode := c.industriesName]
  }

  /** A stock that some row adds carries the name of the last row that
      adds it, whatever that row's industry. */
  lemma {:induction false} NamesLastWins(classes: seq<ClassRow>, pb: map<string, real>, s: string)
    requires exists i :: 0 <= i < |classes| && classes[i].stockCode == s && Adds(classes[i], pb)
    ensures s in Names(classes, pb)
    ensures exists i :: (0 <= i < |classes| && classes[i].stockCode == s && Adds(classes[i], pb) &&
      Names(classes, pb)[s] == classes[i].industriesName &&
      forall j :: i < j < |classes| ==> !(classes[j].stockCode == s && Adds(classes[j], pb)))
  {
    var n := |classes| - 1;
    var init := classes[..n];
    if classes[n].stockCode == s && Adds(classes[n], pb) {
      assert Names(classes, pb)[s] == classes[n].industriesName;
    } else {
      var i :| 0 <= i < |classes| && classes[i].stockCode == s && Adds(classes[i], pb);
      assert init[i] == classes[i];
      NamesLastWins(init, pb, s);
      var i' :| 0 <= i' < |init| && init[i'].stockCode == s && Adds(init[i'], pb) &&
        Names(init, pb)[s] == init[i'].industriesName &&
        forall j :: i' < j < |init| ==> !(init[j].stockCode == s && Adds(init[j], pb));
      assert classes[i'] == init[i'];
      forall j | i' < j < |classes|
        ensures !(classes[j].stockCode == s && Adds(classes[j], pb))
      {
        if j < n {
          assert classes[j] == init[j];
        }
      }
    }
  }

  // ---------------------------------------------------------------------
  // The top of each industry.

  /** The first element of the list after a stable sort by descending PB:
      the first stock with the largest PB. */
  function Top(group: seq<string>, pb: map<string, real>): (r: string)
    requires group != [] && forall s :: s in group ==> s in pb
    ensures r in group
    ensures forall s :: s in group ==> pb[s] <= pb[r]
    ensures exists i :: 0 <= i < |group| && group[i] == r && forall j :: 0 <= j < i ==> pb[group[j]] < pb[r]
  {
    var n := |group| - 1;
    if n == 0 then group[0]
    else
      var init := group[..n];
      assert group == init + [group[n]];
      var t := Top(init, pb);
      TopStep(init, group[n], pb, t);
      if pb[group[n]] > pb[t] then group[n] else t
  }

  /** The step of `Top`: the first largest of `init`, or `last` when it is
      strictly larger. */
  lemma TopStep(init: seq<string>, last: string, pb: map<string, real>, t: string)
    requires last in pb && forall s :: s in init ==> s in pb
    requires t in init && forall s :: s in init ==> pb[s] <= pb[t]
    requires exists i :: 0 <= i < |init| && init[i] == t && forall j :: 0 <= j < i ==> pb[init[j]] < pb[t]
    ensures var r := if pb[last] > pb[t] then last else t;
      var group := init + [last];
      r in group && (forall s :: s in group ==> pb[s] <= pb[r]) &&
      exists i :: 0 <= i < |group| && group[i] == r && forall j :: 0 <= j < i ==> pb[group[j]] < pb[r]
  {
    var group := init + [last];
    var n := |init|;
    if pb[last] > pb[t] {
      forall j | 0 <= j < n
        ensures pb[group[j]] < pb[last]
      {
        assert group[j] == init[j];
      }
      assert group[n] == last;
    } else {
      var i :| 0 <= i < |init| && init[i] == t && forall j :: 0 <= j < i ==> pb[init[j]] < pb[t];
      assert group[i] == t;
      assert forall j :: 0 <= j < i ==> group[j] == init[j];
    }
  }

  /** What the source appends to the result for industry k: the model of
      the industry's top stock. */
  function Pick(classes: seq<ClassRow>, pb: map<string, real>, k: string): (r: Selected)
    requires k in Groups(classes, pb)
    ensures r.stockCode in pb && r.pb == pb[r.stockCode]
    ensures r.stockCode in Groups(classes, pb)[k]
    ensures forall s :: s in Groups(classes, pb)[k] ==> pb[s] <= r.pb
  {
    var g := Groups(classes, pb)[k];
    var t := Top(g, pb);
    GroupsSpec(classes, pb, k, t);
    NamesLastWins(classes, pb, t);
    Selected(t, pb[t], Names(classes, pb)[t])
  }

  /** The selected stock's name is its industry's name whenever every class
      row of that stock carries one name; in general it is the name of the
      stock's last class row, which may belong to another industry. */
  lemma PickNamesItsIndustry(classes: seq<ClassRow>, pb: map<string, real>, k: string)
    requires k in Groups(classes, pb)
    requires forall i, j :: 0 <= i < |classes| && 0 <= j < |classes| && classes[i].stockCode == classes[j].stockCode ==>
      classes[i].industriesName == classes[j].industriesName
    ensures exists i :: (RowOf(classes, i, k, Pick(classes, pb, k).stockCode, pb) &&
      classes[i].industriesName == Pick(classes, pb, k).industriesName)
  {
    var r := Pick(classes, pb, k);
    GroupsSpec(classes, pb, k, r.stockCode);
    var i :| RowOf(classes, i, k, r.stockCode, pb);
    NamesLastWins(classes, pb, r.stockCode);
  }

  /** The shared model object: a stock listed under two industries carries
      the second industry's name in both industries' results. */
  lemma SharedModelCarriesLastName()
    ensures var classes := [ClassRow("X", "s1", "NameX"), ClassRow("Y", "s1", "NameY")];
      var pb := PbMap([PbRow("s1", 2.0)]);
      "X" in Groups(classes, pb) && Pick(classes, pb, "X") == Selected("s1", 2.0, "NameY") &&
      "Y" in Groups(classes, pb) && Pick(classes, pb, "Y") == Selected("s1", 2.0, "NameY")
  {
    var classes := [ClassRow("X", "s1", "NameX"), ClassRow("Y", "s1", "NameY")];
    var pb := PbMap([PbRow("s1", 2.0)]);
    assert pb == map["s1" := 2.0];
    assert classes[..1] == [ClassRow("X", "s1", "NameX")];
    assert classes[..1][..0] == [];
    var first := Groups(classes[..1], pb);
    assert Groups(classes[..1][..0], pb) == map[];
    assert "X" in first && first["X"] == ["s1"];
    assert Groups(classes, pb)["X"] == ["s1"];
    assert Names(classes, pb)["s1"] == "NameY";
  }

  // ---------------------------------------------------------------------
  // The selector.

  /** `getSelectorData`. `classes` and `pbs` are the two query results. The
      industries are visited in the hash map's iteration order, which the
      model leaves open; the ghost `order` records the order taken. */
  method GetSelectorData(classes: seq<ClassRow>, pbs: seq<PbRow>)
    returns (result: seq<Selected>, ghost order: seq<string>)
    ensures |order| == |result|
    ensures forall i, j :: 0 <= i < j < |order| ==> order[i] != order[j]
    ensures forall k :: k in Groups(classes, PbMap(pbs)) <==> k in order
    ensures forall i :: 0 <= i < |order| ==> (order[i] in Groups(classes, PbMap(pbs)) &&
      result[i] == Pick(classes, PbMap(pbs), order[i]))
    ensures |result| == |Groups(classes, PbMap(pbs)).Keys|
    ensures forall i :: 0 <= i < |result| ==>
      exists k :: (k in Groups(classes, PbMap(pbs)) && result[i] == Pick(classes, PbMap(pbs), k))
  {
    var modelMap: map<string, real> := map[];
    for i := 0 to |pbs|
      invariant modelMap == PbMap(pbs[..i])
    {
      assert pbs[..i + 1][..i] == pbs[..i];
      modelMap := modelMap[pbs[i].stockCode := pbs[i].pb];
    }
    assert pbs[..|pbs|] == pbs;

    var industries: map<string, seq<string>> := map[];
    var names: map<string, string> := map[];
    for i := 0 to |classes|
      invariant industries == Groups(classes[..i], modelMap)
      invariant names == Names(classes[..i], modelMap)
    {
      var c := classes[i];
      assert classes[..i + 1][..i] == classes[..i];
      var list := if c.windIndCode in industries then industries[c.windIndCode] else [];
      if c.stockCode !in modelMap {
        continue;
      }
      names := names[c.stockCode := c.industriesName];
      industries := industries[c.windIndCode := list + [c.stockCode]];
    }
    assert classes[..|classes|] == classes;

    result, order := [], [];
    var remaining := industries.Keys;
    while remaining != {}
      invariant remaining <= industries.Keys
      invariant |order| == |result|
      invariant |result| + |remaining| == |industries.Keys|
      invariant forall i, j :: 0 <= i < j < |order| ==> order[i] != order[j]
      invariant forall k :: k in industries ==> (k in order <==> k !in remaining)
      invariant forall i :: 0 <= i < |order| ==> (order[i] in industries &&
        result[i] == Pick(classes, modelMap, order[i]))
      decreases remaining
    {
      var k :| k in remaining;
      var top := Top(industries[k], modelMap);
      GroupsSpec(classes, modelMap, k, top);
      NamesLastWins(classes, modelMap, top);
      result := result + [Selected(top, modelMap[top], names[top])];
      order := order + [k];
      remaining := remaining - {k};
    }
  }
}
