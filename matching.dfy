/** Companion files: which imported Shapefile datasets a `.dbf` or `.prj` belongs to,
    and how `readFileContent` decides between merging and importing. */
module Matching {
  import opened Types
  import opened Strings

  /** `d.info.input_files && d.info.input_files[0] || ""`. */
  function FirstInputFile(info: Info): string
  {
    if |info.inputFiles| > 0 then info.inputFiles[0] else ""
  }

  /** The filter in `findMatchingShp`: same base name as `name` ignoring case, and the
      dataset's first input file has the extension `shp` ignoring case. */
  predicate ShpMatches(env: Classifiers, d: Dataset, name: string)
  {
    var fname := FirstInputFile(d.info);
    Lower(env.getPathBase(name)) == Lower(env.getPathBase(fname)) &&
    Lower(env.getFileExtension(fname)) == "shp"
  }

  /** Positions of the matching datasets, in the order of the dataset list. */
  function FindMatchingShp(env: Classifiers, ds: seq<Dataset>, name: string): (r: seq<nat>)
    ensures forall k :: 0 <= k < |r| ==> r[k] < |ds| && ShpMatches(env, ds[r[k]], name)
    ensures forall i :: 0 <= i < |ds| && ShpMatches(env, ds[i], name) ==> i in r
    ensures forall a, b :: 0 <= a < b < |r| ==> r[a] < r[b]
    decreases |ds|
  {
    if |ds| == 0 then []
    else
      var earlier := FindMatchingShp(env, ds[..|ds| - 1], name);
      if ShpMatches(env, ds[|ds| - 1], name) then earlier + [|ds| - 1] else earlier
  }

  /** A dataset without input files is compared as if its first input file were "",
      so it never matches as long as "" has no `shp` extension. */
  lemma NoInputFilesNeverMatch(env: Classifiers, ds: seq<Dataset>, name: string)
    requires Lower(env.getFileExtension("")) != "shp"
    ensures forall k :: 0 <= k < |FindMatchingShp(env, ds, name)| ==>
      ds[FindMatchingShp(env, ds, name)[k]].info.inputFiles != []
  {
  }

  predicate AllHaveLayers(ds: seq<Dataset>)
  {
    forall i :: 0 <= i < |ds| ==> |ds[i].layers| > 0
  }

  /** `!d.layers[0].data`: the first layer has no attribute table. */
  predicate LacksData(d: Dataset)
  {
    |d.layers| > 0 && d.layers[0].data.None?
  }

  /** The reduce over the matches: the last one whose first layer lacks data. */
  function LastLackingData(ds: seq<Dataset>, m: seq<nat>): (r: Option<nat>)
    requires forall k :: 0 <= k < |m| ==> m[k] < |ds|
    requires forall a, b :: 0 <= a < b < |m| ==> m[a] < m[b]
    ensures r.Some? ==> r.value in m && LacksData(ds[r.value])
    ensures r.Some? ==> forall k :: 0 <= k < |m| && m[k] > r.value ==> !LacksData(ds[m[k]])
    ensures r.None? ==> forall k :: 0 <= k < |m| ==> !LacksData(ds[m[k]])
    decreases |m|
  {
    if |m| == 0 then None
    else if LacksData(ds[m[|m| - 1]]) then Some(m[|m| - 1])
    else LastLackingData(ds, m[..|m| - 1])
  }

  /** The dataset a `.dbf` named `name` is attached to: the most recently added matching
      Shapefile dataset whose first layer has no attribute table, if any. */
  function DbfTarget(env: Classifiers, ds: seq<Dataset>, name: string): (r: Option<nat>)
    ensures r.Some? ==> r.value < |ds| && ShpMatches(env, ds[r.value], name) && LacksData(ds[r.value])
    ensures r.Some? ==> forall i :: r.value < i < |ds| && ShpMatches(env, ds[i], name) ==> !LacksData(ds[i])
    ensures r.None? ==> forall i :: 0 <= i < |ds| && ShpMatches(env, ds[i], name) ==> !LacksData(ds[i])
  {
    var m := FindMatchingShp(env, ds, name);
    var r := LastLackingData(ds, m);
    assert r.Some? ==> forall i :: r.value < i < |ds| && ShpMatches(env, ds[i], name) ==> !LacksData(ds[i]) by {
      if r.Some? {
        forall i | r.value < i < |ds| && ShpMatches(env, ds[i], name) ensures !LacksData(ds[i]) {
          var k :| 0 <= k < |m| && m[k] == i;
        }
      }
    }
    assert r.None? ==> forall i :: 0 <= i < |ds| && ShpMatches(env, ds[i], name) ==> !LacksData(ds[i]) by {
      if r.None? {
        forall i | 0 <= i < |ds| && ShpMatches(env, ds[i], name) ensures !LacksData(ds[i]) {
          var k :| 0 <= k < |m| && m[k] == i;
        }
      }
    }
    r
  }

  /** `new internal.ShapefileTable(content, encoding)`, or nothing when it throws. */
  function DbfTable(env: Classifiers, content: Content, encoding: string): Option<Table>
  {
    match env.dbfRecordCount(content, encoding)
    case None => None
    case Some(n) => Some(Table(n, content, encoding))
  }

  /** `lyr.shapes && lyr.data.size() != lyr.shapes.length`. */
  predicate RecordMismatch(lyr: Layer, table: Table)
  {
    lyr.shapes.Some? && table.records != lyr.shapes.value
  }

  /** `lyr.data = table` on the first layer of dataset `t`. */
  function AttachTable(ds: seq<Dataset>, t: nat, table: Table): (r: seq<Dataset>)
    requires t < |ds| && |ds[t].layers| > 0
    ensures |r| == |ds|
    ensures forall i :: 0 <= i < |ds| && i != t ==> r[i] == ds[i]
    ensures r[t].info == ds[t].info && |r[t].layers| == |ds[t].layers|
    ensures r[t].layers[0].data == Some(table)
    ensures r[t].layers[0].shapes == ds[t].layers[0].shapes
    ensures r[t].layers[0].geometryType == ds[t].layers[0].geometryType
    ensures forall j :: 1 <= j < |ds[t].layers| ==> r[t].layers[j] == ds[t].layers[j]
  {
    var d := ds[t];
    ds[t := d.(layers := d.layers[0 := d.layers[0].(data := Some(table))])]
  }

  /** `!d.info.prj` is false: a projection is present and not an empty string. */
  predicate HasPrj(info: Info)
  {
    info.prj.Some? && Truthy(info.prj.value)
  }

  function SetPrj(d: Dataset, prj: Content): Dataset
  {
    d.(info := d.info.(prj := Some(prj)))
  }

  /** The `.prj` loop: each matching dataset without a projection receives `prj`. */
  function WithPrj(env: Classifiers, ds: seq<Dataset>, name: string, prj: Content): (r: seq<Dataset>)
    ensures |r| == |ds|
    ensures forall i :: 0 <= i < |ds| && HasPrj(ds[i].info) ==> r[i] == ds[i]
    ensures forall i :: 0 <= i < |ds| && !ShpMatches(env, ds[i], name) ==> r[i] == ds[i]
    ensures forall i :: 0 <= i < |ds| && ShpMatches(env, ds[i], name) && !HasPrj(ds[i].info) ==> r[i] == SetPrj(ds[i], prj)
    ensures Truthy(prj) ==> forall i :: 0 <= i < |ds| && ShpMatches(env, ds[i], name) ==> HasPrj(r[i].info)
    ensures forall i :: 0 <= i < |ds| ==>
      r[i].layers == ds[i].layers && r[i].info.inputFiles == ds[i].info.inputFiles
  {
    seq(|ds|, i requires 0 <= i < |ds| =>
      if ShpMatches(env, ds[i], name) && !HasPrj(ds[i].info) then SetPrj(ds[i], prj) else ds[i])
  }

  /** The first projection assigned wins: a second `.prj` for the same datasets
      changes nothing. */
  lemma PrjFirstWins(env: Classifiers, ds: seq<Dataset>, name: string, first: Content, second: Content)
    requires Truthy(first)
    ensures WithPrj(env, WithPrj(env, ds, name, first), name, second) == WithPrj(env, ds, name, first)
  {
    var once := WithPrj(env, ds, name, first);
    var twice := WithPrj(env, once, name, second);
    forall i | 0 <= i < |ds| ensures twice[i] == once[i] {
      assert ShpMatches(env, once[i], name) == ShpMatches(env, ds[i], name);
    }
  }

  /** Two dataset lists that agree on everything the matcher looks at. */
  predicate SameShape(a: seq<Dataset>, b: seq<Dataset>)
  {
    |a| == |b| &&
    forall i :: 0 <= i < |a| ==> a[i].layers == b[i].layers && a[i].info.inputFiles == b[i].info.inputFiles
  }

  lemma {:induction false} FindMatchingShpSameShape(env: Classifiers, a: seq<Dataset>, b: seq<Dataset>, name: string)
    requires SameShape(a, b)
    ensures FindMatchingShp(env, a, name) == FindMatchingShp(env, b, name)
    decreases |a|
  {
    if |a| > 0 {
      FindMatchingShpSameShape(env, a[..|a| - 1], b[..|b| - 1], name);
      assert ShpMatches(env, a[|a| - 1], name) == ShpMatches(env, b[|b| - 1], name);
    }
  }

  lemma {:induction false} LastLackingSameShape(a: seq<Dataset>, b: seq<Dataset>, m: seq<nat>)
    requires SameShape(a, b)
    requires forall k :: 0 <= k < |m| ==> m[k] < |a|
    requires forall x, y :: 0 <= x < y < |m| ==> m[x] < m[y]
    ensures LastLackingData(a, m) == LastLackingData(b, m)
    decreases |m|
  {
    if |m| > 0 {
      LastLackingSameShape(a, b, m[..|m| - 1]);
    }
  }

  /** Assigning a projection does not change which dataset a `.dbf` is attached to. */
  lemma PrjKeepsDbfTarget(env: Classifiers, ds: seq<Dataset>, dbfName: string, prjName: string, prj: Content)
    ensures DbfTarget(env, WithPrj(env, ds, prjName, prj), dbfName) == DbfTarget(env, ds, dbfName)
  {
    var withPrj := WithPrj(env, ds, prjName, prj);
    FindMatchingShpSameShape(env, withPrj, ds, dbfName);
    LastLackingSameShape(withPrj, ds, FindMatchingShp(env, ds, dbfName));
  }

  /** Attaching a table and assigning a projection commute: a Shapefile's companions
      give the same datasets whichever of them is read first. */
  lemma AttachCommutesWithPrj(env: Classifiers, ds: seq<Dataset>, t: nat, table: Table, prjName: string, prj: Content)
    requires t < |ds| && |ds[t].layers| > 0
    ensures WithPrj(env, AttachTable(ds, t, table), prjName, prj) == AttachTable(WithPrj(env, ds, prjName, prj), t, table)
  {
    var attached := AttachTable(ds, t, table);
    var left := WithPrj(env, attached, prjName, prj);
    var right := AttachTable(WithPrj(env, ds, prjName, prj), t, table);
    assert |left| == |right|;
    forall i | 0 <= i < |ds| ensures left[i] == right[i] {
      assert attached[i].info == ds[i].info;
      assert ShpMatches(env, attached[i], prjName) == ShpMatches(env, ds[i], prjName);
    }
  }

  /** What `readFileContent` does with a file of the given name and content. */
  datatype Dispatch = AttachDbf(target: nat) | AssignPrj | ImportNew

  function DispatchFor(env: Classifiers, ds: seq<Dataset>, name: string, content: Content): Dispatch
  {
    var kind := env.guessInputType(name, content);
    if kind == "dbf" && DbfTarget(env, ds, name).Some? then AttachDbf(DbfTarget(env, ds, name).value)
    else if kind == "prj" then AssignPrj
    else ImportNew
  }

  /** The three outcomes of `readFileContent`, stated by what the datasets look like:
      a `.dbf` goes to the last matching Shapefile dataset whose first layer lacks data
      and otherwise is imported on its own; a `.prj` is always consumed; anything else
      is imported. */
  lemma DispatchCases(env: Classifiers, ds: seq<Dataset>, name: string, content: Content)
    ensures var kind := env.guessInputType(name, content);
      match DispatchFor(env, ds, name, content)
      case AttachDbf(t) =>
        kind == "dbf" && t < |ds| && ShpMatches(env, ds[t], name) && LacksData(ds[t]) &&
        forall i :: t < i < |ds| && ShpMatches(env, ds[i], name) ==> !LacksData(ds[i])
      case AssignPrj => kind == "prj"
      case ImportNew =>
        kind != "prj" &&
        (kind == "dbf" ==> forall i :: 0 <= i < |ds| && ShpMatches(env, ds[i], name) ==> !LacksData(ds[i]))
  {
  }

  /** The converse for `.dbf` files: a qualifying dataset always receives the table, so a
      `.dbf` is imported on its own only when no matching dataset lacks data. */
  lemma DbfAttachedWhenPossible(env: Classifiers, ds: seq<Dataset>, name: string, content: Content, i: nat)
    requires env.guessInputType(name, content) == "dbf"
    requires i < |ds| && ShpMatches(env, ds[i], name) && LacksData(ds[i])
    ensures DispatchFor(env, ds, name, content).AttachDbf?
    ensures DispatchFor(env, ds, name, content).target >= i
  {
  }
}
