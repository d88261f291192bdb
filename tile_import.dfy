/**
 * The import toolbar: BIM tiles grouped by file name, the model name taken from an
 * IFC file's name, the decision between saving to the database and loading locally,
 * and the export guard.
 */
module TileImport {
  import opened Wrappers
  import opened Seqs
  import opened Strings

  const GeometrySuffix: string := "-processed.json"
  const PropertiesSuffix: string := "-processed-properties.json"

  /** A chosen file: its name and its text. */
  datatype TileFile = TileFile(name: string, text: string)

  /** The empty stand-in geometry every group starts with (`new File([], "asd")`). */
  const Placeholder: TileFile := TileFile("asd", "")

  /** A tile group: its geometry file and, when one was chosen, its properties file. */
  datatype Pair = Pair(geometry: TileFile, properties: Option<TileFile>)

  datatype Role = Geometry | Properties | OtherRole

  /** The group a file name belongs to: the first geometry suffix, then the first properties suffix, removed. */
  function GroupKey(name: string): string {
    ReplaceFirst(ReplaceFirst(name, GeometrySuffix, ""), PropertiesSuffix, "")
  }

  /** What a file is within its group. */
  function RoleOf(name: string): Role {
    if Contains(name, GeometrySuffix) then Geometry
    else if Contains(name, PropertiesSuffix) then Properties
    else OtherRole
  }

  lemma GeometrySuffixUnique()
    ensures forall k :: 0 < k < |GeometrySuffix| ==> GeometrySuffix[k] != GeometrySuffix[0]
  {
  }

  /** The properties suffix has its `-` at 0 and 10 only. */
  lemma PropertiesSuffixDashes(k: int)
    requires 0 <= k < |PropertiesSuffix| && k != 0 && k != 10
    ensures PropertiesSuffix[k] != '-'
  {
    var p := PropertiesSuffix;
    assert p == "-" + "processed" + "-" + "properties.json";
    if k < 10 {
      assert p[k] == "processed"[k - 1];
    } else {
      assert p[k] == "properties.json"[k - 11];
    }
  }

  lemma PropertiesSuffixUnbordered()
    ensures Unbordered(PropertiesSuffix)
  {
    var p := PropertiesSuffix;
    forall k | 0 < k < |p| ensures p[k..] != p[..|p| - k] {
      if k == 10 {
        assert p[k..][4] != p[..|p| - k][4];
      } else {
        PropertiesSuffixDashes(k);
        assert p[k..][0] != p[..|p| - k][0];
      }
    }
  }

  /** The properties suffix does not contain the geometry suffix. */
  lemma PropertiesSuffixNotGeometry()
    ensures !Contains(PropertiesSuffix, GeometrySuffix)
  {
    var p, g := PropertiesSuffix, GeometrySuffix;
    forall i: nat ensures !OccursAt(p, g, i) {
      if i + |g| <= |p| {
        if i == 0 {
          assert p[i..i + |g|][10] != g[10];
        } else if i == 10 {
          assert p[i..i + |g|][4] != g[4];
        } else {
          PropertiesSuffixDashes(i);
          assert p[i..i + |g|][0] != g[0];
        }
      }
    }
    assert forall i: nat :: !OccursAt(p, g, i);
  }

  /** With no suffix in it, `stem + "-processed.json"` is grouped under `stem`. */
  lemma GroupKeyOfGeometry(stem: string)
    requires !Contains(stem, GeometrySuffix) && !Contains(stem, PropertiesSuffix)
    ensures GroupKey(stem + GeometrySuffix) == stem
  {
    GeometrySuffixUnique();
    FirstCharUniqueUnbordered(GeometrySuffix);
    IndexOfAfterPrefix(stem, GeometrySuffix, GeometrySuffix);
    assert (stem + GeometrySuffix)[..|stem|] == stem;
    assert ReplaceFirst(stem + GeometrySuffix, GeometrySuffix, "") == stem;
  }

  /** With no suffix in it, `stem + "-processed-properties.json"` is grouped under `stem` too. */
  lemma GroupKeyOfProperties(stem: string)
    requires !Contains(stem, GeometrySuffix) && !Contains(stem, PropertiesSuffix)
    ensures GroupKey(stem + PropertiesSuffix) == stem
  {
    GeometrySuffixUnique();
    PropertiesSuffixNotGeometry();
    NotContainsConcat(stem, PropertiesSuffix, GeometrySuffix);
    PropertiesSuffixUnbordered();
    assert ReplaceFirst(stem + PropertiesSuffix, GeometrySuffix, "") == stem + PropertiesSuffix;
    IndexOfAfterPrefix(stem, PropertiesSuffix, PropertiesSuffix);
    assert (stem + PropertiesSuffix)[..|stem|] == stem;
  }

  /** The group keys of the files, one per file, in order. */
  function KeysOf(files: seq<TileFile>): (r: seq<string>)
    ensures |r| == |files|
    ensures forall i :: 0 <= i < |files| ==> r[i] == GroupKey(files[i].name)
  {
    seq(|files|, i requires 0 <= i < |files| => GroupKey(files[i].name))
  }

  /** One file's effect on the grouping: its group is made if new, then the file takes its role. */
  function Place(grouped: map<string, Pair>, f: TileFile): map<string, Pair> {
    var key := GroupKey(f.name);
    var pair := if key in grouped then grouped[key] else Pair(Placeholder, None);
    match RoleOf(f.name)
    case Geometry => grouped[key := pair.(geometry := f)]
    case Properties => grouped[key := pair.(properties := Some(f))]
    case OtherRole => grouped[key := pair]
  }

  /** `grouped` after the first loop of `loadTiles`. */
  function Grouped(files: seq<TileFile>): map<string, Pair> {
    if files == [] then map[]
    else Place(Grouped(files[..|files| - 1]), files[|files| - 1])
  }

  /** The last file of that group with that role, if any. */
  function LastWith(files: seq<TileFile>, key: string, role: Role): (r: Option<TileFile>)
    ensures r.Some? ==> r.value in files && GroupKey(r.value.name) == key && RoleOf(r.value.name) == role
  {
    if files == [] then None
    else
      var f := files[|files| - 1];
      if GroupKey(f.name) == key && RoleOf(f.name) == role then Some(f)
      else LastWith(files[..|files| - 1], key, role)
  }

  /** A group exists exactly when some file has its key. */
  lemma {:induction false} GroupedHas(files: seq<TileFile>, key: string)
    ensures key in Grouped(files) <==> key in KeysOf(files)
  {
    if files != [] {
      var init := files[..|files| - 1];
      GroupedHas(init, key);
      assert KeysOf(files) == KeysOf(init) + [GroupKey(files[|files| - 1].name)];
    }
  }

  /** The pair a group would have from the files so far: placeholder geometry when none. */
  function PairFrom(files: seq<TileFile>, key: string): Pair {
    var g := LastWith(files, key, Geometry);
    Pair(if g.Some? then g.value else Placeholder, LastWith(files, key, Properties))
  }

  /**
   * A group's geometry is the last geometry file of the group (the placeholder when
   * there is none) and its properties the last properties file of the group: a later
   * file overwrites an earlier one with the same role.
   */
  lemma {:induction false} GroupedPair(files: seq<TileFile>, key: string)
    requires key in Grouped(files)
    ensures Grouped(files)[key] == PairFrom(files, key)
  {
    var init := files[..|files| - 1];
    var f := files[|files| - 1];
    if key in Grouped(init) {
      GroupedPair(init, key);
    } else {
      GroupedHas(init, key);
      forall r ensures LastWith(init, key, r) == None {
        NoLastWith(init, key, r);
      }
    }
  }

  /** No file of a group that no file belongs to. */
  lemma {:induction false} NoLastWith(files: seq<TileFile>, key: string, role: Role)
    requires key !in KeysOf(files)
    ensures LastWith(files, key, role) == None
  {
    if files != [] {
      var init := files[..|files| - 1];
      assert KeysOf(files) == KeysOf(init) + [GroupKey(files[|files| - 1].name)];
      NoLastWith(init, key, role);
    }
  }

  /** Every group's key is a key of the grouping and the other way round. */
  lemma GroupedKeys(files: seq<TileFile>)
    ensures Grouped(files).Keys == Elems(Dedup(KeysOf(files)))
  {
    forall key ensures key in Grouped(files) <==> key in Elems(Dedup(KeysOf(files))) {
      GroupedHas(files, key);
    }
  }

  /** The pairs `loadTiles` collects: one per group, in the order the groups were made. */
  function PairsOf(files: seq<TileFile>): (r: seq<Pair>)
    ensures |r| == |Dedup(KeysOf(files))|
  {
    var keys := Dedup(KeysOf(files));
    GroupedKeys(files);
    seq(|keys|, i requires 0 <= i < |keys| => Grouped(files)[keys[i]])
  }

  /** `Place` case by case, as the loop body of `loadTiles` tests the file name. */
  lemma PlaceCases(grouped: map<string, Pair>, f: TileFile)
    ensures var key := GroupKey(f.name);
      var pair := if key in grouped then grouped[key] else Pair(Placeholder, None);
      && (Contains(f.name, GeometrySuffix) ==> Place(grouped, f) == grouped[key := pair.(geometry := f)])
      && (!Contains(f.name, GeometrySuffix) && Contains(f.name, PropertiesSuffix) ==>
            Place(grouped, f) == grouped[key := pair.(properties := Some(f))])
      && (!Contains(f.name, GeometrySuffix) && !Contains(f.name, PropertiesSuffix) ==>
            Place(grouped, f) == grouped[key := pair])
  {
  }

  /** One more file: the grouping takes it in, and its key joins the keys when new. */
  lemma GroupStep(fs: seq<TileFile>, i: nat)
    requires i < |fs|
    ensures Grouped(fs[..i + 1]) == Place(Grouped(fs[..i]), fs[i])
    ensures var key := GroupKey(fs[i].name);
      Dedup(KeysOf(fs[..i + 1])) == if key in Grouped(fs[..i]) then Dedup(KeysOf(fs[..i]))
                                    else Dedup(KeysOf(fs[..i])) + [key]
  {
    assert fs[..i + 1][..i] == fs[..i];
    assert KeysOf(fs[..i + 1]) == KeysOf(fs[..i]) + [GroupKey(fs[i].name)];
    GroupedKeys(fs[..i]);
  }

  /** The body of the first loop of `loadTiles`: one file joins its group, made if new. */
  method AddFile(grouped0: map<string, Pair>, keys0: seq<string>, f: TileFile)
    returns (grouped: map<string, Pair>, keys: seq<string>)
    ensures grouped == Place(grouped0, f)
    ensures var key := GroupKey(f.name);
      keys == if key in grouped0 then keys0 else keys0 + [key]
  {
    grouped, keys := grouped0, keys0;
    var key := GroupKey(f.name);
    if key !in grouped {
      grouped := grouped[key := Pair(Placeholder, None)];
      keys := keys + [key];
    }
    PlaceCases(grouped0, f);
    ghost var pair := grouped[key];
    if Contains(f.name, GeometrySuffix) {
      grouped := grouped[key := grouped[key].(geometry := f)];
      assert grouped == grouped0[key := pair.(geometry := f)];
    } else if Contains(f.name, PropertiesSuffix) {
      grouped := grouped[key := grouped[key].(properties := Some(f))];
      assert grouped == grouped0[key := pair.(properties := Some(f))];
    } else {
      assert grouped == grouped0[key := pair];
    }
  }

  /** The first loop of `loadTiles`: the groups, and their keys in the order they were made. */
  method GroupFiles(fs: seq<TileFile>) returns (grouped: map<string, Pair>, keys: seq<string>)
    ensures grouped == Grouped(fs)
    ensures keys == Dedup(KeysOf(fs))
  {
    grouped := map[];
    keys := [];
    var i := 0;
    while i < |fs|
      invariant 0 <= i <= |fs|
      invariant grouped == Grouped(fs[..i])
      invariant keys == Dedup(KeysOf(fs[..i]))
    {
      GroupStep(fs, i);
      grouped, keys := AddFile(grouped, keys, fs[i]);
      i := i + 1;
    }
    assert fs[..i] == fs;
  }

  /**
   * `loadTiles`, once files are chosen: the files are grouped by key, then every group
   * yields its pair, since even a group without a geometry file has the placeholder, and
   * the pairs are loaded in order until one fails to parse. `None` stands for no file list;
   * `loaded` lists the pairs handed to the loader.
   */
  method LoadTiles(files: Option<seq<TileFile>>, isJson: string -> bool)
    returns (pairs: seq<Pair>, loaded: seq<Pair>)
    ensures files.None? ==> pairs == [] && loaded == []
    ensures files.Some? ==> pairs == PairsOf(files.value)
    ensures loaded == LoadedPrefix(pairs, isJson)
  {
    pairs, loaded := [], [];
    if files.None? {
      return;
    }
    var grouped, keys := GroupFiles(files.value);
    GroupedKeys(files.value);
    pairs := CollectPairs(grouped, keys);
    loaded := LoadPairs(pairs, isJson);
  }

  /**
   * Both texts of a pair parse as JSON (`isJson` says which texts `JSON.parse` accepts);
   * otherwise `JSON.parse` throws outside the loader's `try` and the handler stops.
   */
  predicate Readable(p: Pair, isJson: string -> bool) {
    isJson(p.geometry.text) && (p.properties.Some? ==> isJson(p.properties.value.text))
  }

  /**
   * The pairs the third loop of `loadTiles` hands to the loader: the longest prefix of
   * readable pairs. A loader error is caught and shown, and the loop goes on.
   */
  function LoadedPrefix(pairs: seq<Pair>, isJson: string -> bool): (r: seq<Pair>)
    ensures |r| <= |pairs| && r == pairs[..|r|]
    ensures forall i :: 0 <= i < |r| ==> Readable(r[i], isJson)
    ensures |r| < |pairs| ==> !Readable(pairs[|r|], isJson)
  {
    if pairs == [] || !Readable(pairs[0], isJson) then []
    else [pairs[0]] + LoadedPrefix(pairs[1..], isJson)
  }

  /** The third loop of `loadTiles`: each pair is parsed and loaded, until a parse throws. */
  method LoadPairs(pairs: seq<Pair>, isJson: string -> bool) returns (loaded: seq<Pair>)
    ensures loaded == LoadedPrefix(pairs, isJson)
  {
    loaded := [];
    var i := 0;
    while i < |pairs| && Readable(pairs[i], isJson)
      invariant 0 <= i <= |pairs|
      invariant loaded == pairs[..i]
      invariant forall j :: 0 <= j < i ==> Readable(pairs[j], isJson)
    {
      loaded := loaded + [pairs[i]];
      i := i + 1;
    }
    assert |LoadedPrefix(pairs, isJson)| == i;
  }

  /**
   * `JSON.parse("")` throws, so loading stops at the first group without a geometry file:
   * no pair handed to the loader holds the placeholder, and when the pairs are all
   * readable but such a group, loading stops exactly there.
   */
  lemma PlaceholderStopsLoading(pairs: seq<Pair>, isJson: string -> bool, k: nat)
    requires !isJson(Placeholder.text)
    requires k < |pairs| && pairs[k].geometry == Placeholder
    requires forall j :: 0 <= j < k ==> Readable(pairs[j], isJson)
    ensures LoadedPrefix(pairs, isJson) == pairs[..k]
    ensures forall i :: 0 <= i < |LoadedPrefix(pairs, isJson)| ==>
              LoadedPrefix(pairs, isJson)[i].geometry != Placeholder
  {
    var r := LoadedPrefix(pairs, isJson);
    assert |r| == k;
  }

  /** When every pair is readable, every pair is loaded. */
  lemma AllReadableAllLoaded(pairs: seq<Pair>, isJson: string -> bool)
    requires forall j :: 0 <= j < |pairs| ==> Readable(pairs[j], isJson)
    ensures LoadedPrefix(pairs, isJson) == pairs
  {
    var r := LoadedPrefix(pairs, isJson);
    assert |r| == |pairs|;
  }

  /** The second loop of `loadTiles`: the pair of every group, in key order. */
  method CollectPairs(grouped: map<string, Pair>, keys: seq<string>) returns (pairs: seq<Pair>)
    requires forall k :: k in keys ==> k in grouped
    ensures pairs == seq(|keys|, i requires 0 <= i < |keys| => grouped[keys[i]])
  {
    pairs := [];
    var j := 0;
    while j < |keys|
      invariant 0 <= j <= |keys|
      invariant pairs == seq(j, i requires 0 <= i < j => grouped[keys[i]])
    {
      var pair := grouped[keys[j]];
      pairs := pairs + [pair];
      j := j + 1;
    }
  }

  /** The model name of a streamed IFC file: its name with the first `.ifc` removed. */
  function ModelName(fileName: string): string {
    ReplaceFirst(fileName, ".ifc", "")
  }

  /** A name that is some `.ifc`-free stem followed by `.ifc` gives back the stem. */
  lemma ModelNameOfIfcFile(stem: string)
    requires !Contains(stem, ".ifc")
    ensures ModelName(stem + ".ifc") == stem
  {
    FirstCharUniqueUnbordered(".ifc");
    IndexOfAfterPrefix(stem, ".ifc", ".ifc");
    assert (stem + ".ifc")[..|stem|] == stem;
  }

  /** A name without `.ifc` is the model name as it is. */
  lemma ModelNameWithoutSuffix(fileName: string)
    requires !Contains(fileName, ".ifc")
    ensures ModelName(fileName) == fileName
  {
  }

  /**
   * After a file is chosen: whether it is also loaded in the viewer. `saved` is the answer
   * of `saveToDB`, which is true as soon as its dialog is on screen, before the user
   * presses its save button.
   */
  predicate LoadsLocally(agreeToSave: bool, saved: bool) {
    !(agreeToSave && saved)
  }

  /** The contents of a fragments zip. */
  datatype FragmentsZip = FragmentsZip(geometry: Option<seq<bv8>>, properties: Option<string>,
                                       relations: Option<string>)

  datatype FragmentsOutcome =
    | NoZip
    | SavedFragments
    | NoGeometry
    | BadJson
    | LoadFragmentsCall(geometry: seq<bv8>, properties: Option<string>, relations: Option<string>)

  /**
   * The JSON texts of a zip parse (`isJson` says which texts `JSON.parse` accepts): its
   * `properties.json`, and its `relations-map.json`, which the relations indexer parses.
   */
  predicate ZipJsonParses(z: FragmentsZip, isJson: string -> bool) {
    (z.properties.Some? ==> isJson(z.properties.value))
    && (z.relations.Some? ==> isJson(z.relations.value))
  }

  /**
   * `loadFragments`: nothing without a file; once the user agrees to save and
   * `saveToDB` answers true nothing is loaded; otherwise a zip without `geometry.frag` is
   * refused, a zip whose properties or relations text does not parse throws before
   * anything is loaded (`BadJson`), and any other zip is loaded with whatever properties
   * and relations it has.
   */
  function LoadFragments(zip: Option<FragmentsZip>, agreeToSave: bool, saved: bool,
                         isJson: string -> bool): (r: FragmentsOutcome)
    ensures r == NoZip <==> zip.None?
    ensures r == SavedFragments <==> zip.Some? && !LoadsLocally(agreeToSave, saved)
    ensures r == NoGeometry <==> zip.Some? && LoadsLocally(agreeToSave, saved) && zip.value.geometry.None?
    ensures r == BadJson <==> zip.Some? && LoadsLocally(agreeToSave, saved)
                              && zip.value.geometry.Some? && !ZipJsonParses(zip.value, isJson)
    ensures r.LoadFragmentsCall? <==> zip.Some? && LoadsLocally(agreeToSave, saved)
                                      && zip.value.geometry.Some? && ZipJsonParses(zip.value, isJson)
    ensures r.LoadFragmentsCall? ==> zip.Some? && zip.value.geometry == Some(r.geometry)
                                     && r.properties == zip.value.properties
                                     && r.relations == zip.value.relations
  {
    if zip.None? then NoZip
    else if agreeToSave && saved then SavedFragments
    else if zip.value.geometry.None? then NoGeometry
    else if !ZipJsonParses(zip.value, isJson) then BadJson
    else LoadFragmentsCall(zip.value.geometry.value, zip.value.properties, zip.value.relations)
  }

  datatype StreamOutcome = NoIfc | SavedIfc | LoadIfc(modelName: string)

  /**
   * `streamIfc`: nothing without a file; once the user agrees to save and `saveToDB`
   * answers true nothing is loaded; otherwise the file is loaded under its model name.
   */
  function StreamIfc(fileName: Option<string>, agreeToSave: bool, saved: bool): (r: StreamOutcome)
    ensures r == NoIfc <==> fileName.None?
    ensures r == SavedIfc <==> fileName.Some? && !LoadsLocally(agreeToSave, saved)
    ensures r.LoadIfc? ==> fileName.Some? && r.modelName == ModelName(fileName.value)
  {
    if fileName.None? then NoIfc
    else if agreeToSave && saved then SavedIfc
    else LoadIfc(ModelName(fileName.value))
  }

  /**
   * `exportFragments`: no download without a loaded group; otherwise the first group's
   * fragments, then its properties when it has some.
   */
  function ExportFragments(groupHasProperties: seq<bool>): (downloads: seq<string>)
    ensures |groupHasProperties| == 0 <==> downloads == []
    ensures |groupHasProperties| > 0 ==> downloads[0] == "exported_fragment.frag"
    ensures |groupHasProperties| > 0 ==> |downloads| == (if groupHasProperties[0] then 2 else 1)
    ensures |downloads| == 2 ==> downloads[1] == "exported_properties.json"
  {
    if |groupHasProperties| == 0 then []
    else ["exported_fragment.frag"] + (if groupHasProperties[0] then ["exported_properties.json"] else [])
  }
}
