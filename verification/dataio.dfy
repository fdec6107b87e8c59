/**
 * Dataset metadata, location and loading: `SystemSpec`, `load_system_spec`,
 * `resolve_data_path`, `load_X` and `validate_X` of `runners/_base/dataio.py`.
 *
 * The filesystem is a parameter: the set of paths that exist, and a map
 * from path to what numpy reads from that file.
 */
module DataIO {
  import opened Py
  import PosixPath
  import ConfigIO

  // Messages of exceptions numpy raises while loading.
  const ColumnsChangedMessage: string := "the number of columns changed"
  const PickledMessage: string := "Cannot load file containing pickled data when allow_pickle=False"
  const NpzNdimMessage: string := "'NpzFile' object has no attribute 'ndim'"
  const NdarrayKeysMessage: string := "'numpy.ndarray' object has no attribute 'keys'"
  const BinaryCsvMessage: string := "could not convert binary data to float"

  // ---------------------------------------------------------------------------
  // System metadata

  /** `SystemSpec`: a system's metadata; `None` where `system.yaml` leaves a field out. */
  datatype SystemSpec = SystemSpec(
    name: string,
    dataFormat: string,
    hasHeader: bool,
    delimiter: string,
    xColumns: Option<Value>,
    dims: Option<Value>,
    dtDefault: Option<Value>)

  /** A list of ints, as `x_columns` is declared (the dataclass does not check it). */
  predicate IsIntList(v: Value) {
    v.VList? && forall i :: 0 <= i < |v.items| ==> v.items[i].VInt?
  }

  /** The ints of a list of ints, in order. */
  function IntsOf(v: Value): (r: seq<int>)
    requires IsIntList(v)
  {
    seq(|v.items|, i requires 0 <= i < |v.items| => v.items[i].i)
  }

  /** An optional field: `None` both when the key is absent and when it holds None. */
  function OptionalValue(cfg: Dict, key: string): (r: Option<Value>)
    ensures r.None? <==> Get(cfg, key, VNone) == VNone
    ensures r.Some? ==> key in cfg && r.value == cfg[key]
  {
    if key in cfg && cfg[key] != VNone then Some(cfg[key]) else None
  }

  /** `str(cfg.get(key, default))`. */
  function StrField(cfg: Dict, key: string, default: string): (r: string)
    ensures key !in cfg ==> r == default
    ensures key in cfg && cfg[key].VStr? ==> r == cfg[key].s
  {
    if key in cfg then PyStr(cfg[key]) else default
  }

  /**
   * The `SystemSpec` built from the mapping read from `system.yaml`.
   * `x_columns`, `dims` and `dt` are taken as they are: the dataclass's
   * annotations are not checked.
   */
  function SpecFromConfig(systemDir: string, cfg: Dict): (spec: SystemSpec)
    ensures "name" !in cfg ==> spec.name == PosixPath.Basename(systemDir)
    ensures "data_format" !in cfg ==> spec.dataFormat == "csv"
    ensures "has_header" !in cfg ==> !spec.hasHeader
    ensures "delimiter" !in cfg ==> spec.delimiter == ","
    ensures "x_columns" !in cfg ==> spec.xColumns == None
    ensures "dims" !in cfg ==> spec.dims == None
    ensures "dt" !in cfg ==> spec.dtDefault == None
    ensures "has_header" in cfg ==> spec.hasHeader == Truthy(cfg["has_header"])
    ensures "x_columns" in cfg && cfg["x_columns"] != VNone ==> spec.xColumns == Some(cfg["x_columns"])
    ensures "dims" in cfg && cfg["dims"] != VNone ==> spec.dims == Some(cfg["dims"])
    ensures "dt" in cfg && cfg["dt"] != VNone ==> spec.dtDefault == Some(cfg["dt"])
    ensures spec.xColumns != Some(VNone) && spec.dims != Some(VNone) && spec.dtDefault != Some(VNone)
  {
    SystemSpec(
      name := StrField(cfg, "name", PosixPath.Basename(systemDir)),
      dataFormat := StrField(cfg, "data_format", "csv"),
      hasHeader := "has_header" in cfg && Truthy(cfg["has_header"]),
      delimiter := StrField(cfg, "delimiter", ","),
      xColumns := OptionalValue(cfg, "x_columns"),
      dims := OptionalValue(cfg, "dims"),
      dtDefault := OptionalValue(cfg, "dt"))
  }

  function SystemYamlPath(systemDir: string): string {
    PosixPath.Join(systemDir, "system.yaml")
  }

  /** `load_system_spec(system_dir)`: read `<system_dir>/system.yaml` and fill the defaults. */
  function LoadSystemSpec(systemDir: string, files: map<string, ConfigIO.YamlFile>): SystemSpec
  {
    SpecFromConfig(systemDir, ConfigIO.LoadYaml(files, SystemYamlPath(systemDir)))
  }

  /** Without a `system.yaml` every field takes its default, and the name is the directory's. */
  lemma MissingSystemYamlGivesDefaults(systemDir: string, files: map<string, ConfigIO.YamlFile>)
    requires SystemYamlPath(systemDir) !in files
    ensures LoadSystemSpec(systemDir, files)
         == SystemSpec(PosixPath.Basename(systemDir), "csv", false, ",", None, None, None)
  {
    var cfg := ConfigIO.LoadYaml(files, SystemYamlPath(systemDir));
    assert cfg == map[];
    var spec := SpecFromConfig(systemDir, cfg);
    assert spec.name == PosixPath.Basename(systemDir);
  }

  // ---------------------------------------------------------------------------
  // Locating the dataset

  /** The candidate suffixes, in the order they are tried. */
  const Extensions: seq<string> := [".npz", ".npy", ".csv"]

  /** `<data_root>/<system>/case_<case_id>/ds_<dataset_id>`. */
  function DatasetBase(dataRoot: string, system: string, caseId: string, datasetId: string): string {
    PosixPath.Join(PosixPath.Join(PosixPath.Join(dataRoot, system), "case_" + caseId), "ds_" + datasetId)
  }

  /** The first `base + ext` that exists, for `ext` in `exts` in order. */
  function FirstExisting(base: string, exts: seq<string>, existing: set<string>): Option<string> {
    if exts == [] then None
    else if base + exts[0] in existing then Some(base + exts[0])
    else FirstExisting(base, exts[1..], existing)
  }

  function DatasetNotFound(base: string): Error {
    Error("FileNotFoundError", "Dataset not found: " + base + "(.npz/.npy/.csv)")
  }

  /** What `resolve_data_path` returns or raises. */
  function ResolvedPath(dataRoot: string, system: string, caseId: string, datasetId: string,
                        existing: set<string>): Result<string>
  {
    var base := DatasetBase(dataRoot, system, caseId, datasetId);
    match FirstExisting(base, Extensions, existing)
    case Some(p) => Ok(p)
    case None => Err(DatasetNotFound(base))
  }

  /** `resolve_data_path`: try each suffix in turn and return the first path that exists. */
  method ResolveDataPath(dataRoot: string, system: string, caseId: string, datasetId: string,
                         existing: set<string>) returns (r: Result<string>)
    ensures r == ResolvedPath(dataRoot, system, caseId, datasetId, existing)
  {
    var base := DatasetBase(dataRoot, system, caseId, datasetId);
    var i := 0;
    while i < |Extensions|
      invariant 0 <= i <= |Extensions|
      invariant FirstExisting(base, Extensions[i..], existing) == FirstExisting(base, Extensions, existing)
    {
      var p := base + Extensions[i];
      if p in existing {
        return Ok(p);
      }
      assert Extensions[i..][1..] == Extensions[i + 1..];
      i := i + 1;
    }
    return Err(DatasetNotFound(base));
  }

  /** The search finds something exactly when some candidate exists, and then the earliest one. */
  lemma {:induction false} FirstExistingIsFirst(base: string, exts: seq<string>, existing: set<string>)
    ensures FirstExisting(base, exts, existing).Some?
        <==> exists i :: 0 <= i < |exts| && base + exts[i] in existing
    ensures FirstExisting(base, exts, existing).Some? ==>
      exists i :: 0 <= i < |exts| && FirstExisting(base, exts, existing).value == base + exts[i]
        && base + exts[i] in existing
        && forall j :: 0 <= j < i ==> base + exts[j] !in existing
  {
    if exts != [] && base + exts[0] !in existing {
      FirstExistingIsFirst(base, exts[1..], existing);
      var r := FirstExisting(base, exts, existing);
      if r.Some? {
        var i :| 0 <= i < |exts[1..]| && r.value == base + exts[1..][i] && base + exts[1..][i] in existing
          && forall j :: 0 <= j < i ==> base + exts[1..][j] !in existing;
        assert r.value == base + exts[i + 1];
        assert forall j :: 0 <= j < i + 1 ==> base + exts[j] !in existing by {
          forall j | 0 <= j < i + 1 ensures base + exts[j] !in existing {
            if j > 0 { assert exts[j] == exts[1..][j - 1]; }
          }
        }
      } else {
        forall i | 0 <= i < |exts| ensures base + exts[i] !in existing {
          if i > 0 { assert exts[i] == exts[1..][i - 1]; }
        }
      }
    }
  }

  /**
   * `resolve_data_path` fails, with FileNotFoundError, exactly when none of
   * the three candidates exists; otherwise it returns the first that does,
   * so a `.csv` path comes back only when neither binary file exists.
   */
  lemma ResolvedPathFirstMatch(dataRoot: string, system: string, caseId: string, datasetId: string,
                               existing: set<string>)
    ensures var base := DatasetBase(dataRoot, system, caseId, datasetId);
      var r := ResolvedPath(dataRoot, system, caseId, datasetId, existing);
      && (r.Err? <==> base + ".npz" !in existing && base + ".npy" !in existing && base + ".csv" !in existing)
      && (r.Err? ==> r.error == DatasetNotFound(base))
      && (base + ".npz" in existing ==> r == Ok(base + ".npz"))
      && (base + ".npz" !in existing && base + ".npy" in existing ==> r == Ok(base + ".npy"))
      && (base + ".npz" !in existing && base + ".npy" !in existing && base + ".csv" in existing
          ==> r == Ok(base + ".csv"))
  {
    var base := DatasetBase(dataRoot, system, caseId, datasetId);
    FirstExistingIsFirst(base, Extensions, existing);
    assert Extensions[0] == ".npz" && Extensions[1] == ".npy" && Extensions[2] == ".csv";
  }

  // ---------------------------------------------------------------------------
  // Arrays

  /** A numpy float array, by its number of dimensions; a 2-D array is a list of equal-length rows. */
  datatype NdArray =
    | Scalar(x: real)
    | Vector(xs: seq<real>)
    | Matrix(rows: seq<seq<real>>, width: nat)
    | Higher(dims: seq<nat>, data: seq<real>)

  function Product(ns: seq<nat>): nat {
    if ns == [] then 1 else ns[0] * Product(ns[1..])
  }

  ghost predicate ValidArray(a: NdArray) {
    match a
    case Matrix(rows, width) => forall i :: 0 <= i < |rows| ==> |rows[i]| == width
    case Higher(dims, data) => |dims| >= 3 && |data| == Product(dims)
    case _ => true
  }

  /** `X.shape`. */
  function Shape(a: NdArray): (s: seq<nat>)
    ensures ValidArray(a) ==> (a.Matrix? <==> |s| == 2)
  {
    match a
    case Scalar(_) => []
    case Vector(xs) => [|xs|]
    case Matrix(rows, width) => [|rows|, width]
    case Higher(dims, _) => dims
  }

  /** The rows laid end to end. */
  function Concat(rows: seq<seq<real>>): seq<real> {
    if rows == [] then [] else rows[0] + Concat(rows[1..])
  }

  /** `X.ravel()`: the elements in row-major order. */
  function Ravel(a: NdArray): seq<real> {
    match a
    case Scalar(x) => [x]
    case Vector(xs) => xs
    case Matrix(rows, _) => Concat(rows)
    case Higher(_, data) => data
  }

  function Column(xs: seq<real>): (rows: seq<seq<real>>)
    ensures |rows| == |xs| && forall i :: 0 <= i < |xs| ==> rows[i] == [xs[i]]
  {
    seq(|xs|, i requires 0 <= i < |xs| => [xs[i]])
  }

  /** `if X.ndim == 1: X = X.reshape(-1, 1)`. */
  function ReshapeColumn(a: NdArray): (r: NdArray)
    ensures a.Vector? ==> r.Matrix? && Shape(r) == [|a.xs|, 1]
    ensures !a.Vector? ==> r == a
    ensures ValidArray(a) ==> ValidArray(r)
  {
    if a.Vector? then Matrix(Column(a.xs), 1) else a
  }

  lemma {:induction false} ConcatColumn(xs: seq<real>)
    ensures Concat(Column(xs)) == xs
  {
    if xs != [] {
      assert Column(xs)[1..] == Column(xs[1..]);
      ConcatColumn(xs[1..]);
      assert [xs[0]] + xs[1..] == xs;
    }
  }

  /** Reshaping a 1-D array of length n to n x 1 keeps the elements in order. */
  lemma ReshapeKeepsOrder(a: NdArray)
    ensures Ravel(ReshapeColumn(a)) == Ravel(a)
  {
    if a.Vector? { ConcatColumn(a.xs); }
  }

  // ---------------------------------------------------------------------------
  // What numpy reads from a file

  /** One line of a text file as `np.loadtxt` splits it by the delimiter. */
  datatype CsvLine =
    | Numbers(vals: seq<real>)    // every field converts to float; no fields: a blank line
    | Comment                     // empty after removing a '#' comment
    | Garbled(text: string)       // some field does not convert to float

  /** The content of a file: an `.npy` array, an `.npz` archive in its order, or text lines. */
  datatype Stored =
    | NpyFile(arr: NdArray)
    | NpzFile(entries: seq<(string, NdArray)>)
    | TextFile(lines: seq<CsvLine>)

  predicate IsDataRow(l: CsvLine) { l.Numbers? && l.vals != [] }

  /** The numeric rows, blank and comment lines dropped. */
  function DataRows(lines: seq<CsvLine>): (rows: seq<seq<real>>)
    ensures forall i :: 0 <= i < |rows| ==> rows[i] != []
    ensures |rows| <= |lines|
  {
    if lines == [] then []
    else if IsDataRow(lines[0]) then [lines[0].vals] + DataRows(lines[1..])
    else DataRows(lines[1..])
  }

  /** The text of the first line that does not convert. */
  function FirstGarbled(lines: seq<CsvLine>): (r: Option<string>)
    ensures r.None? <==> forall i :: 0 <= i < |lines| ==> !lines[i].Garbled?
  {
    if lines == [] then None
    else if lines[0].Garbled? then Some(lines[0].text)
    else
      var r := FirstGarbled(lines[1..]);
      assert forall i :: 1 <= i < |lines| ==> lines[i] == lines[1..][i - 1];
      r
  }

  predicate SameWidth(rows: seq<seq<real>>) {
    forall i :: 0 <= i < |rows| ==> |rows[i]| == |rows[0]|
  }

  /** numpy's result with `ndmin=0`: every axis of length one squeezed out. */
  function Squeeze(rows: seq<seq<real>>): (r: NdArray)
    requires SameWidth(rows) && forall i :: 0 <= i < |rows| ==> rows[i] != []
    ensures ValidArray(r) && !r.Higher?
    ensures Ravel(r) == Concat(rows)
    ensures r.Matrix? ==> r.rows == rows
  {
    if rows == [] then Vector([])
    else if |rows| == 1 && |rows[0]| == 1 then
      assert rows[0] + [] == rows[0];
      Scalar(rows[0][0])
    else if |rows| == 1 then
      assert rows[0] + [] == rows[0];
      Vector(rows[0])
    else if |rows[0]| == 1 then
      var xs := seq(|rows|, i requires 0 <= i < |rows| => rows[i][0]);
      assert forall i :: 0 <= i < |rows| ==> rows[i] == [rows[i][0]];
      assert Column(xs) == rows;
      ConcatColumn(xs);
      Vector(xs)
    else Matrix(rows, |rows[0]|)
  }

  /** `np.loadtxt(path, delimiter=..., skiprows=skip)` over the file's lines. */
  function LoadTxt(lines: seq<CsvLine>, skip: nat): (r: Result<NdArray>)
    ensures r.Ok? ==> ValidArray(r.value) && !r.value.Higher?
  {
    var kept := if skip <= |lines| then lines[skip..] else [];
    match FirstGarbled(kept)
    case Some(text) => Err(Error("ValueError", "could not convert string to float: '" + text + "'"))
    case None =>
      var rows := DataRows(kept);
      if !SameWidth(rows) then Err(Error("ValueError", ColumnsChangedMessage))
      else Ok(Squeeze(rows))
  }

  // ---------------------------------------------------------------------------
  // load_X

  /** The index of the first archive member called `name`. */
  function FindEntry(entries: seq<(string, NdArray)>, name: string): (r: Option<nat>)
    ensures r.Some? ==> r.value < |entries| && entries[r.value].0 == name
    ensures r.Some? ==> forall j :: 0 <= j < r.value ==> entries[j].0 != name
    ensures r.None? ==> forall j :: 0 <= j < |entries| ==> entries[j].0 != name
  {
    if entries == [] then None
    else if entries[0].0 == name then Some(0)
    else match FindEntry(entries[1..], name)
      case Some(i) => Some(i + 1)
      case None => None
  }

  /** `z["X"] if "X" in z else z[list(z.keys())[0]]`. */
  function PickNpz(entries: seq<(string, NdArray)>): Result<NdArray> {
    match FindEntry(entries, "X")
    case Some(i) => Ok(entries[i].1)
    case None =>
      if entries == [] then Err(Error("IndexError", "list index out of range"))
      else Ok(entries[0].1)
  }

  const ZeroDimMessage: string := "too many indices for array: array is 0-dimensional, but 2 were indexed"

  /** The normalised position of a possibly negative index into `width` columns. */
  function ColumnIndex(c: int, width: nat): (j: nat)
    requires -(width as int) <= c < width
    ensures j < width
  {
    if c < 0 then c + width else c
  }

  predicate InBounds(c: int, width: nat) { -(width as int) <= c < width }

  /** The first requested column that is out of bounds. */
  function FirstOutOfBounds(cols: seq<int>, width: nat): (r: Option<int>)
    ensures r.None? <==> forall j :: 0 <= j < |cols| ==> InBounds(cols[j], width)
    ensures r.Some? ==> !InBounds(r.value, width)
  {
    if cols == [] then None
    else if !InBounds(cols[0], width) then Some(cols[0])
    else
      var r := FirstOutOfBounds(cols[1..], width);
      assert forall j :: 1 <= j < |cols| ==> cols[j] == cols[1..][j - 1];
      r
  }

  /** `X[:, cols]` on the 0-D or 2-D array the CSV branch has at that point. */
  function SelectColumns(a: NdArray, cols: seq<int>): (r: Result<NdArray>)
    requires a.Scalar? || (a.Matrix? && ValidArray(a))
    ensures r.Ok? <==> a.Matrix? && forall j :: 0 <= j < |cols| ==> InBounds(cols[j], a.width)
    ensures r.Ok? ==> r.value.Matrix? && ValidArray(r.value) && Shape(r.value) == [|a.rows|, |cols|]
    ensures r.Ok? ==> forall i, j :: 0 <= i < |a.rows| && 0 <= j < |cols| ==>
      r.value.rows[i][j] == a.rows[i][ColumnIndex(cols[j], a.width)]
  {
    if a.Scalar? then
      Err(Error("IndexError", ZeroDimMessage))
    else match FirstOutOfBounds(cols, a.width)
      case Some(c) =>
        Err(Error("IndexError", "index " + IntToDecimal(c) + " is out of bounds for axis 1 with size "
                                + IntToDecimal(a.width)))
      case None =>
        Ok(Matrix(seq(|a.rows|, i requires 0 <= i < |a.rows| =>
                    seq(|cols|, j requires 0 <= j < |cols| => a.rows[i][ColumnIndex(cols[j], a.width)])),
                  |cols|))
  }

  function NoSuchFile(path: string): Error {
    Error("FileNotFoundError", "[Errno 2] No such file or directory: '" + path + "'")
  }

  /** What `np.load(path)` yields, as `load_X` goes on to use it. */
  function NpLoad(files: map<string, Stored>, path: string): Result<Stored> {
    if path !in files then Err(NoSuchFile(path))
    else if files[path].TextFile? then
      Err(Error("ValueError", PickledMessage))
    else Ok(files[path])
  }

  /** `X[:, c]` for a single int `c`: that column, as a 1-D array. */
  function SelectColumn(a: NdArray, c: int): Result<NdArray>
    requires a.Scalar? || (a.Matrix? && ValidArray(a))
  {
    if a.Scalar? then
      Err(Error("IndexError", ZeroDimMessage))
    else if !InBounds(c, a.width) then
      Err(Error("IndexError", "index " + IntToDecimal(c) + " is out of bounds for axis 1 with size "
                              + IntToDecimal(a.width)))
    else Ok(Vector(seq(|a.rows|, i requires 0 <= i < |a.rows| => a.rows[i][ColumnIndex(c, a.width)])))
  }

  /** `X[:, c]` succeeds exactly on 2-D data with `c` in bounds, and gives column `c` in row order. */
  lemma SelectColumnPicks(a: NdArray, c: int)
    requires a.Scalar? || (a.Matrix? && ValidArray(a))
    ensures var r := SelectColumn(a, c);
      && (r.Ok? <==> a.Matrix? && InBounds(c, a.width))
      && (r.Ok? ==> r.value.Vector? && |r.value.xs| == |a.rows|)
      && (r.Ok? ==> forall i :: 0 <= i < |a.rows| ==> r.value.xs[i] == a.rows[i][ColumnIndex(c, a.width)])
  {
  }

  /** numpy's refusal of an index that is not an int, a slice or an int or bool array. */
  const InvalidIndexMessage: string :=
    "only integers, slices (`:`), ellipsis (`...`), numpy.newaxis (`None`) and integer or boolean arrays are valid indices"

  function InvalidIndex(): Error {
    Error("IndexError", InvalidIndexMessage)
  }

  /** `X[:, x_columns]` for whatever value `system.yaml` gave `x_columns`. */
  function IndexColumns(a: NdArray, xColumns: Value): (r: Result<NdArray>)
    requires a.Scalar? || (a.Matrix? && ValidArray(a))
    ensures !IsIntList(xColumns) && !xColumns.VInt? ==> r == Err(InvalidIndex())
  {
    if IsIntList(xColumns) then SelectColumns(a, IntsOf(xColumns))
    else if xColumns.VInt? then SelectColumn(a, xColumns.i)
    else Err(InvalidIndex())
  }

  /** The CSV branch after the file has been read: reshape, then pick columns. */
  function ShapeCsv(read: NdArray, xColumns: Option<Value>): (r: Result<NdArray>)
    requires ValidArray(read) && !read.Higher?
  {
    var x := ReshapeColumn(read);
    if xColumns.None? then Ok(x) else IndexColumns(x, xColumns.value)
  }

  /** `load_X(path, spec)`, dispatching on the suffix of `path`. */
  function LoadX(path: string, spec: SystemSpec, files: map<string, Stored>): Result<NdArray> {
    if EndsWith(path, ".npy") then
      match NpLoad(files, path)
      case Err(e) => Err(e)
      case Ok(NpyFile(a)) => Ok(ReshapeColumn(a))
      case Ok(_) => Err(Error("AttributeError", NpzNdimMessage))
    else if EndsWith(path, ".npz") then
      match NpLoad(files, path)
      case Err(e) => Err(e)
      case Ok(NpzFile(entries)) =>
        (match PickNpz(entries)
         case Err(e) => Err(e)
         case Ok(a) => Ok(ReshapeColumn(a)))
      case Ok(_) => Err(Error("AttributeError", NdarrayKeysMessage))
    else if EndsWith(path, ".csv") then
      if path !in files then Err(NoSuchFile(path))
      else if !files[path].TextFile? then Err(Error("ValueError", BinaryCsvMessage))
      else
        match LoadTxt(files[path].lines, if spec.hasHeader then 1 else 0)
        case Err(e) => Err(e)
        case Ok(read) => ShapeCsv(read, spec.xColumns)
    else Err(Error("ValueError", "Unsupported data format: " + path))
  }

  /** A path with none of the three suffixes is refused with ValueError naming it. */
  lemma LoadXRefusesOtherSuffixes(path: string, spec: SystemSpec, files: map<string, Stored>)
    requires !EndsWith(path, ".npy") && !EndsWith(path, ".npz") && !EndsWith(path, ".csv")
    ensures LoadX(path, spec, files) == Err(Error("ValueError", "Unsupported data format: " + path))
  {
  }

  /** A 1-D `.npy` array becomes a single column, in order; other arrays come back as stored, whatever `x_columns` says. */
  lemma LoadNpyShapes(path: string, spec: SystemSpec, files: map<string, Stored>)
    requires EndsWith(path, ".npy") && path in files && files[path].NpyFile?
    ensures var a := files[path].arr;
      && LoadX(path, spec, files).Ok?
      && (a.Vector? ==> Shape(LoadX(path, spec, files).value) == [|a.xs|, 1])
      && (a.Vector? ==> LoadX(path, spec, files).value.rows == Column(a.xs))
      && (!a.Vector? ==> LoadX(path, spec, files).value == a)
      && Ravel(LoadX(path, spec, files).value) == Ravel(a)
  {
    ReshapeKeepsOrder(files[path].arr);
  }

  /** An `.npz` archive yields its member "X" when it has one, and otherwise its first member. */
  lemma LoadNpzPicks(path: string, spec: SystemSpec, files: map<string, Stored>)
    requires !EndsWith(path, ".npy") && EndsWith(path, ".npz") && path in files && files[path].NpzFile?
    ensures var entries := files[path].entries;
      var r := LoadX(path, spec, files);
      && (r.Err? <==> |entries| == 0)
      && (forall i :: (0 <= i < |entries| && entries[i].0 == "X"
                         && forall j :: 0 <= j < i ==> entries[j].0 != "X")
                      ==> r == Ok(ReshapeColumn(entries[i].1)))
      && ((|entries| > 0 && forall j :: 0 <= j < |entries| ==> entries[j].0 != "X")
          ==> r == Ok(ReshapeColumn(entries[0].1)))
  {
    var entries := files[path].entries;
    var f := FindEntry(entries, "X");
    forall i | 0 <= i < |entries| && entries[i].0 == "X" && (forall j :: 0 <= j < i ==> entries[j].0 != "X")
      ensures f == Some(i)
    {
    }
  }

  /**
   * The CSV branch skips exactly one line when the system has a header: a
   * file with a header line reads as the same file without it read with no
   * header; without a header an unparsable first line is an error.
   */
  lemma CsvSkipsHeader(path: string, spec: SystemSpec, lines: seq<CsvLine>, header: CsvLine, files: map<string, Stored>)
    requires !EndsWith(path, ".npy") && !EndsWith(path, ".npz") && EndsWith(path, ".csv")
    ensures spec.hasHeader ==>
      LoadX(path, spec, files[path := TextFile([header] + lines)])
        == LoadX(path, spec.(hasHeader := false), files[path := TextFile(lines)])
    ensures !spec.hasHeader && header.Garbled? ==>
      LoadX(path, spec, files[path := TextFile([header] + lines)]).Err?
  {
    assert ([header] + lines)[1..] == lines;
    assert lines[0..] == lines;
    assert ([header] + lines)[0..] == [header] + lines;
  }

  /** Without `x_columns`, the CSV data comes back as read, a 1-D result turned into one column, in order. */
  lemma CsvReshapes(path: string, spec: SystemSpec, files: map<string, Stored>)
    requires !EndsWith(path, ".npy") && !EndsWith(path, ".npz") && EndsWith(path, ".csv")
    requires path in files && files[path].TextFile? && spec.xColumns.None?
    requires LoadTxt(files[path].lines, if spec.hasHeader then 1 else 0).Ok?
    ensures var read := LoadTxt(files[path].lines, if spec.hasHeader then 1 else 0).value;
      var r := LoadX(path, spec, files);
      && r.Ok?
      && (read.Vector? ==> Shape(r.value) == [|read.xs|, 1] && r.value.rows == Column(read.xs))
      && (!read.Vector? ==> r.value == read)
      && Ravel(r.value) == Ravel(read)
  {
    ReshapeKeepsOrder(LoadTxt(files[path].lines, if spec.hasHeader then 1 else 0).value);
  }

  /** With `x_columns` set, output column j of the CSV data is input column `x_columns[j]`. */
  lemma CsvSelectsColumns(path: string, spec: SystemSpec, files: map<string, Stored>)
    requires !EndsWith(path, ".npy") && !EndsWith(path, ".npz") && EndsWith(path, ".csv")
    requires path in files && files[path].TextFile? && spec.xColumns.Some? && IsIntList(spec.xColumns.value)
    requires LoadTxt(files[path].lines, if spec.hasHeader then 1 else 0).Ok?
    ensures var read := LoadTxt(files[path].lines, if spec.hasHeader then 1 else 0).value;
      var x := ReshapeColumn(read);
      var cols := IntsOf(spec.xColumns.value);
      var r := LoadX(path, spec, files);
      && (r.Ok? <==> x.Matrix? && forall j :: 0 <= j < |cols| ==> InBounds(cols[j], x.width))
      && (r.Ok? ==> Shape(r.value) == [|x.rows|, |cols|])
      && (r.Ok? ==> forall i, j :: 0 <= i < |x.rows| && 0 <= j < |cols| ==>
                      r.value.rows[i][j] == x.rows[i][ColumnIndex(cols[j], x.width)])
  {
  }

  /**
   * An `x_columns` that is neither an int nor a list of ints, such as the
   * text `"[0, 1]"` the line parser makes of a flow list, makes a readable
   * CSV file fail with IndexError.
   */
  lemma CsvRefusesOtherColumns(path: string, spec: SystemSpec, files: map<string, Stored>)
    requires !EndsWith(path, ".npy") && !EndsWith(path, ".npz") && EndsWith(path, ".csv")
    requires path in files && files[path].TextFile? && spec.xColumns.Some?
    requires !IsIntList(spec.xColumns.value) && !spec.xColumns.value.VInt?
    requires LoadTxt(files[path].lines, if spec.hasHeader then 1 else 0).Ok?
    ensures LoadX(path, spec, files) == Err(InvalidIndex())
  {
    var read := LoadTxt(files[path].lines, if spec.hasHeader then 1 else 0).value;
    assert LoadX(path, spec, files) == ShapeCsv(read, spec.xColumns);
  }

  /** A single int `x_columns` picks that one column of a CSV file, as a 1-D array. */
  lemma CsvSingleColumn(path: string, spec: SystemSpec, files: map<string, Stored>, c: int)
    requires !EndsWith(path, ".npy") && !EndsWith(path, ".npz") && EndsWith(path, ".csv")
    requires path in files && files[path].TextFile? && spec.xColumns == Some(VInt(c))
    requires LoadTxt(files[path].lines, if spec.hasHeader then 1 else 0).Ok?
    ensures var x := ReshapeColumn(LoadTxt(files[path].lines, if spec.hasHeader then 1 else 0).value);
      var r := LoadX(path, spec, files);
      && (r.Ok? <==> x.Matrix? && InBounds(c, x.width))
      && (r.Ok? ==> r.value.Vector? && |r.value.xs| == |x.rows|)
  {
    var read := LoadTxt(files[path].lines, if spec.hasHeader then 1 else 0).value;
    assert LoadX(path, spec, files) == SelectColumn(ReshapeColumn(read), c);
    SelectColumnPicks(ReshapeColumn(read), c);
  }

  /** A CSV file with one data row of d values comes back as d rows of one column. */
  lemma SingleCsvRowBecomesColumn(path: string, spec: SystemSpec, files: map<string, Stored>, row: seq<real>)
    requires !EndsWith(path, ".npy") && !EndsWith(path, ".npz") && EndsWith(path, ".csv")
    requires |row| >= 2 && !spec.hasHeader && spec.xColumns.None?
    requires path in files && files[path] == TextFile([Numbers(row)])
    ensures LoadX(path, spec, files).Ok?
    ensures Shape(LoadX(path, spec, files).value) == [|row|, 1]
  {
    var lines := [Numbers(row)];
    assert lines[0..] == lines;
    assert DataRows(lines[1..]) == [];
    assert DataRows(lines) == [row];
  }

  // ---------------------------------------------------------------------------
  // validate_X

  function JoinShape(ns: seq<nat>): string {
    if ns == [] then "" else if |ns| == 1 then IntToDecimal(ns[0])
    else IntToDecimal(ns[0]) + ", " + JoinShape(ns[1..])
  }

  /** Python's repr of a shape tuple: `()`, `(n,)`, `(a, b)`. */
  function ShapeRepr(shape: seq<nat>): string {
    if |shape| == 1 then "(" + IntToDecimal(shape[0]) + ",)" else "(" + JoinShape(shape) + ")"
  }

  /** `validate_X(X, spec)`: `None` when the check passes, else the exception raised. */
  function ValidateX(a: NdArray, spec: SystemSpec): (r: Option<Error>)
    ensures r.None? <==> spec.dims.None? || (|Shape(a)| >= 2 && IntEquals(Shape(a)[1], spec.dims.value))
    ensures r.Some? && |Shape(a)| >= 2 ==> r.value == Error("ValueError",
      "dims mismatch: spec.dims=" + PyStr(spec.dims.value) + " but X.shape=" + ShapeRepr(Shape(a)))
    ensures r.Some? && |Shape(a)| < 2 ==> r.value.name == "IndexError"
  {
    if spec.dims.None? then None
    else
      var shape := Shape(a);
      if |shape| < 2 then Some(Error("IndexError", "tuple index out of range"))
      else if !IntEquals(shape[1], spec.dims.value) then
        Some(Error("ValueError", "dims mismatch: spec.dims=" + PyStr(spec.dims.value)
                                 + " but X.shape=" + ShapeRepr(shape)))
      else None
  }
}
