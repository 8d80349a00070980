/**
 * The two `GeotiffFormatter.write` methods: one raster file per requested variable,
 * named after a stem and the variable, with the variable's `grid_mapping` attribute
 * removed first. The common formatter takes the stem from the original input file name
 * when it is given and from the name pattern otherwise; the regridder's formatter
 * always takes it from the name of the period's mid time.
 */
module Geotiff {
  import opened Wrappers
  import opened Text
  import opened Paths
  import opened Calendar
  import opened Datasets
  import opened Formatting

  /**
   * What the loop over the variables leaves behind: the rasters written, the dataset
   * with the attributes as edited, and the error that stopped the loop, if any.
   */
  datatype Written = Written(outputs: seq<Output>, data: Dataset, failure: Option<string>)

  /** The rasters `outputs` written first, then whatever `rest` writes or raises. */
  function Then(outputs: seq<Output>, rest: Written): Written {
    Written(outputs + rest.outputs, rest.data, rest.failure)
  }

  /** The attributes a raster is written with: the variable's, without `grid_mapping`. */
  function RasterAttrs(attrs: Attrs): (r: Attrs)
    ensures "grid_mapping" !in r
  {
    attrs - {"grid_mapping"}
  }

  /** The file name of one variable's raster: the stem, `-`, the variable and `.tif`. */
  function TifName(stem: string, variable: string): string {
    stem + "-" + variable + ".tif"
  }

  /**
   * The loop from the `k`-th variable on. The stem is asked for each variable, so a stem
   * that cannot be made raises only when there is a variable; a variable missing from
   * the dataset raises `KeyError`.
   */
  function RastersFrom(folder: string, names: seq<string>, k: nat, stem: Result<string, string>, data: Dataset)
    : (w: Written)
    requires k <= |names|
    ensures k + |w.outputs| <= |names|
    decreases |names| - k
  {
    if k == |names| then Written([], data, None)
    else
      var v := names[k];
      if stem.Failure? then Written([], data, Some(stem.error))
      else if v !in data.vars then Written([], data, Some(Message(MissingKey(v))))
      else
        var attrs := RasterAttrs(data.vars[v]);
        Then([RasterFile(PathJoin(folder, TifName(stem.value, v)), v, attrs)],
             RastersFrom(folder, names, k + 1, stem, data.(vars := data.vars[v := attrs])))
  }

  /** What writing the rasters of all `names` leaves behind. */
  function Rasters(folder: string, names: seq<string>, stem: Result<string, string>, data: Dataset): (w: Written)
    ensures |w.outputs| <= |names|
  {
    RastersFrom(folder, names, 0, stem, data)
  }

  /**
   * The loop of both `write` methods: for each variable, the output path is the stem's
   * file name in the output folder; the variable's attributes lose `grid_mapping` and
   * its raster is written.
   */
  method WriteRasters(folder: string, names: seq<string>, stem: Result<string, string>, data: Dataset)
    returns (w: Written)
    ensures w == Rasters(folder, names, stem, data)
  {
    var outputs: seq<Output> := [];
    var ds := data;
    for k := 0 to |names|
      invariant Rasters(folder, names, stem, data) == Then(outputs, RastersFrom(folder, names, k, stem, ds))
    {
      var v := names[k];
      if stem.Failure? {
        return Written(outputs, ds, Some(stem.error));
      }
      var outputPath := PathJoin(folder, TifName(stem.value, v));
      if v !in ds.vars {
        return Written(outputs, ds, Some(Message(MissingKey(v))));
      }
      var attrs := RasterAttrs(ds.vars[v]);
      ds := ds.(vars := ds.vars[v := attrs]);
      assert outputs + ([RasterFile(outputPath, v, attrs)] + RastersFrom(folder, names, k + 1, stem, ds).outputs)
             == (outputs + [RasterFile(outputPath, v, attrs)]) + RastersFrom(folder, names, k + 1, stem, ds).outputs;
      outputs := outputs + [RasterFile(outputPath, v, attrs)];
    }
    w := Written(outputs, ds, None);
  }

  /** The attributes of every variable after the rasters of `done` have been written. */
  predicate EditedFor(before: Dataset, after: Dataset, done: seq<string>) {
    && after.dims == before.dims
    && after.coords == before.coords
    && after.vars.Keys == before.vars.Keys
    && (forall v :: v in after.vars ==>
          after.vars[v] == if v in done then RasterAttrs(before.vars[v]) else before.vars[v])
  }

  /**
   * The `i`-th raster written from the `k`-th variable on is the raster of variable
   * `k + i`: that variable exists, its stem could be made, and the raster has the
   * variable's path and its attributes without `grid_mapping`.
   */
  lemma {:induction false} RastersFromAt(folder: string, names: seq<string>, k: nat,
                                         stem: Result<string, string>, data: Dataset, i: nat)
    requires k <= |names| && i < |RastersFrom(folder, names, k, stem, data).outputs|
    ensures stem.Success? && names[k + i] in data.vars
    ensures RastersFrom(folder, names, k, stem, data).outputs[i]
            == RasterFile(PathJoin(folder, TifName(stem.value, names[k + i])),
                          names[k + i], RasterAttrs(data.vars[names[k + i]]))
    decreases i
  {
    var v := names[k];
    var next := data.(vars := data.vars[v := RasterAttrs(data.vars[v])]);
    var rest := RastersFrom(folder, names, k + 1, stem, next);
    assert RastersFrom(folder, names, k, stem, data).outputs
           == [RasterFile(PathJoin(folder, TifName(stem.value, v)), v, RasterAttrs(data.vars[v]))] + rest.outputs;
    if i > 0 {
      RastersFromAt(folder, names, k + 1, stem, next, i - 1);
      assert RasterAttrs(next.vars[names[k + i]]) == RasterAttrs(data.vars[names[k + i]]);
    }
  }

  /**
   * The loop from the `k`-th variable on ends normally exactly when it has written every
   * remaining variable; otherwise it raises the error of the first variable not written:
   * the stem's error, or `KeyError` for a variable that is not in the dataset.
   */
  lemma {:induction false} RastersFromEnd(folder: string, names: seq<string>, k: nat,
                                          stem: Result<string, string>, data: Dataset)
    requires k <= |names|
    ensures var w := RastersFrom(folder, names, k, stem, data);
      && (w.failure.None? <==> k + |w.outputs| == |names|)
      && (w.failure.Some? ==>
            w.failure == Some(if stem.Failure? then stem.error else Message(MissingKey(names[k + |w.outputs|]))))
      && (w.failure.Some? && stem.Success? ==> names[k + |w.outputs|] !in data.vars)
    decreases |names| - k
  {
    if k < |names| && stem.Success? && names[k] in data.vars {
      var v := names[k];
      var next := data.(vars := data.vars[v := RasterAttrs(data.vars[v])]);
      RastersFromEnd(folder, names, k + 1, stem, next);
    }
  }

  /**
   * After the loop from the `k`-th variable on, variable `u` has lost `grid_mapping`
   * exactly when the loop wrote it; nothing else in the dataset changed.
   */
  lemma {:induction false} RastersFromEditOf(folder: string, names: seq<string>, k: nat,
                                             stem: Result<string, string>, data: Dataset, u: string)
    requires k <= |names|
    ensures var w := RastersFrom(folder, names, k, stem, data);
      && w.data.dims == data.dims && w.data.coords == data.coords
      && (u in w.data.vars <==> u in data.vars)
      && (u in data.vars ==>
            w.data.vars[u] == if u in names[k..k + |w.outputs|] then RasterAttrs(data.vars[u]) else data.vars[u])
    decreases |names| - k
  {
    if k < |names| && stem.Success? && names[k] in data.vars {
      var v := names[k];
      var next := data.(vars := data.vars[v := RasterAttrs(data.vars[v])]);
      RastersFromEditOf(folder, names, k + 1, stem, next, u);
      InSliceStep(names, k, |RastersFrom(folder, names, k + 1, stem, next).outputs|, u);
    } else {
      assert names[k..k] == [];
    }
  }

  /** An element of `s[k..k + 1 + m]` is `s[k]` or an element of `s[k + 1..k + 1 + m]`. */
  lemma InSliceStep(s: seq<string>, k: nat, m: nat, u: string)
    requires k + 1 + m <= |s|
    ensures u in s[k..k + 1 + m] <==> u == s[k] || u in s[k + 1..k + 1 + m]
  {
    assert s[k..k + 1 + m] == [s[k]] + s[k + 1..k + 1 + m];
  }

  /**
   * The rasters of a `write` are one per variable, in order, until the first variable
   * that cannot be written; the `write` ends normally exactly when every variable got
   * its raster.
   */
  lemma RastersOutputs(folder: string, names: seq<string>, stem: Result<string, string>, data: Dataset)
    ensures var w := Rasters(folder, names, stem, data);
      && (forall i :: 0 <= i < |w.outputs| ==>
            && stem.Success? && names[i] in data.vars
            && w.outputs[i] == RasterFile(PathJoin(folder, TifName(stem.value, names[i])),
                                          names[i], RasterAttrs(data.vars[names[i]])))
      && (w.failure.None? <==> |w.outputs| == |names|)
      && (w.failure.Some? ==>
            w.failure == Some(if stem.Failure? then stem.error else Message(MissingKey(names[|w.outputs|]))))
  {
    var w := Rasters(folder, names, stem, data);
    forall i | 0 <= i < |w.outputs|
      ensures stem.Success? && names[i] in data.vars
      ensures w.outputs[i] == RasterFile(PathJoin(folder, TifName(stem.value, names[i])),
                                         names[i], RasterAttrs(data.vars[names[i]]))
    {
      RastersFromAt(folder, names, 0, stem, data, i);
    }
    RastersFromEnd(folder, names, 0, stem, data);
  }

  /**
   * After a `write`, the variables of `names` that got a raster have lost
   * `grid_mapping`, and every other variable is as it was; after a normal end that is
   * every variable of `names`.
   */
  lemma RastersEdits(folder: string, names: seq<string>, stem: Result<string, string>, data: Dataset)
    ensures var w := Rasters(folder, names, stem, data);
      && EditedFor(data, w.data, names[..|w.outputs|])
      && (w.failure.None? ==> EditedFor(data, w.data, names))
  {
    var w := Rasters(folder, names, stem, data);
    assert names[0..|w.outputs|] == names[..|w.outputs|];
    forall u ensures (u in w.data.vars <==> u in data.vars)
                  && (u in data.vars ==> w.data.vars[u] == if u in names[..|w.outputs|] then RasterAttrs(data.vars[u]) else data.vars[u])
    {
      RastersFromEditOf(folder, names, 0, stem, data, u);
    }
    RastersFromEditOf(folder, names, 0, stem, data, "");
    RastersFromEnd(folder, names, 0, stem, data);
    assert names[..|names|] == names;
  }

  /**
   * All of `names` get a raster, in order, and the loop ends normally, exactly when
   * every variable is in the dataset and the stem could be made (or `names` is empty).
   */
  lemma RastersSucceed(folder: string, names: seq<string>, stem: Result<string, string>, data: Dataset)
    ensures var w := Rasters(folder, names, stem, data);
      w.failure.None? <==> names == [] || (stem.Success? && forall v :: v in names ==> v in data.vars)
  {
    var w := Rasters(folder, names, stem, data);
    RastersOutputs(folder, names, stem, data);
    RastersFromEnd(folder, names, 0, stem, data);
    if w.failure.Some? && stem.Success? {
      assert names[|w.outputs|] in names;
    }
    if w.failure.None? && names != [] {
      assert stem.Success?;
      forall v | v in names ensures v in data.vars {
        var i :| 0 <= i < |names| && names[i] == v;
        assert w.outputs[i].variable == v;
      }
    }
  }

  /** One variable's file name determines the variable, for a fixed stem. */
  lemma TifNameInjective(stem: string, a: string, b: string)
    requires TifName(stem, a) == TifName(stem, b)
    ensures a == b
  {
    var n := |stem| + 1;
    assert |a| == |b|;
    assert a == TifName(stem, a)[n..n + |a|];
    assert b == TifName(stem, b)[n..n + |b|];
  }

  /** Two variables' file names are both absolute or both relative. */
  lemma TifNameStart(stem: string, a: string, b: string)
    ensures StartsWith(TifName(stem, a), "/") == StartsWith(TifName(stem, b), "/")
  {
    assert TifName(stem, a)[0] == TifName(stem, b)[0] == if stem == [] then '-' else stem[0];
  }

  /** Within one `write`, distinct variables are written to distinct paths. */
  lemma RasterPathsDistinct(folder: string, names: seq<string>, stem: Result<string, string>, data: Dataset,
                            i: nat, j: nat)
    requires i < |Rasters(folder, names, stem, data).outputs| && j < |Rasters(folder, names, stem, data).outputs|
    requires names[i] != names[j]
    ensures var w := Rasters(folder, names, stem, data); w.outputs[i].path != w.outputs[j].path
  {
    RastersOutputs(folder, names, stem, data);
    if Rasters(folder, names, stem, data).outputs[i].path == Rasters(folder, names, stem, data).outputs[j].path {
      TifNameStart(stem.value, names[i], names[j]);
      PathJoinInjective(folder, TifName(stem.value, names[i]), TifName(stem.value, names[j]));
      TifNameInjective(stem.value, names[i], names[j]);
    }
  }

  // ---------------------------------------------------------------------------
  // The common GeoTIFF formatter
  // ---------------------------------------------------------------------------

  /** What `None.strftime` raises when no mid time is given. */
  const NoMidTime := "AttributeError: 'NoneType' object has no attribute 'strftime'"

  /**
   * The stem of the common formatter: the original file name without its extension when
   * there is one, and otherwise the name the pattern gives the mid time.
   */
  function CommonStem(f: Formatter, midDt: Option<DateTime>, originalFilename: Option<string>): (stem: Result<string, string>)
    ensures originalFilename.Some? ==> stem == Success(SplitExtRoot(originalFilename.value))
    ensures originalFilename.None? && midDt.None? ==> stem == Failure(NoMidTime)
    ensures originalFilename.None? && midDt.Some? ==>
      (stem.Success? <==> OutputFilename(f, midDt.value).Success?)
      && (stem.Success? ==> stem.value == OutputFilename(f, midDt.value).value)
      && (stem.Failure? ==> stem.error == Message(OutputFilename(f, midDt.value).error))
  {
    if originalFilename.Some? then Success(SplitExtRoot(originalFilename.value))
    else if midDt.None? then Failure(NoMidTime)
    else
      var name := OutputFilename(f, midDt.value);
      if name.Success? then Success(name.value) else Failure(Message(name.error))
  }

  /** The common `GeotiffFormatter.write`; the start and end times play no part. */
  method CommonWrite(f: Formatter, data: Dataset, variableNames: seq<string>,
                     startDt: Option<DateTime>, midDt: Option<DateTime>, endDt: Option<DateTime>,
                     originalFilename: Option<string>)
    returns (w: Written)
    ensures w == Rasters(f.outputFolder, variableNames, CommonStem(f, midDt, originalFilename), data)
  {
    var stem := CommonStem(f, midDt, originalFilename);
    w := WriteRasters(f.outputFolder, variableNames, stem, data);
  }

  /**
   * With an original file name `stem.ext` (no directory, a stem that is not only dots),
   * the raster of variable `v` is `stem-v.tif` in the output folder.
   */
  lemma CommonWriteFromOriginal(f: Formatter, data: Dataset, names: seq<string>, midDt: Option<DateTime>,
                                stem: string, ext: string, i: nat)
    requires '/' !in stem && '/' !in ext && '.' !in ext && !AllDots(stem)
    requires i < |Rasters(f.outputFolder, names, CommonStem(f, midDt, Some(stem + "." + ext)), data).outputs|
    ensures Rasters(f.outputFolder, names, CommonStem(f, midDt, Some(stem + "." + ext)), data).outputs[i].path
            == PathJoin(f.outputFolder, stem + "-" + names[i] + ".tif")
  {
    SplitExtOfFileName(stem, ext);
    RastersOutputs(f.outputFolder, names, CommonStem(f, midDt, Some(stem + "." + ext)), data);
  }

  /** Without an original file name or a mid time, no raster is written for a non-empty list. */
  lemma CommonWriteWithoutNames(f: Formatter, data: Dataset, names: seq<string>)
    requires names != []
    ensures Rasters(f.outputFolder, names, CommonStem(f, None, None), data) == Written([], data, Some(NoMidTime))
  {
  }

  // ---------------------------------------------------------------------------
  // The regridder's GeoTIFF formatter
  // ---------------------------------------------------------------------------

  /**
   * The regridder's `GeotiffFormatter.write`: the stem is the name of the mid time, as
   * the regridder's base formatter gives it (`nameOf`); the start and end times play no
   * part.
   */
  method RegridWrite(folder: string, nameOf: DateTime -> string, startDt: DateTime, midDt: DateTime,
                     endDt: DateTime, data: Dataset, variableNames: seq<string>)
    returns (w: Written)
    ensures w == Rasters(folder, variableNames, Success(nameOf(midDt)), data)
  {
    w := WriteRasters(folder, variableNames, Success(nameOf(midDt)), data);
  }

  /**
   * The regridder's formatter writes the raster of variable `v` to
   * `nameOf(mid) + "-" + v + ".tif"` in the output folder, for every variable of the
   * dataset, in order.
   */
  lemma RegridWritePaths(folder: string, nameOf: DateTime -> string, midDt: DateTime, data: Dataset,
                         names: seq<string>)
    requires forall v :: v in names ==> v in data.vars
    ensures var w := Rasters(folder, names, Success(nameOf(midDt)), data);
      && w.failure.None? && |w.outputs| == |names|
      && forall i :: 0 <= i < |names| ==>
           w.outputs[i] == RasterFile(PathJoin(folder, nameOf(midDt) + "-" + names[i] + ".tif"),
                                      names[i], RasterAttrs(data.vars[names[i]]))
  {
    RastersSucceed(folder, names, Success(nameOf(midDt)), data);
    RastersOutputs(folder, names, Success(nameOf(midDt)), data);
  }
}
