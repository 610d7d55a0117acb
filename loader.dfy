/** Loading a pre-processed training file: the scaling catalog first, then one
    training sample per process group. The file is an in-memory container
    value; leaving the program (`sys.exit()`) becomes an `Exited` outcome and
    an escaping exception a `Raised` outcome. */
module Loader {
  import opened Common
  import opened Scaling
  import opened Records
  import opened Samples

  /** The `scaling` group; its `scaling_data` table may be absent. */
  datatype ScalingGroup = ScalingGroup(scalingData: Option<seq<ScalingRecord>>)

  /** One sub-group of `samples`: its name, its `training_label` attribute and
      its `train_features` record table, each of the last two possibly absent. */
  datatype ProcessGroup = ProcessGroup(name: string, trainingLabel: Option<int>, trainFeatures: Option<StructTable>)

  /** The top level of an input file; `samples` lists the sub-groups in the
      container's enumeration order. */
  datatype InputFile = InputFile(scaling: Option<ScalingGroup>, samples: Option<seq<ProcessGroup>>)

  /** Why the program leaves without a result. */
  datatype ExitReason = InputNotFound | ScalingGroupMissing | SamplesGroupMissing

  datatype LoadOutcome =
    | Loaded(samples: seq<Sample>, scaler: DataScaler)
    | Exited(reason: ExitReason)
    | Raised(error: Error)

  /** The bookkeeping column that is never a training feature. */
  const IgnoredFeatures: seq<string> := ["eventweight"]

  /** The arguments a sample is constructed from. */
  datatype SampleSpec = SampleSpec(name: string, classLabel: int, data: NDArray)

  predicate Describes(s: Sample, spec: SampleSpec) {
    s.Name() == spec.name && s.ClassLabel() == spec.classLabel && s.Data() == spec.data
  }

  predicate HasScalingTable(file: Option<InputFile>) {
    file.Some? && file.value.scaling.Some? && file.value.scaling.value.scalingData.Some?
  }

  function ScalingTable(file: Option<InputFile>): seq<ScalingRecord>
    requires HasScalingTable(file)
  {
    file.value.scaling.value.scalingData.value
  }

  /** One process group's sample, or the exception building it raises: the
      label attribute is read first, then the feature table, whose fields are
      selected by the feature list and converted, and last the sample's own
      checks. */
  function SampleFor(g: ProcessGroup, featureList: seq<string>): (r: Result<SampleSpec, Error>)
    ensures g.trainingLabel.None? ==> r == Err(KeyError("training_label"))
    ensures g.trainingLabel.Some? && g.trainFeatures.None? ==> r == Err(KeyError("train_features"))
    ensures g.trainingLabel.Some? && g.trainFeatures.Some? && SelectFields(g.trainFeatures.value, featureList).Err? ==>
              r == Err(SelectFields(g.trainFeatures.value, featureList).error)
    ensures r.Ok? <==> g.trainingLabel.Some? && g.trainingLabel.value >= 0 && g.trainFeatures.Some?
                       && SelectFields(g.trainFeatures.value, featureList).Ok?
    ensures g.trainingLabel.Some? && g.trainingLabel.value < 0 && g.trainFeatures.Some?
            && SelectFields(g.trainFeatures.value, featureList).Ok? ==>
              r == Err(InvalidLabel(g.name, g.trainingLabel.value))
    ensures r.Err? ==> !r.error.DTypeMismatch?
    ensures r.Ok? ==>
              && r.value.name == g.name
              && g.trainingLabel == Some(r.value.classLabel)
              && r.value.data.dtype == Float64
              && |r.value.data.rows| == |g.trainFeatures.value.rows|
              && (forall i :: 0 <= i < |r.value.data.rows| ==> |r.value.data.rows[i]| == |featureList|)
              && forall i, j :: 0 <= i < |r.value.data.rows| && 0 <= j < |featureList| ==>
                   featureList[j] in g.trainFeatures.value.rows[i]
                   && r.value.data.rows[i][j] == g.trainFeatures.value.rows[i][featureList[j]]
  {
    if g.trainingLabel.None? then Err(KeyError("training_label"))
    else if g.trainFeatures.None? then Err(KeyError("train_features"))
    else
      match SelectFields(g.trainFeatures.value, featureList)
      case Err(e) => Err(e)
      case Ok(selected) =>
        assert forall j :: 0 <= j < |featureList| ==> featureList[j] in featureList;
        var data := Floatify(selected, featureList);
        match SampleError(g.name, g.trainingLabel.value, data)
        case Some(e) => Err(e)
        case None => Ok(SampleSpec(g.name, g.trainingLabel.value, data))
  }

  /** A group whose label and feature table are present, whose label is not
      negative and whose table has the feature list's fields yields the
      conversion of exactly those fields. */
  lemma SampleForValue(g: ProcessGroup, featureList: seq<string>)
    requires g.trainingLabel.Some? && g.trainingLabel.value >= 0 && g.trainFeatures.Some?
    requires SelectFields(g.trainFeatures.value, featureList).Ok?
    ensures forall f :: f in featureList ==> f in SelectFields(g.trainFeatures.value, featureList).value.fields
    ensures SampleFor(g, featureList)
            == Ok(SampleSpec(g.name, g.trainingLabel.value,
                             Floatify(SelectFields(g.trainFeatures.value, featureList).value, featureList)))
  {
  }

  /** The samples of all process groups, in order, or the first exception. */
  function BuildSamples(groups: seq<ProcessGroup>, featureList: seq<string>): Result<seq<SampleSpec>, Error>
    decreases |groups|
  {
    if groups == [] then Ok([])
    else
      match BuildSamples(groups[..|groups| - 1], featureList)
      case Err(e) => Err(e)
      case Ok(specs) =>
        match SampleFor(groups[|groups| - 1], featureList)
        case Err(e) => Err(e)
        case Ok(s) => Ok(specs + [s])
  }

  /** The body of the per-group loop: read the label, read the feature table,
      select the feature list's fields, convert them and construct the sample.
      It fails exactly when `SampleFor` does, with the same exception, and
      otherwise builds the sample `SampleFor` describes. */
  method LoadSample(g: ProcessGroup, featureList: seq<string>) returns (r: Result<Sample, Error>)
    ensures r.Ok? <==> SampleFor(g, featureList).Ok?
    ensures r.Err? ==> SampleFor(g, featureList) == Err(r.error)
    ensures r.Ok? ==> r.value.Valid() && Describes(r.value, SampleFor(g, featureList).value)
  {
    if g.trainingLabel.None? {
      return Err(KeyError("training_label"));
    }
    var classLabel := g.trainingLabel.value;
    if g.trainFeatures.None? {
      return Err(KeyError("train_features"));
    }
    var selected := SelectFields(g.trainFeatures.value, featureList);
    if selected.Err? {
      return Err(selected.error);
    }
    var data := Floatify(selected.value, featureList);
    r := Sample.Create(g.name, classLabel, data);
  }

  /** `load_input_file`. */
  method LoadInputFile(file: Option<InputFile>) returns (outcome: LoadOutcome)
    ensures file.None? ==> outcome == Exited(InputNotFound)
    ensures file.Some? && file.value.scaling.None? ==> outcome == Exited(ScalingGroupMissing)
    ensures file.Some? && file.value.scaling.Some? && file.value.scaling.value.scalingData.None? ==>
              outcome == Raised(KeyError("scaling_data"))
    ensures HasScalingTable(file) && file.value.samples.None? ==> outcome == Exited(SamplesGroupMissing)
    ensures HasScalingTable(file) && file.value.samples.Some? ==>
              var featureList := Filter(Names(ScalingTable(file)), IgnoredFeatures);
              match BuildSamples(file.value.samples.value, featureList)
              case Err(e) => outcome == Raised(e)
              case Ok(specs) =>
                && outcome.Loaded?
                && outcome.scaler.BuiltFrom(ScalingTable(file), IgnoredFeatures)
                && |outcome.samples| == |specs|
                && forall k :: 0 <= k < |specs| ==> outcome.samples[k].Valid() && Describes(outcome.samples[k], specs[k])
  {
    if file.None? {
      return Exited(InputNotFound);
    }
    var input := file.value;
    if input.scaling.None? {
      return Exited(ScalingGroupMissing);
    }
    if input.scaling.value.scalingData.None? {
      return Raised(KeyError("scaling_data"));
    }
    var scaler := new DataScaler(input.scaling.value.scalingData.value, IgnoredFeatures);
    if input.samples.None? {
      return Exited(SamplesGroupMissing);
    }
    var featureList := scaler.FeatureList();
    var built := LoadSamples(input.samples.value, featureList);
    match built
    case Err(e) =>
      return Raised(e);
    case Ok(samples) =>
      return Loaded(samples, scaler);
  }

  /** The loop over the process groups, in enumeration order: it stops at the
      first group whose sample cannot be built, with that group's exception,
      and otherwise returns one sample per group, as `BuildSamples` says. */
  method LoadSamples(groups: seq<ProcessGroup>, featureList: seq<string>) returns (r: Result<seq<Sample>, Error>)
    ensures BuildSamples(groups, featureList).Err? <==> r.Err?
    ensures r.Err? ==> BuildSamples(groups, featureList) == Err(r.error)
    ensures r.Ok? ==>
              && |r.value| == |BuildSamples(groups, featureList).value|
              && forall k :: 0 <= k < |r.value| ==>
                   r.value[k].Valid() && Describes(r.value[k], BuildSamples(groups, featureList).value[k])
  {
    var samples: seq<Sample> := [];
    ghost var specs: seq<SampleSpec> := [];
    var i := 0;
    while i < |groups|
      invariant 0 <= i <= |groups|
      invariant BuildSamples(groups[..i], featureList) == Ok(specs)
      invariant |samples| == |specs|
      invariant forall k :: 0 <= k < |specs| ==> samples[k].Valid() && Describes(samples[k], specs[k])
    {
      var g := groups[i];
      assert groups[..i + 1][..i] == groups[..i];
      var created := LoadSample(g, featureList);
      if created.Err? {
        BuildSamplesErrorPersists(groups, i + 1, featureList);
        assert groups[..|groups|] == groups;
        return Err(created.error);
      }
      samples := samples + [created.value];
      specs := specs + [SampleFor(g, featureList).value];
      i := i + 1;
    }
    assert groups[..i] == groups;
    return Ok(samples);
  }

  // ---------------------------------------------------------------------------
  // Properties of the sample loop.
  // ---------------------------------------------------------------------------

  /** Once a prefix of the groups fails, the whole load fails the same way. */
  lemma {:induction false} BuildSamplesErrorPersists(groups: seq<ProcessGroup>, k: int, featureList: seq<string>)
    requires 0 <= k <= |groups|
    requires BuildSamples(groups[..k], featureList).Err?
    ensures BuildSamples(groups, featureList) == BuildSamples(groups[..k], featureList)
    decreases |groups| - k
  {
    if k < |groups| {
      var n := |groups| - 1;
      assert groups[..k] == groups[..n][..k];
      BuildSamplesErrorPersists(groups[..n], k, featureList);
    } else {
      assert groups[..k] == groups;
    }
  }

  /** The load succeeds exactly when every group yields a sample, and then it
      holds one sample per group, in enumeration order. */
  lemma {:induction false} BuildSamplesOk(groups: seq<ProcessGroup>, featureList: seq<string>)
    ensures BuildSamples(groups, featureList).Ok? <==>
              forall i :: 0 <= i < |groups| ==> SampleFor(groups[i], featureList).Ok?
    ensures BuildSamples(groups, featureList).Ok? ==>
              |BuildSamples(groups, featureList).value| == |groups|
              && forall i :: 0 <= i < |groups| ==>
                   BuildSamples(groups, featureList).value[i] == SampleFor(groups[i], featureList).value
    decreases |groups|
  {
    if groups != [] {
      var n := |groups| - 1;
      BuildSamplesOk(groups[..n], featureList);
      assert forall i :: 0 <= i < n ==> groups[..n][i] == groups[i];
    }
  }

  /** A failed load reports the exception of the first failing group, and
      every group before it was fine: there is no partial result. */
  lemma {:induction false} BuildSamplesFirstError(groups: seq<ProcessGroup>, featureList: seq<string>)
    requires BuildSamples(groups, featureList).Err?
    ensures exists i :: 0 <= i < |groups|
              && SampleFor(groups[i], featureList) == Err(BuildSamples(groups, featureList).error)
              && forall k :: 0 <= k < i ==> SampleFor(groups[k], featureList).Ok?
    decreases |groups|
  {
    var n := |groups| - 1;
    var pre := groups[..n];
    assert forall k :: 0 <= k < n ==> pre[k] == groups[k];
    if BuildSamples(pre, featureList).Err? {
      BuildSamplesFirstError(pre, featureList);
      var i :| 0 <= i < |pre|
                && SampleFor(pre[i], featureList) == Err(BuildSamples(pre, featureList).error)
                && forall k :: 0 <= k < i ==> SampleFor(pre[k], featureList).Ok?;
      assert SampleFor(groups[i], featureList) == Err(BuildSamples(groups, featureList).error);
    } else {
      BuildSamplesOk(pre, featureList);
      assert SampleFor(groups[n], featureList) == Err(BuildSamples(groups, featureList).error);
    }
  }

  /** The element-type check of a sample never fails during a load, because
      every matrix comes out of `Floatify`. */
  lemma {:induction false} NoDTypeMismatchOnLoad(groups: seq<ProcessGroup>, featureList: seq<string>)
    requires BuildSamples(groups, featureList).Err?
    ensures !BuildSamples(groups, featureList).error.DTypeMismatch?
  {
    BuildSamplesFirstError(groups, featureList);
  }

  // ---------------------------------------------------------------------------
  // A worked example.
  // ---------------------------------------------------------------------------

  /** A file whose scaling table lists `pt`, `eta` and `eventweight`, with one
      process group `signal` labelled 1 holding three events. */
  function ExampleFile(): Option<InputFile> {
    var table := [ScalingRecord("pt", 50.0, 10.0, 100.0),
                  ScalingRecord("eta", 0.0, 1.0, 1.0),
                  ScalingRecord("eventweight", 1.0, 1.0, 1.0)];
    var events: StructTable := RawTable(["pt", "eta", "eventweight"],
                                        [map["pt" := 40.0, "eta" := 0.5, "eventweight" := 1.0],
                                         map["pt" := 60.0, "eta" := -1.5, "eventweight" := 0.5],
                                         map["pt" := 25.0, "eta" := 2.0, "eventweight" := 2.0]]);
    Some(InputFile(Some(ScalingGroup(Some(table))),
                   Some([ProcessGroup("signal", Some(1), Some(events))])))
  }

  lemma ExampleFeatureList()
    ensures HasScalingTable(ExampleFile())
    ensures Names(ScalingTable(ExampleFile())) == ["pt", "eta", "eventweight"]
    ensures Filter(Names(ScalingTable(ExampleFile())), IgnoredFeatures) == ["pt", "eta"]
  {
    var names := Names(ScalingTable(ExampleFile()));
    assert names == ["pt", "eta", "eventweight"];
    assert ["pt"][..0] == [] && ["eta"][..0] == [] && ["eventweight"][..0] == [];
    FilterAppend(["pt"], ["eta"], IgnoredFeatures);
    FilterAppend(["pt", "eta"], ["eventweight"], IgnoredFeatures);
    assert names == ["pt", "eta"] + ["eventweight"];
  }

  /** Selecting `pt` and `eta` from the example's events keeps their values. */
  lemma ExampleSelection(events: StructTable)
    requires events == ExampleFile().value.samples.value[0].trainFeatures.value
    ensures SelectFields(events, ["pt", "eta"]).Ok?
    ensures SelectFields(events, ["pt", "eta"]).value.fields == ["pt", "eta"]
    ensures |SelectFields(events, ["pt", "eta"]).value.rows| == 3
    ensures forall i :: 0 <= i < 3 ==>
              "pt" in SelectFields(events, ["pt", "eta"]).value.rows[i]
              && "eta" in SelectFields(events, ["pt", "eta"]).value.rows[i]
    ensures var rows := SelectFields(events, ["pt", "eta"]).value.rows;
            && rows[0]["pt"] == 40.0 && rows[0]["eta"] == 0.5
            && rows[1]["pt"] == 60.0 && rows[1]["eta"] == -1.5
            && rows[2]["pt"] == 25.0 && rows[2]["eta"] == 2.0
  {
  }

  /** Converting rows that hold these `pt` and `eta` values gives the
      expected 3 x 2 matrix. */
  lemma ExampleRows(sel: StructTable)
    requires sel.fields == ["pt", "eta"] && |sel.rows| == 3
    requires forall i :: 0 <= i < 3 ==> "pt" in sel.rows[i] && "eta" in sel.rows[i]
    requires && sel.rows[0]["pt"] == 40.0 && sel.rows[0]["eta"] == 0.5
             && sel.rows[1]["pt"] == 60.0 && sel.rows[1]["eta"] == -1.5
             && sel.rows[2]["pt"] == 25.0 && sel.rows[2]["eta"] == 2.0
    ensures forall f :: f in ["pt", "eta"] ==> f in sel.fields
    ensures Floatify(sel, ["pt", "eta"]) == NDArray(Float64, [[40.0, 0.5], [60.0, -1.5], [25.0, 2.0]])
  {
    var names := ["pt", "eta"];
    assert names[0] == "pt" && names[1] == "eta";
    var data := Floatify(sel, names);
    assert |data.rows[0]| == 2 && |data.rows[1]| == 2 && |data.rows[2]| == 2;
    assert data.rows[0] == [40.0, 0.5];
    assert data.rows[1] == [60.0, -1.5];
    assert data.rows[2] == [25.0, 2.0];
  }

  /** The example's one group yields the sample `signal` with label 1 and
      the events' `pt` and `eta` values as its rows. */
  lemma ExampleGroupSample()
    ensures ExampleFile().value.samples.Some? && |ExampleFile().value.samples.value| == 1
    ensures SampleFor(ExampleFile().value.samples.value[0], ["pt", "eta"])
            == Ok(SampleSpec("signal", 1, NDArray(Float64, [[40.0, 0.5], [60.0, -1.5], [25.0, 2.0]])))
  {
    var g := ExampleFile().value.samples.value[0];
    ExampleSelection(g.trainFeatures.value);
    ExampleRows(SelectFields(g.trainFeatures.value, ["pt", "eta"]).value);
    SampleForValue(g, ["pt", "eta"]);
  }

  lemma ExampleSamples()
    ensures ExampleFile().value.samples.Some?
    ensures BuildSamples(ExampleFile().value.samples.value, ["pt", "eta"])
            == Ok([SampleSpec("signal", 1, NDArray(Float64, [[40.0, 0.5], [60.0, -1.5], [25.0, 2.0]]))])
  {
    ExampleGroupSample();
    var groups := ExampleFile().value.samples.value;
    var spec := SampleFor(groups[0], ["pt", "eta"]).value;
    assert groups[..0] == [];
    assert BuildSamples(groups, ["pt", "eta"]) == Ok([] + [spec]);
    assert [] + [spec] == [spec];
  }

  /** Loading the example trains on `pt` and `eta` only and yields one sample,
      `signal`, with label 1 and a 3 x 2 matrix whose rows are the events'
      `pt` and `eta` values. */
  method LoadExample() returns (outcome: LoadOutcome)
    ensures outcome.Loaded?
    ensures outcome.scaler.featureList == ["pt", "eta"]
    ensures outcome.scaler.rawFeatureList == ["pt", "eta", "eventweight"]
    ensures |outcome.samples| == 1
    ensures outcome.samples[0].Name() == "signal" && outcome.samples[0].ClassLabel() == 1
    ensures outcome.samples[0].Data() == NDArray(Float64, [[40.0, 0.5], [60.0, -1.5], [25.0, 2.0]])
  {
    ExampleFeatureList();
    ExampleSamples();
    outcome := LoadInputFile(ExampleFile());
  }
}
