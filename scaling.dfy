/** The scaling catalog (`DataScaler`): the per-feature normalisation
    parameters read from the scaling table, the table's full feature list and
    the trainable feature list with the ignored names taken out. */
module Scaling {
  import opened Common

  /** One row of the scaling table. */
  datatype ScalingRecord = ScalingRecord(name: string, mean: real, scale: real, variance: real)

  /** The `{mean, scale, var}` triad stored per feature. */
  datatype Params = Params(mean: real, scale: real, variance: real)

  function ParamsOf(x: ScalingRecord): Params {
    Params(x.mean, x.scale, x.variance)
  }

  // ---------------------------------------------------------------------------
  // Specification functions. Each is defined from the end of its sequence, the
  // order in which the catalog is built.
  // ---------------------------------------------------------------------------

  /** The name column of a scaling table, in table order. */
  function Names(t: seq<ScalingRecord>): seq<string> {
    seq(|t|, i requires 0 <= i < |t| => t[i].name)
  }

  /** `names` without the names in `ignore`, relative order kept. */
  function Filter(names: seq<string>, ignore: seq<string>): seq<string>
    decreases |names|
  {
    if names == [] then []
    else
      var last := names[|names| - 1];
      Filter(names[..|names| - 1], ignore) + (if last in ignore then [] else [last])
  }

  /** The positions of `names` that `Filter` keeps, in increasing order. */
  function KeptPositions(names: seq<string>, ignore: seq<string>): seq<int>
    decreases |names|
  {
    if names == [] then []
    else
      var n := |names| - 1;
      KeptPositions(names[..n], ignore) + (if names[n] in ignore then [] else [n])
  }

  /** The records of a scaling table whose name is not ignored, in table order. */
  function Retained(t: seq<ScalingRecord>, ignore: seq<string>): seq<ScalingRecord>
    decreases |t|
  {
    if t == [] then []
    else
      var last := t[|t| - 1];
      Retained(t[..|t| - 1], ignore) + (if last.name in ignore then [] else [last])
  }

  /** Dictionary insertion of every record of `rs` in order; a later record
      overwrites an earlier one with the same name. */
  function Store(d: map<string, Params>, rs: seq<ScalingRecord>): map<string, Params>
    decreases |rs|
  {
    if rs == [] then d
    else
      var last := rs[|rs| - 1];
      Store(d, rs[..|rs| - 1])[last.name := ParamsOf(last)]
  }

  function Means(rs: seq<ScalingRecord>): seq<real> {
    seq(|rs|, i requires 0 <= i < |rs| => rs[i].mean)
  }

  function Scales(rs: seq<ScalingRecord>): seq<real> {
    seq(|rs|, i requires 0 <= i < |rs| => rs[i].scale)
  }

  function Variances(rs: seq<ScalingRecord>): seq<real> {
    seq(|rs|, i requires 0 <= i < |rs| => rs[i].variance)
  }

  // ---------------------------------------------------------------------------
  // The catalog object.
  // ---------------------------------------------------------------------------

  class DataScaler {
    var rawFeatureList: seq<string>
    var featureList: seq<string>
    var scalingDict: map<string, Params>
    var mean: seq<real>
    var scale: seq<real>
    var variance: seq<real>

    /** The state a freshly constructed scaler has for table `t` and ignore
        list `ignore`. */
    ghost predicate BuiltFrom(t: seq<ScalingRecord>, ignore: seq<string>)
      reads this
    {
      var rs := Retained(t, ignore);
      && rawFeatureList == Names(t)
      && featureList == Filter(Names(t), ignore)
      && scalingDict == Store(map[], rs)
      && mean == Means(rs)
      && scale == Scales(rs)
      && variance == Variances(rs)
    }

    /** Starts from empty lists and an empty dictionary, then loads the table. */
    constructor (scalingDataset: seq<ScalingRecord>, ignoreFeatures: seq<string>)
      ensures BuiltFrom(scalingDataset, ignoreFeatures)
    {
      rawFeatureList := [];
      featureList := [];
      scalingDict := map[];
      mean := [];
      scale := [];
      variance := [];
      new;
      Load(scalingDataset, ignoreFeatures);
    }

    /** Replaces both feature lists, then walks the table in order, inserting
        each non-ignored triad into the dictionary and appending its values to
        the three vectors. */
    method Load(scalingDataset: seq<ScalingRecord>, ignoreFeatures: seq<string>)
      modifies this
      ensures rawFeatureList == Names(scalingDataset)
      ensures featureList == Filter(rawFeatureList, ignoreFeatures)
      ensures scalingDict == Store(old(scalingDict), Retained(scalingDataset, ignoreFeatures))
      ensures mean == old(mean) + Means(Retained(scalingDataset, ignoreFeatures))
      ensures scale == old(scale) + Scales(Retained(scalingDataset, ignoreFeatures))
      ensures variance == old(variance) + Variances(Retained(scalingDataset, ignoreFeatures))
    {
      var i := 0;
      ghost var dict0, mean0, scale0, variance0 := scalingDict, mean, scale, variance;
      while i < |scalingDataset|
        invariant 0 <= i <= |scalingDataset|
        invariant scalingDict == Store(dict0, Retained(scalingDataset[..i], ignoreFeatures))
        invariant mean == mean0 + Means(Retained(scalingDataset[..i], ignoreFeatures))
        invariant scale == scale0 + Scales(Retained(scalingDataset[..i], ignoreFeatures))
        invariant variance == variance0 + Variances(Retained(scalingDataset[..i], ignoreFeatures))
      {
        var x := scalingDataset[i];
        LoadStep(scalingDataset, i, ignoreFeatures, dict0, mean0, scale0, variance0);
        if x.name !in ignoreFeatures {
          scalingDict := scalingDict[x.name := ParamsOf(x)];
          mean := mean + [x.mean];
          scale := scale + [x.scale];
          variance := variance + [x.variance];
        }
        i := i + 1;
      }
      assert scalingDataset[..i] == scalingDataset;
      rawFeatureList := Names(scalingDataset);
      featureList := Filter(rawFeatureList, ignoreFeatures);
    }

    function RawFeatureList(): seq<string>
      reads this
    {
      rawFeatureList
    }

    function FeatureList(): seq<string>
      reads this
    {
      featureList
    }

    function ScalingDict(): map<string, Params>
      reads this
    {
      scalingDict
    }

    function Mean(): seq<real>
      reads this
    {
      mean
    }

    function Scale(): seq<real>
      reads this
    {
      scale
    }

    function Var(): seq<real>
      reads this
    {
      variance
    }

    /** The stored triad of `feature`; a lookup of a name the dictionary does
        not hold raises. */
    function GetParams(feature: string): (r: Result<Params, Error>)
      reads this
      ensures r.Ok? <==> feature in scalingDict
      ensures r.Ok? ==> r.value == scalingDict[feature]
      ensures r.Err? ==> r.error == UnknownFeature(feature)
    {
      if feature in scalingDict then Ok(scalingDict[feature]) else Err(UnknownFeature(feature))
    }
  }

  // ---------------------------------------------------------------------------
  // Properties of the specification functions.
  // ---------------------------------------------------------------------------

  lemma RetainedSnoc(t: seq<ScalingRecord>, i: int, ignore: seq<string>)
    requires 0 <= i < |t|
    ensures Retained(t[..i + 1], ignore)
            == Retained(t[..i], ignore) + (if t[i].name in ignore then [] else [t[i]])
  {
    assert t[..i + 1][..i] == t[..i];
  }

  lemma ColumnsSnoc(m: seq<real>, s: seq<real>, v: seq<real>, rs: seq<ScalingRecord>, x: ScalingRecord)
    ensures m + Means(rs + [x]) == m + Means(rs) + [x.mean]
    ensures s + Scales(rs + [x]) == s + Scales(rs) + [x.scale]
    ensures v + Variances(rs + [x]) == v + Variances(rs) + [x.variance]
  {
  }

  lemma StoreSnoc(d: map<string, Params>, rs: seq<ScalingRecord>, x: ScalingRecord)
    ensures Store(d, rs + [x]) == Store(d, rs)[x.name := ParamsOf(x)]
  {
  }

  /** One step of the loop in `Load`: record i changes the dictionary and the
      vectors exactly as the loop body does, and leaves them alone when its
      name is ignored. */
  lemma LoadStep(t: seq<ScalingRecord>, i: int, ignore: seq<string>,
                 d: map<string, Params>, m: seq<real>, s: seq<real>, v: seq<real>)
    requires 0 <= i < |t|
    ensures var now, next := Retained(t[..i], ignore), Retained(t[..i + 1], ignore);
            if t[i].name in ignore then next == now
            else
              && Store(d, next) == Store(d, now)[t[i].name := ParamsOf(t[i])]
              && m + Means(next) == m + Means(now) + [t[i].mean]
              && s + Scales(next) == s + Scales(now) + [t[i].scale]
              && v + Variances(next) == v + Variances(now) + [t[i].variance]
  {
    RetainedSnoc(t, i, ignore);
    if t[i].name !in ignore {
      StoreSnoc(d, Retained(t[..i], ignore), t[i]);
      ColumnsSnoc(m, s, v, Retained(t[..i], ignore), t[i]);
    }
  }

  /** Filtering distributes over concatenation, so it keeps relative order. */
  lemma {:induction false} FilterAppend(a: seq<string>, b: seq<string>, ignore: seq<string>)
    ensures Filter(a + b, ignore) == Filter(a, ignore) + Filter(b, ignore)
    decreases |b|
  {
    if b == [] {
      assert a + b == a;
    } else {
      var n := |b| - 1;
      assert (a + b)[..|a + b| - 1] == a + b[..n];
      FilterAppend(a, b[..n], ignore);
    }
  }

  /** A name survives filtering exactly when it occurs and is not ignored. */
  lemma {:induction false} FilterMembers(names: seq<string>, ignore: seq<string>)
    ensures forall x :: x in Filter(names, ignore) <==> x in names && x !in ignore
    decreases |names|
  {
    if names != [] {
      var n := |names| - 1;
      FilterMembers(names[..n], ignore);
      assert names == names[..n] + [names[n]];
    }
  }

  /** `Filter` keeps exactly the positions whose name is not ignored, in
      increasing order: the filtered list is that subsequence of the input. */
  lemma {:induction false} FilterKeepsPositions(names: seq<string>, ignore: seq<string>)
    ensures |KeptPositions(names, ignore)| == |Filter(names, ignore)|
    ensures forall i :: 0 <= i < |KeptPositions(names, ignore)| ==>
              0 <= KeptPositions(names, ignore)[i] < |names|
              && Filter(names, ignore)[i] == names[KeptPositions(names, ignore)[i]]
    ensures forall i, j :: 0 <= i < j < |KeptPositions(names, ignore)| ==>
              KeptPositions(names, ignore)[i] < KeptPositions(names, ignore)[j]
    ensures forall k :: 0 <= k < |names| ==> (k in KeptPositions(names, ignore) <==> names[k] !in ignore)
    decreases |names|
  {
    if names != [] {
      var n := |names| - 1;
      var pre := names[..n];
      FilterKeepsPositions(pre, ignore);
      var p := KeptPositions(pre, ignore);
      assert forall k :: 0 <= k < n ==> pre[k] == names[k];
      assert forall i :: 0 <= i < |p| ==> p[i] < n;
    }
  }

  lemma {:induction false} FilterUnique(names: seq<string>, ignore: seq<string>)
    requires Unique(names)
    ensures Unique(Filter(names, ignore))
    decreases |names|
  {
    if names != [] {
      var n := |names| - 1;
      var pre := names[..n];
      assert Unique(pre);
      FilterUnique(pre, ignore);
      FilterMembers(pre, ignore);
      assert names[n] !in pre;
    }
  }

  /** The name column of the retained records is the filtered name column: the
      vectors built from `Retained` line up with the feature list. */
  lemma {:induction false} NamesOfRetained(t: seq<ScalingRecord>, ignore: seq<string>)
    ensures Names(Retained(t, ignore)) == Filter(Names(t), ignore)
    decreases |t|
  {
    if t != [] {
      var n := |t| - 1;
      NamesOfRetained(t[..n], ignore);
      assert Names(t)[..n] == Names(t[..n]);
      var rs := Retained(t[..n], ignore);
      if t[n].name in ignore {
        assert Retained(t, ignore) == rs;
      } else {
        assert Names(rs + [t[n]]) == Names(rs) + [t[n].name];
      }
    }
  }

  /** The i-th retained record is the table record at the i-th kept position. */
  lemma {:induction false} RetainedAtKept(t: seq<ScalingRecord>, ignore: seq<string>)
    ensures |Retained(t, ignore)| == |KeptPositions(Names(t), ignore)|
    ensures forall i :: 0 <= i < |Retained(t, ignore)| ==>
              0 <= KeptPositions(Names(t), ignore)[i] < |t|
              && Retained(t, ignore)[i] == t[KeptPositions(Names(t), ignore)[i]]
    decreases |t|
  {
    if t != [] {
      var n := |t| - 1;
      RetainedAtKept(t[..n], ignore);
      assert Names(t)[..n] == Names(t[..n]);
    }
  }

  lemma {:induction false} StoreKeys(d: map<string, Params>, rs: seq<ScalingRecord>)
    ensures forall k :: k in Store(d, rs) <==> k in d || k in Names(rs)
    decreases |rs|
  {
    if rs != [] {
      var n := |rs| - 1;
      StoreKeys(d, rs[..n]);
      assert Names(rs) == Names(rs[..n]) + [rs[n].name];
    }
  }

  /** With distinct names, every record's triad is stored under its name. */
  lemma {:induction false} StoreAt(d: map<string, Params>, rs: seq<ScalingRecord>, i: int)
    requires Unique(Names(rs))
    requires 0 <= i < |rs|
    ensures rs[i].name in Store(d, rs) && Store(d, rs)[rs[i].name] == ParamsOf(rs[i])
    decreases |rs|
  {
    var n := |rs| - 1;
    if i < n {
      assert Names(rs[..n]) == Names(rs)[..n];
      StoreAt(d, rs[..n], i);
      assert Names(rs)[i] != Names(rs)[n];
    }
  }

  /** With distinct names, the dictionary has one entry per record. */
  lemma {:induction false} StoreSize(rs: seq<ScalingRecord>)
    requires Unique(Names(rs))
    ensures |Store(map[], rs)| == |rs|
    decreases |rs|
  {
    if rs != [] {
      var n := |rs| - 1;
      assert Names(rs[..n]) == Names(rs)[..n];
      var prev := Store(map[], rs[..n]);
      StoreSize(rs[..n]);
      StoreKeys(map[], rs[..n]);
      forall k | 0 <= k < n ensures Names(rs[..n])[k] != rs[n].name {
        assert Names(rs)[k] != Names(rs)[n];
      }
      assert rs[n].name !in prev;
      assert Store(map[], rs) == prev[rs[n].name := ParamsOf(rs[n])];
    }
  }

  /** Python dictionary semantics: a non-ignored record's triad is what the
      dictionary holds under its name unless a later record of the table has
      the same name. */
  lemma {:induction false} LastRecordWins(t: seq<ScalingRecord>, ignore: seq<string>, j: int)
    requires 0 <= j < |t| && t[j].name !in ignore
    requires forall k :: j < k < |t| ==> t[k].name != t[j].name
    ensures t[j].name in Store(map[], Retained(t, ignore))
    ensures Store(map[], Retained(t, ignore))[t[j].name] == ParamsOf(t[j])
    decreases |t|
  {
    var n := |t| - 1;
    var rs := Retained(t[..n], ignore);
    if t[n].name !in ignore {
      assert Retained(t, ignore) == rs + [t[n]];
      StoreSnoc(map[], rs, t[n]);
    } else {
      assert Retained(t, ignore) == rs;
    }
    if j < n {
      assert forall k :: j < k < n ==> t[..n][k] == t[k];
      LastRecordWins(t[..n], ignore, j);
      assert t[n].name != t[j].name;
    }
  }

  // ---------------------------------------------------------------------------
  // Properties of a constructed catalog.
  // ---------------------------------------------------------------------------

  /** The feature list is the raw list without the ignored names, and an
      ignored name that the table holds stays in the raw list. */
  lemma FeatureListFiltered(s: DataScaler, t: seq<ScalingRecord>, ignore: seq<string>)
    requires s.BuiltFrom(t, ignore)
    ensures |s.rawFeatureList| == |t|
    ensures forall f :: f in s.featureList <==> f in s.rawFeatureList && f !in ignore
    ensures forall f :: f in ignore && f in Names(t) ==> f in s.rawFeatureList && f !in s.featureList
  {
    FilterMembers(Names(t), ignore);
  }

  /** The three vectors hold one entry per feature-list name, and position i of
      every one of them comes from the table record at the i-th kept position. */
  lemma VectorsAligned(s: DataScaler, t: seq<ScalingRecord>, ignore: seq<string>)
    requires s.BuiltFrom(t, ignore)
    ensures |s.mean| == |s.featureList| && |s.scale| == |s.featureList| && |s.variance| == |s.featureList|
    ensures |KeptPositions(Names(t), ignore)| == |s.featureList|
    ensures forall i :: 0 <= i < |s.featureList| ==>
              0 <= KeptPositions(Names(t), ignore)[i] < |t|
              && t[KeptPositions(Names(t), ignore)[i]]
                 == ScalingRecord(s.featureList[i], s.mean[i], s.scale[i], s.variance[i])
  {
    NamesOfRetained(t, ignore);
    RetainedAtKept(t, ignore);
  }

  /** The dictionary's keys are exactly the feature list's names, so no ignored
      name is a key; a record not overwritten later is stored under its name. */
  lemma DictKeys(s: DataScaler, t: seq<ScalingRecord>, ignore: seq<string>)
    requires s.BuiltFrom(t, ignore)
    ensures forall f :: f in s.scalingDict <==> f in s.featureList
    ensures forall f :: f in ignore ==> f !in s.scalingDict
    ensures forall j :: 0 <= j < |t| && t[j].name !in ignore && (forall k :: j < k < |t| ==> t[k].name != t[j].name)
              ==> t[j].name in s.scalingDict && s.scalingDict[t[j].name] == ParamsOf(t[j])
  {
    StoreKeys(map[], Retained(t, ignore));
    NamesOfRetained(t, ignore);
    FilterMembers(Names(t), ignore);
    forall j | 0 <= j < |t| && t[j].name !in ignore && (forall k :: j < k < |t| ==> t[k].name != t[j].name)
      ensures t[j].name in s.scalingDict && s.scalingDict[t[j].name] == ParamsOf(t[j])
    {
      LastRecordWins(t, ignore, j);
    }
  }

  /** With distinct table names, the dictionary and the vectors have the same
      size as the feature list, and the dictionary entry of the i-th feature is
      the triad at index i of the vectors. */
  lemma DictAligned(s: DataScaler, t: seq<ScalingRecord>, ignore: seq<string>)
    requires s.BuiltFrom(t, ignore)
    requires Unique(Names(t))
    ensures |s.scalingDict| == |s.featureList| && |s.mean| == |s.featureList|
    ensures forall i :: 0 <= i < |s.featureList| ==>
              s.featureList[i] in s.scalingDict
              && s.scalingDict[s.featureList[i]] == Params(s.mean[i], s.scale[i], s.variance[i])
  {
    var rs := Retained(t, ignore);
    NamesOfRetained(t, ignore);
    FilterUnique(Names(t), ignore);
    StoreSize(rs);
    forall i | 0 <= i < |s.featureList|
      ensures s.featureList[i] in s.scalingDict
              && s.scalingDict[s.featureList[i]] == Params(s.mean[i], s.scale[i], s.variance[i])
    {
      StoreAt(map[], rs, i);
    }
  }

  /** A lookup succeeds exactly for table names that are not ignored; ignored
      and unknown names raise. With distinct names it returns the record's
      triad. */
  lemma GetParamsOnBuilt(s: DataScaler, t: seq<ScalingRecord>, ignore: seq<string>, f: string)
    requires s.BuiltFrom(t, ignore)
    ensures s.GetParams(f).Ok? <==> f in Names(t) && f !in ignore
    ensures f in ignore || f !in Names(t) ==> s.GetParams(f) == Err(UnknownFeature(f))
    ensures Unique(Names(t)) ==> forall j :: 0 <= j < |t| && t[j].name == f && f !in ignore ==>
              s.GetParams(f) == Ok(ParamsOf(t[j]))
  {
    StoreKeys(map[], Retained(t, ignore));
    NamesOfRetained(t, ignore);
    FilterMembers(Names(t), ignore);
    if Unique(Names(t)) {
      forall j | 0 <= j < |t| && t[j].name == f && f !in ignore
        ensures s.GetParams(f) == Ok(ParamsOf(t[j]))
      {
        forall k | j < k < |t| ensures t[k].name != t[j].name {
          assert Names(t)[k] != Names(t)[j];
        }
        LastRecordWins(t, ignore, j);
      }
    }
  }
}
