# Training-input loader of danny_learns_dihiggs, modelled in Dafny

`train.py` reads a pre-processed HDF5 file and turns it into in-memory training
inputs. This project models that logic:

- **`DataScaler`** (module `Scaling`, file `scaling.dfy`). This is the scaling catalog. It holds:
  - the raw feature list (the scaling table's `name` column);
  - the trainable feature list (the raw list without the ignored names, order kept);
  - a dictionary from feature name to its `{mean, scale, var}` triad;
  - three vectors `mean`, `scale`, `var`.

  It is a class whose `Load` method walks the table in a loop, as the source does. Pure specification functions (`Names`, `Filter`, `Retained`, `Store`, `Means`, ...) describe the state it builds. The lemmas state the catalog's invariants: order-preserving filtering, alignment between the dictionary and the vectors, and exclusion applied the same way everywhere.
- **`floatify`** (module `Records`, file `records.dfy`). It turns a table of named-field records into an n × k float64 matrix. Column j is the field `feature_list[j]`. A record is a map from field name to value. Indexing the `train_features` table by a tuple of names is also modelled, as `SelectFields`.
- **`Sample`** (module `Samples`, file `samples.dfy`). This is a read-only holder of a name, a class label and a matrix. `Sample.Create` makes the constructor's checks in the source's order: the element type comes first, then the label.
- **`load_input_file`** (module `Loader`, file `loader.dfy`). It works over an abstract container value. Each `sys.exit()` becomes an `Exited` outcome. An exception that escapes becomes a `Raised` outcome. A successful load is `Loaded(samples, scaler)`. The per-group loop is the method `LoadSamples`, and its body is `LoadSample`. Both are proved against the pure functions `BuildSamples` and `SampleFor`.

Float values are never computed on, only copied, so they are modelled as `real`. An array's element type is a tag (`DType`).

Two behaviours of the code that are easy to miss:
- A missing `scaling_data` table inside a present `scaling` group raises `KeyError`. The program does not exit cleanly in that case.
- The three vectors always have one entry per name in the feature list, even when the table repeats a name. Only the dictionary shrinks then, because a later record overwrites an earlier one.

The record tables in the container are the subset type `StructTable`: every row holds every field of the table's type. This is how a compound HDF5 dataset behaves anyway.

## Model

| member | source | states |
|---|---|---|
| `Scaling.DataScaler.constructor` | train.py:77-93 | starting from empty lists and an empty dictionary, the new scaler is exactly the catalog of the given table and ignore list (`BuiltFrom`) |
| `Scaling.DataScaler.Load` | train.py:95-115 | the raw list becomes the name column; the feature list becomes it filtered; every non-ignored record, in table order, is inserted into the dictionary and appended to the three vectors |
| `Scaling.DataScaler.GetParams` | train.py:126-129 | returns the stored triad exactly when the name is a dictionary key, and otherwise raises the unknown-feature error for that name |
| `Scaling.DataScaler.RawFeatureList` | train.py:117-118 | returns the raw feature list; no contract of its own, `FeatureListFiltered` states what it holds on a constructed scaler |
| `Scaling.DataScaler.FeatureList` | train.py:120-121 | returns the trainable feature list; no contract of its own, `FeatureListFiltered` states what it holds |
| `Scaling.DataScaler.ScalingDict` | train.py:123-124 | returns the dictionary; no contract of its own, `DictKeys` and `DictAligned` state what it holds |
| `Scaling.DataScaler.Mean` | train.py:131-132 | returns the `mean` vector; no contract of its own, `VectorsAligned` states what it holds |
| `Scaling.DataScaler.Scale` | train.py:133-134 | returns the `scale` vector; no contract of its own, `VectorsAligned` states what it holds |
| `Scaling.DataScaler.Var` | train.py:135-136 | returns the `var` vector; no contract of its own, `VectorsAligned` states what it holds |
| `Scaling.GetParamsOnBuilt` | train.py:126-129 | on a constructed scaler, a lookup succeeds iff the name is in the table and not ignored; ignored and unknown names raise; with distinct names it returns that record's triad |
| `Scaling.Filter` | train.py:98 | the `filter` of the feature list; no contract of its own, its properties are the `Filter*` lemmas below |
| `Scaling.FilterMembers` | train.py:98 | a name is in the filtered list iff it is in the input and not ignored |
| `Scaling.FilterAppend` | train.py:98 | filtering distributes over concatenation, so relative order is kept |
| `Scaling.FilterKeepsPositions` | train.py:98 | the filtered list is the subsequence at strictly increasing positions, which are exactly the positions whose name is not ignored |
| `Scaling.FilterUnique` | train.py:98 | filtering a list of distinct names gives distinct names |
| `Scaling.NamesOfRetained` | train.py:97-111 | the names of the records the loop keeps are the filtered feature list, so vector index i belongs to `feature_list[i]` |
| `Scaling.RetainedAtKept` | train.py:105-111 | the i-th record the loop keeps is the table record at the i-th kept position |
| `Scaling.StoreKeys` | train.py:107-108 | after the insertions, the keys are the old keys plus the inserted records' names |
| `Scaling.StoreAt` | train.py:108 | with distinct names, every inserted record's triad is stored under its name |
| `Scaling.StoreSize` | train.py:108 | with distinct names, the dictionary has one entry per inserted record |
| `Scaling.LastRecordWins` | train.py:105-108 | a non-ignored record's triad is what the dictionary holds under its name, unless a later record has the same name |
| `Scaling.LoadStep` | train.py:105-111 | one pass of the loop: record i is inserted into the dictionary and appended to each vector, unless its name is ignored, in which case nothing it records changes |
| `Scaling.FeatureListFiltered` | train.py:97-98 | the raw list has one name per table row; the feature list is the raw list minus the ignored names; an ignored table name stays in the raw list and leaves the feature list |
| `Scaling.VectorsAligned` | train.py:105-115 | `mean`, `scale` and `var` each have the feature list's length, and their entry i together with `feature_list[i]` is the table record at the i-th kept position |
| `Scaling.DictKeys` | train.py:105-108 | the dictionary's keys are exactly the feature-list names, so no ignored name is a key; a retained record not overwritten later is stored under its name |
| `Scaling.DictAligned` | train.py:105-115 | with distinct table names, the dictionary has the feature list's size, and the entry of `feature_list[i]` is `{mean[i], scale[i], var[i]}` |
| `Records.SelectFields` | train.py:187 | an empty name tuple reads the whole table; otherwise a name missing from the table's type fails first, and the name reported is the first missing one in tuple order; then a repeated name fails; on success each row's keys are exactly the named fields, holding the table's values |
| `Records.FloatRow` | train.py:138-140 | one record as a row whose entry j is the field `feature_list[j]` |
| `Records.Floatify` | train.py:138-140 | the result is float64, has one row per record, and has `len(feature_list)` columns; entry [r][j] is record r's field `feature_list[j]` |
| `Records.FloatRowRoundTrip` | train.py:138-140 | reading a converted row back by the feature names gives the record restricted to those names |
| `Records.FloatifyRoundTrip` | train.py:138-140 | the same holds for every row of a converted table |
| `Records.UnflattenAt` | train.py:138-140 | with distinct names, a row read back as a record holds entry j under `feature_list[j]` |
| `Records.UnflattenRoundTrip` | train.py:138-140 | with distinct names, converting a read-back row gives the row again |
| `Samples.SampleError` | train.py:45-49 | the constructor's checks in order: a non-float64 matrix first, then a negative label; no contract of its own, `Sample.Create` states its outcome |
| `Samples.Sample.Valid` | train.py:45-49 | what every sample satisfies after the checks: float64 data and a non-negative label |
| `Samples.Sample.constructor` | train.py:45-53 | accepts only float64 data and a non-negative label (`SampleError` gives `None`), stores its three arguments, and yields a `Valid()` sample |
| `Samples.Sample.Create` | train.py:45-60 | fails iff the element type is not float64 or the label is negative; a wrong dtype is reported regardless of the label; a negative label with float64 data raises the invalid-label error; on success the sample is `Valid()` and `Name()`, `ClassLabel()` and `Data()` return the arguments |
| `Samples.Sample.Name` | train.py:55-56 | returns the name; no contract of its own, `Create` states it is the constructor's argument |
| `Samples.Sample.ClassLabel` | train.py:57-58 | returns the label; no contract of its own, `Create` states it is the argument and `Valid` that it is not negative |
| `Samples.Sample.Data` | train.py:59-60 | returns the matrix; no contract of its own, `Create` states it is the argument and `Valid` that it is float64 |
| `Loader.SampleFor` | train.py:184-187 | a group's sample fails in order: a missing `training_label`, then a missing `train_features`, then the field-selection error, then `InvalidLabel` for a negative label; it never fails on the dtype; on success it carries the group's name and label and the converted matrix of its selected fields |
| `Loader.SampleForValue` | train.py:184-187 | helper for the worked example: `SampleFor`'s success branch written out, so the sample's matrix is `Floatify` of the selected fields |
| `Loader.LoadSample` | train.py:184-187 | the loop body: it fails exactly when `SampleFor` does, with the same exception, and otherwise builds a valid sample with `SampleFor`'s name, label and matrix |
| `Loader.BuildSamples` | train.py:183-188 | the samples of all groups in order, or the first exception; no contract of its own, its properties are the `BuildSamples*` lemmas below |
| `Loader.LoadSamples` | train.py:183-188 | the loop over the groups: it fails exactly when `BuildSamples` does, with its error, and otherwise returns one valid sample per group, each as `BuildSamples` describes it |
| `Loader.LoadInputFile` | train.py:154-194 | a missing file exits; a missing scaling group exits before the samples group is looked at; a missing scaling table raises; with the scaler built, a missing samples group exits; otherwise it raises the loop's first error, or returns the scaler built ignoring `eventweight` and one valid sample per group in enumeration order |
| `Loader.BuildSamplesErrorPersists` | train.py:183-188 | once a group fails, the whole load fails with that error |
| `Loader.BuildSamplesOk` | train.py:183-188 | the load succeeds iff every group yields a sample, and then sample i is group i's |
| `Loader.BuildSamplesFirstError` | train.py:183-188 | a failed load reports the first failing group's error, and every earlier group succeeded: there is no partial result |
| `Loader.NoDTypeMismatchOnLoad` | train.py:186-187 | the dtype check of `Sample` never fails during a load, because every matrix comes from `floatify` |
| `Loader.LoadExample` | train.py:169-194 | for the table `pt`, `eta`, `eventweight` and one group `signal` with label 1 and three events, the load trains on `["pt", "eta"]` and yields one 3 × 2 sample that holds the events' values |

## Left out

- The command line is not modelled: `main`, argparse and every `print` (train.py:196-211, 155, 174, 176, 191).
- The keras imports and the global `np.random.seed` are not modelled (train.py:12-22). They belong to training, not to loading.
- h5py is not modelled. The file is an `InputFile` value. Opening the file and the `with` scope are absent. `os.path.isfile` failing becomes `file == None`.
- Float representation is not modelled. The `np.float64` conversions of the vectors and of the record fields (train.py:113-115, 140) are copies of `real` values.
- `Scaling.DataScaler.Load`: the model appends to the vectors on every call. In the source, a second `load` on a constructed scaler fails at its first append, because by then the vectors are numpy arrays. Calling `load` twice is not a supported use. Only the constructor calls it.
- The default arguments `scaling_dataset=None` and `input_data=None` are not modelled. In the source they fail with a Python type or attribute error. The model's constructors take real values.
- `int(class_label)` is not modelled as a conversion. The `training_label` attribute is an `int`. A truncated float, or a value that `int()` rejects, is out of scope.
- h5py string encodings are not modelled. Names are strings, not bytes.
- Records that lack a field of the scaling table are not modelled. A scaling table is a sequence of typed `ScalingRecord`s.
- The model does not tell a group from a dataset of the same name. `"scaling" in input_file` also holds for a dataset. Every member of `samples` is taken to be a group.
- `Records.Floatify`: only one-dimensional record tables are modelled, so the leading shape is the record count. With an empty feature list the model gives one empty row per record. This reinterpretation for zero-width records may behave differently in numpy. A table with zero records is not an error in the model, which gives an empty matrix; in the source the final `reshape(input_array.shape + (-1,))` (train.py:140) cannot infer its `-1` dimension from a size-0 array and raises `ValueError`, so `SampleFor`, `LoadSample` and `LoadInputFile` return a sample with no rows where the source's load raises.
- `Loader.SampleFor`: a group whose `train_features` table has zero records yields a sample with an empty matrix, where the source's `floatify` raises `ValueError` (see `Records.Floatify`); the model does not predict that error.
- `Records.SelectFields`: the error kinds follow h5py's field selection. It checks every name first and refuses repeats only after that. The exact exception classes and messages are not modelled.
