# BentoML model registry and TensorFlow adapter, modelled in Dafny

This project models two pieces of BentoML.

The first is the model registry record (`bentoml/_internal/models/model.py`):
- `ModelSignature`, its defaults, `from_dict` and the signature encoder;
- `ModelInfo`, the versioned descriptor of a saved model: construction, equality, `with_options`, the dump that omits the tag, and `from_yaml_file` with its migration of older documents;
- the `Model` entity: identity by tag, `create`, the lazily loaded `custom_objects`, the memoised `to_runnable`, `with_options`, `flush`, `_save`/`validate`, `from_fs`;
- `copy_model` between two stores.

The second is the TensorFlow framework adapter (`bentoml/_internal/frameworks/tensorflow_v2.py`):
- `TensorflowTensorContainer`, which merges the requests of a batch into one tensor along the batch dimension, cuts the result back into pieces, and ships tensors as pickled payloads;
- the runnable class `get_runnable` builds: partial keyword arguments taken from the model options, a per-instance method cache, argument conversion and the device choice;
- the module check of `get` and the default signatures of `save_model`.

Modules, one per file:
- `Results` and `Tags` in `results.dfy`;
- `Values` in `values.dfy`: the loaded YAML value;
- `Signatures` in `signatures.dfy`;
- `Infos` in `info.dfy`: `ModelContext` and `ModelInfo`;
- `Models` in `model.dfy`: `Model`, the store and `copy_model`;
- `Tensors` in `tensors.dfy`: rank-2 tensors with `tf.concat` and `tf.split`;
- `TensorContainer` in `container.dfy`;
- `Tensorflow` in `tensorflow.dfy`: `get`, `save_model` and `get_runnable`.

How the model represents the original:
- A model store is a map from tag to the model's directory contents: an optional `model.yaml` document, an optional `custom_objects.pkl` object, and opaque artifact names.
- A YAML document is a `Value` tree. The string form of a tag is abstracted to a tag value.
- Memoised attributes are explicit cells inside the `Model` or runnable instance. Each operation that fills a cell returns the updated value with its result.
- A tensor is a rectangular matrix, with batch dimension 0 (rows) or 1 (columns); -2 and -1 are accepted as in TensorFlow.

## Model

| member | source | states |
|---|---|---|
| Results.MapAll | bentoml/_internal/models/model.py:429-436 | Converting every entry of a map succeeds iff each entry succeeds. The result then has the same keys and each converted value. |
| Values.AsInt | bentoml/_internal/models/model.py:423 | `isinstance(x, int)` holds for integers and booleans, and an integer reads as itself. |
| Values.AsStrMap | bentoml/_internal/models/model.py:472 | A `dict[str, str]` is read from a map value iff every value is a string; the keys are kept and each string is unwrapped. |
| Values.StrMapRoundTrip | bentoml/_internal/models/model.py:338-341 | A string dictionary written as a value reads back unchanged. |
| Signatures.StructureDim | bentoml/_internal/models/model.py:416 | A batch dimension structures iff it is a list of exactly two integers, and the pair written out comes back. |
| Signatures.Structure | bentoml/_internal/models/model.py:415-419 | Structuring a dictionary gives each absent field its default: not batchable, batch dimension (0, 0), no specs. It fails exactly when `batchable` is not a bool or `batch_dim` is not a pair. Unknown keys are ignored. |
| Signatures.FromDict | bentoml/_internal/models/model.py:421-427 | An integer `batch_dim` b becomes (b, b) and a pair is kept as given. A present `batchable`, `input_spec` and `output_spec` are kept as given, and absent keys take the defaults. The result is Ok exactly for well-typed fields. |
| Signatures.EmptyDictIsDefault | bentoml/_internal/models/model.py:415-427 | A signature built from the empty dictionary is the default signature. |
| Signatures.Encode | bentoml/_internal/models/model.py:449-460 | The encoding always holds `batchable`. It holds `batch_dim` iff the signature is batchable, each spec iff it is not None, and no other key. |
| Signatures.EncodeRoundTrip | bentoml/_internal/models/model.py:421-427 | Decoding an encoded signature gives it back iff it is batchable or its batch dimension is (0, 0). Otherwise only the batch dimension is reset. |
| Signatures.ConvertSignatures | bentoml/_internal/models/model.py:429-436 | Dictionaries are converted with `from_dict` and built signatures are kept; the keys are unchanged. Conversion fails iff some dictionary fails. |
| Signatures.ConvertBuiltIsIdentity | bentoml/_internal/models/model.py:429-436 | Converting a map of built signatures returns it unchanged. |
| Infos.MakeInfo | bentoml/_internal/models/model.py:485-509 | Construction sets name and version from the tag and converts the signatures. The creation time is the given one, or the clock when none is given. It fails iff signature conversion fails. |
| Infos.SameInfo | bentoml/_internal/models/model.py:512-527 | Two descriptors are equal iff they agree on every field once the derived name and version are set aside. |
| Infos.SameInfoIsStructural | bentoml/_internal/models/model.py:512-527 | For constructed descriptors, `__eq__` holds iff the two records are identical. |
| Infos.WithOptions | bentoml/_internal/models/model.py:529-540 | The new descriptor's options are exactly the keyword arguments. Every other field is kept. |
| Infos.WithOptionsReplaces | bentoml/_internal/models/model.py:67-69 | Options are replaced, not merged. Two replacements equal the second alone, and replacing with the current options changes nothing. |
| Infos.ToDoc | bentoml/_internal/models/model.py:603-607 | The dump omits `tag` and holds `name`, `version`, `signatures` and `context`. |
| Infos.MigrateContext | bentoml/_internal/models/model.py:584-586 | A map holding `pip_dependencies` loses that key, and `framework_versions` becomes the empty map. A map without the key is unchanged. A string or list is unchanged iff it does not contain `pip_dependencies`; otherwise the deletion fails. Any other value (int, bool, null, tag) fails the membership test. |
| Infos.Migrate | bentoml/_internal/models/model.py:567-586 | A non-map document is rejected, and so is one without `name` or `version`. Otherwise `tag` is rebuilt from them and they are removed, `bentoml_version` is dropped, missing `signatures` become the empty map, the context is migrated, and every other key is kept. |
| Infos.StructureContext | bentoml/_internal/models/model.py:337-354 | A context needs its framework name and versions. Missing BentoML and Python versions take the process defaults. |
| Infos.ContextRoundTrip | bentoml/_internal/models/model.py:337-354 | A dumped context structures back to itself. |
| Infos.StructureSignatures | bentoml/_internal/models/model.py:479-481 | The `signatures` attribute structures entry by entry, with the same keys. |
| Infos.StructureInfo | bentoml/_internal/models/model.py:588-591 | A structured descriptor has its tag from the `tag` key and name and version derived from it. Its creation time is the document's, or the clock when absent. |
| Infos.Load | bentoml/_internal/models/model.py:559-592 | Loading rejects a non-map document with "malformed model.yaml". It rebuilds the tag from `name` and `version`, and missing signatures load as none. |
| Infos.MigrateDumped | bentoml/_internal/models/model.py:570-577 | Migrating a fresh dump only swaps `name` and `version` for the tag. |
| Infos.MigrateKeeps | bentoml/_internal/models/model.py:567-586 | Migration keeps the keys the constructor reads directly. |
| Infos.StructureDescribed | bentoml/_internal/models/model.py:588-591 | A map holding a descriptor's fields structures back to that descriptor. |
| Infos.DumpLoadRoundTrip | bentoml/_internal/models/model.py:556-592 | A constructed descriptor survives dump then load, tag included, when every signature survives encoding. |
| Infos.DumpLoadLosesHiddenBatchDim | bentoml/_internal/models/model.py:449-460 | A descriptor with a non-batchable signature whose batch dimension is not (0, 0) does not survive dump then load. |
| Models.SameModel | bentoml/_internal/models/model.py:139-141 | Two models are equal iff they have the same name and the same version. Files, descriptor and cached objects play no part. |
| Models.ModelHash | bentoml/_internal/models/model.py:142-143 | A model hashes as its tag does, so nothing outside the name and version affects it. |
| Models.EqualityFollowsTags | bentoml/_internal/models/model.py:139-143 | Two models are equal iff their tags are equal. Equal models hash alike, and models with different tags differ even when their contents agree. |
| Models.Validate | bentoml/_internal/models/model.py:272-273 | A model is valid iff its directory holds `model.yaml`. |
| Models.Create | bentoml/_internal/models/model.py:145-205 | A created model has tag (name, new version). Labels, options and metadata default to empty. Signatures are converted, and context and API version are kept as passed. Given custom objects are held as a map. The directory is empty, so the model is not yet valid, and no runnable is cached. Creation fails iff signature conversion fails. |
| Models.CustomObjectsAsWritten | bentoml/_internal/models/model.py:124-137 | The property as written stores the unpickled object before checking that it is a dict. |
| Models.CustomObjectsAsWrittenServesInvalid | bentoml/_internal/models/model.py:124-137 | With a pickled integer, the first read fails and the second read returns the integer. |
| Models.CustomObjects | bentoml/_internal/models/model.py:124-137 | Without a pickle the objects are the empty map. A pickled non-dict is an error and is not cached. A dict is cached and returned. |
| Models.CustomObjectsComputedOnce | bentoml/_internal/models/model.py:124-137 | After a successful read, every later read returns the same objects and changes nothing. |
| Models.ToRunnable | bentoml/_internal/models/model.py:315-319 | The first call resolves the model's module and caches the class. A cached class is returned without resolving, and a failed resolution caches nothing. |
| Models.ToRunnableIsMemoised | bentoml/_internal/models/model.py:315-319 | After a successful call, later calls return the same class whatever the resolver. |
| Models.ModelWithOptions | bentoml/_internal/models/model.py:321-329 | The new model has the same tag, directory and custom objects, the options replaced, and an empty runnable cell. |
| Models.Save | bentoml/_internal/models/model.py:215-227 | Saving fails iff `model.yaml` is absent, and a failed save leaves the store unchanged. Otherwise the directory is stored under the tag, and no other entry changes. |
| Models.Flush | bentoml/_internal/models/model.py:254-266 | Flushing writes the dumped descriptor as `model.yaml`, which makes the model valid. It fails iff reading the custom objects fails. Non-empty custom objects become `custom_objects.pkl`, and an existing pickle is kept otherwise. Tag, descriptor and other artifacts are unchanged. |
| Models.FromFs | bentoml/_internal/models/model.py:229-245 | Loading a directory needs `model.yaml`. The loaded model takes its tag from the descriptor and has empty cells. |
| Models.Get | bentoml/_internal/models/model.py:619-623 | An absent tag is NotFound; a present one is loaded from its directory. |
| Models.SaveThenGet | bentoml/_internal/models/model.py:215-245 | A flushed model saved to a store loads back by its tag with the same descriptor, when its signatures survive encoding. |
| Models.CopyModel | bentoml/_internal/models/model.py:610-626 | Copying does nothing when the target already holds the tag. Otherwise it copies the source's directory, and fails with NotFound when neither store has the tag. |
| Models.CopyModelIdempotent | bentoml/_internal/models/model.py:610-626 | Copying twice is copying once. |
| Tensors.NormalizeAxis | bentoml/_internal/frameworks/tensorflow_v2.py:308 | An axis of a rank-2 tensor is valid iff it lies in -2..1, and it names the axis d mod 2. |
| Tensors.TakeDropJoin | bentoml/_internal/frameworks/tensorflow_v2.py:308 | Cutting a join at the first operand's extent gives both operands back. |
| Tensors.JoinTakeDrop | bentoml/_internal/frameworks/tensorflow_v2.py:321 | Joining the two halves of a cut gives the tensor back. |
| Tensors.ConcatAll | bentoml/_internal/frameworks/tensorflow_v2.py:308 | A concatenation's extent along the axis is the sum of the pieces' extents. Along the other axis it is the common extent. |
| Tensors.SplitAll | bentoml/_internal/frameworks/tensorflow_v2.py:321 | A split gives one piece per size, each of that size along the axis and of full extent along the other. |
| Tensors.SplitConcat | bentoml/_internal/frameworks/tensorflow_v2.py:305-321 | Splitting a concatenation by the pieces' extents gives the pieces back. |
| Tensors.ConcatSplit | bentoml/_internal/frameworks/tensorflow_v2.py:305-321 | Concatenating the pieces of a split gives the tensor back. |
| Tensors.Concat | bentoml/_internal/frameworks/tensorflow_v2.py:308 | A single tensor is returned unchanged whatever the axis. Otherwise `tf.concat` succeeds iff the axis exists, the list is not empty and the tensors agree on the other axis; the value is the concatenation. |
| Tensors.Split | bentoml/_internal/frameworks/tensorflow_v2.py:321 | `tf.split` succeeds iff the axis exists and there is at least one size. No size may be negative, and the sizes must add up to the extent. |
| TensorContainer.PrefixSums | bentoml/_internal/frameworks/tensorflow_v2.py:310-313 | The indices start at 0, each step adds the next size, and the last index is the total. |
| TensorContainer.Diffs | bentoml/_internal/frameworks/tensorflow_v2.py:320 | There is one split size per pair of consecutive indices, and each index is the previous one plus its size. Zero or one index gives no sizes. |
| TensorContainer.DiffsOfPrefixSums | bentoml/_internal/frameworks/tensorflow_v2.py:310-320 | The split sizes recovered from the indices are the original sizes. |
| TensorContainer.PrefixSumsOfDiffs | bentoml/_internal/frameworks/tensorflow_v2.py:310-320 | The running totals of the split sizes rebuild the indices, shifted to start at 0. |
| TensorContainer.SumOfDiffs | bentoml/_internal/frameworks/tensorflow_v2.py:320 | The split sizes add up to the last index minus the first. |
| TensorContainer.DiffsNonNegative | bentoml/_internal/frameworks/tensorflow_v2.py:320 | No split size is negative iff the indices never decrease. |
| TensorContainer.BatchesToBatch | bentoml/_internal/frameworks/tensorflow_v2.py:304-314 | Merging succeeds iff the axis exists, there is a batch and the batches agree on the other axis. A single batch on a missing axis passes the concatenation but fails when its extent is read. The merged batch is the concatenation. The indices number one more than the batches and start at 0. Consecutive indices differ by each batch's extent, and the last is the merged extent. |
| TensorContainer.BatchToBatches | bentoml/_internal/frameworks/tensorflow_v2.py:316-321 | Cutting succeeds iff the axis exists, there are at least two indices, they never decrease, and last minus first is the extent. Piece i has extent `idx[i+1] - idx[i]`. |
| TensorContainer.BatchesRoundTrip | bentoml/_internal/frameworks/tensorflow_v2.py:304-321 | Merging and cutting at the returned indices gives the batches back. |
| TensorContainer.BatchSplitRoundTrip | bentoml/_internal/frameworks/tensorflow_v2.py:304-321 | Cutting and merging the pieces gives the tensor back, with the indices shifted to start at 0. |
| TensorContainer.ToPayload | bentoml/_internal/frameworks/tensorflow_v2.py:323-341 | A payload unpickles to its tensor and records the tensor's extent along the batch dimension. |
| TensorContainer.FromPayload | bentoml/_internal/frameworks/tensorflow_v2.py:335-341 | Unpickling gives the object whose pickling the payload holds. |
| TensorContainer.BatchToPayloadsAsWritten | bentoml/_internal/frameworks/tensorflow_v2.py:343-354 | As written, each payload holds its piece but records the piece's row count as its batch size. |
| TensorContainer.BatchToPayloads | bentoml/_internal/frameworks/tensorflow_v2.py:343-354 | Each payload holds its piece and records as its batch size the gap between consecutive indices. |
| TensorContainer.FromBatchPayloads | bentoml/_internal/frameworks/tensorflow_v2.py:356-363 | Unpacking succeeds iff the axis exists, there is a payload and the tensors agree on the other axis. The result is the concatenation of the unpickled tensors. The indices start at 0 and step by each tensor's extent. |
| TensorContainer.PayloadsRoundTrip | bentoml/_internal/frameworks/tensorflow_v2.py:343-363 | Packing the pieces of a batch and unpacking them gives the batch back, with the indices shifted to start at 0. |
| TensorContainer.PayloadsRoundTripAsWritten | bentoml/_internal/frameworks/tensorflow_v2.py:343-363 | The payloads of the code as written also unpack to the batch and the indices shifted to 0. The wrong batch sizes never reach the merge. |
| TensorContainer.AsWrittenBatchSizeIgnoresBatchDim | bentoml/_internal/frameworks/tensorflow_v2.py:351-353 | A 2-by-2 tensor cut into columns gets batch size 2 per piece as written, and 1 as intended. |
| Tensorflow.Get | bentoml/_internal/frameworks/tensorflow_v2.py:52-58 | `get` succeeds iff the store lookup succeeds and the model was saved by `bentoml.tensorflow` or by the adapter's own module. A module mismatch is NotFound. |
| Tensorflow.DefaultSignatures | bentoml/_internal/frameworks/tensorflow_v2.py:182-187 | Without signatures, the single signature `__call__` is used, and it is not batchable. Given signatures are used as they are. |
| Tensorflow.SaveModel | bentoml/_internal/frameworks/tensorflow_v2.py:176-212 | Saving returns the new tag, which is then in the store. No other store entry changes, and saving without signatures always succeeds. |
| Tensorflow.SaveModelThenGet | bentoml/_internal/frameworks/tensorflow_v2.py:176-212 | A model saved without signatures loads through `get` with the default signature, this adapter's module and API version, and its artifacts. |
| Tensorflow.GetRunnable | bentoml/_internal/frameworks/tensorflow_v2.py:222-224 | `partial_kwargs` is the option of that name, or the empty map when absent. There is one run method per signature, named after it. |
| Tensorflow.RunnableMirrorsSignatures | bentoml/_internal/frameworks/tensorflow_v2.py:286-296 | Every registered method carries its signature's batching options, so the signatures can be read back from the class. |
| Tensorflow.Resolve | bentoml/_internal/models/model.py:315-319 | Resolution succeeds iff the module is this adapter's, and it registers one method per signature. |
| Tensorflow.DeviceFor | bentoml/_internal/frameworks/tensorflow_v2.py:232-238 | The device is GPU 0 iff some GPU is visible, and CPU 0 otherwise. |
| Tensorflow.NewInstance | bentoml/_internal/frameworks/tensorflow_v2.py:230-241 | A new instance has an empty method cache, which is trivially coherent, and the chosen device. |
| Tensorflow.GenRunMethod | bentoml/_internal/frameworks/tensorflow_v2.py:251-271 | A method missing from the model is an attribute error. Truthy partial kwargs must be a mapping and become the bound defaults. Falsy ones bind nothing. |
| Tensorflow.MethodFor | bentoml/_internal/frameworks/tensorflow_v2.py:277-282 | A cached handle is returned as is; otherwise one is generated and cached, and a failure caches nothing. Other entries are unchanged. On a coherent cache the answer is what generation would give. |
| Tensorflow.MethodGeneratedOnce | bentoml/_internal/frameworks/tensorflow_v2.py:277-282 | Once a handle is generated, every later lookup of that name returns it, whatever was looked up in between. |
| Tensorflow.LookUpAll | bentoml/_internal/frameworks/tensorflow_v2.py:277-282 | Lookups only add names that were looked up, and never change a cached entry. |
| Tensorflow.MapArg | bentoml/_internal/frameworks/tensorflow_v2.py:257-261 | A tensor passes through unchanged; anything else is converted. |
| Tensorflow.Invoke | bentoml/_internal/frameworks/tensorflow_v2.py:263-269 | Every argument is mapped, and the keywords are the bound defaults plus the call's own. A call keyword wins over a default of the same name. |
| Tensorflow.Run | bentoml/_internal/frameworks/tensorflow_v2.py:263-284 | A run succeeds iff the method lookup does, and on a coherent instance it calls the model's method of that name. The call is the looked-up method applied to the mapped positional and keyword arguments, merged over the bound partial kwargs. |
| Tensorflow.RunUsesPartialKwargs | bentoml/_internal/frameworks/tensorflow_v2.py:253-255 | On a fresh instance, a bound partial kwarg reaches the raw method unless the call passes the same keyword. |

## Left out

- Filesystem work is not modelled: opening directories, `fs.mirror`, temporary directories, `path`/`path_of`, and the store's `register` context manager. The store is a map from tag to directory contents.
- YAML parsing and dumping are not modelled. Documents are `Value` trees.
- Pickle and cloudpickle are not modelled. A pickled object is the object itself, so unpickling inverts pickling.
- Key order of the dumped YAML (`sort_keys=False`) is not modelled.
- Structuring of scalars does not coerce. cattrs would call `str()`, `int()` or `bool()` on an ill-typed scalar; the model rejects it.
- `Tag` parsing and formatting (`Tag(name).make_new_version()`, `str(tag)`, `latest` resolution) belong to tag.py and the store. Tag.py is not part of this model. The generated version is a parameter.
- The clock (`datetime.now`) and the environment defaults `BENTOML_VERSION` and `PYTHON_VERSION` are parameters (`Env`). A creation time is an integer.
- `ModelInfo.validate` is an empty stub (model.py:594-597), and the label and metadata validators are not part of this model.
- `ModelInfo.parse_options` and `to_dict` wrappers, `Model.__str__`, `save` (which only calls `_save`) and `to_runner` are left out. `to_runner` forwards to a `Runner` class that is not part of this model.
- Logging is left out.
- `importlib.import_module` is a resolver parameter of `ToRunnable`. `Tensorflow.Resolve` is the resolver for this adapter.
- TensorFlow calls are abstracted:
  - `tf.saved_model.save` and `load` are the artifact set and the model's callable attributes;
  - `tf.convert_to_tensor` is a conversion function;
  - `.numpy()`, `tf.device` contexts, `ExitStack` and `__del__` teardown are not modelled.
- `tf.split`'s single `-1` size, which infers one size, is not modelled. The container never produces one from non-decreasing indices.
- `load_model`'s GPU memory-growth setting is left out.
- `Payload` metadata beyond the batch size (`create_payload` is not part of this model).
- `DataContainerRegistry.register_container` is left out.
- Tensors have rank 2. Higher ranks are not modelled.
- `bentoml.models.create` in `save_model` is assumed to save the model on a clean exit: `create`, then write artifacts, then `flush`, then `_save`. That context manager is not part of this model.
- Results.MapAll: a failed entry is reported as a generic WrongType error for the map, not the entry's own error.
- Tensorflow.Get: `Models.Get` takes an exact tag; `latest` is not resolved.
- Models.Flush: reads the custom objects through the corrected property. A cached value that is not a dict, which the property as written can leave behind (see Findings), therefore fails the flush, whereas the source pickles it. On that failure the model is returned unchanged, although the source has already written `model.yaml` before reading the custom objects.
- Tensors.Concat: the single-tensor case does not model TensorFlow's check that the axis converts to a 32-bit scalar; integers are unbounded here.

## Findings

| source | as written | input that shows it | evidently intended | confidence | as-written member | corrected member |
|---|---|---|---|---|---|---|
| bentoml/_internal/frameworks/tensorflow_v2.py:351-353 | `batch_to_payloads` calls `to_payload(subbatch)` without the batch dimension, so each payload's batch size is its extent along axis 0 | a 2x2 tensor, indices [0, 1, 2], batch_dim 1: both pieces are 2x1 and report batch size 2 | batch size along `batch_dim`, i.e. 1 per piece, the gap between consecutive indices | medium, not executed | TensorContainer.BatchToPayloadsAsWritten | TensorContainer.BatchToPayloads |
| bentoml/_internal/models/model.py:128-134 | `custom_objects` stores the unpickled object in the cache before checking that it is a dict | a `custom_objects.pkl` holding the integer 1: the first read raises ValueError, the second read returns 1 | a non-dict object is rejected on every read and never cached | medium, not executed | Models.CustomObjectsAsWritten | Models.CustomObjects |
