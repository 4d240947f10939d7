# MXNet easyblock: source-tree assembly and build options

A Dafny model of the two pieces of decision logic in EasyBuild's MXNet
easyblock (`EB_MXNet` in `easybuild/easyblocks/m/mxnet.py`):

- **Source-tree assembly** (`extract_step`). All source archives are unpacked
  next to each other in the build directory. The step finds the single MXNet
  tree, which is the one entry matching the glob `*mxnet-*`. It then moves
  every other entry into `<mxnet>/3rdparty/<submodule>`. The submodule is the
  part of the entry name before its last `-`. One submodule is special-cased:
  an entry whose part before its last `-` is exactly `oneDNN` is first
  renamed (every `oneDNN` becomes `mkldnn`) and lands at `3rdparty/mkldnn`. The model computes this as a
  plan. `SourceAssembly.PlanAssembly` maps the directory listing either to
  the discovery error or to the MXNet directory plus the list of moves. Each
  move records the original name, the renamed name, the source path and the
  destination path, in the order the moves are made.
- **Build options** (`configure_step`). The step appends `KEY="value"` and
  `KEY=1` options to the easyconfig's `buildopts`, in this order:
  - `CC`, `CXX`, `ADD_CFLAGS` and `ADD_LDFLAGS` from the environment;
  - for imkl, `USE_MKL2017=1` when its version is at least 17, then
    `MKLML_ROOT`;
  - `USE_BLAS`, chosen from the toolchain's BLAS name;
  - `USE_NNPACK=1` when an NNPACK root is set.

  `BuildOptions.Configure` states the appended options and the outcome as a
  value. `BuildOptions.MXNetBuild` is a class whose `buildopts` field is a
  sequence. Its `ConfigureStep` method makes the appends one by one and is
  proved to append exactly `Configure(...).opts` and to end with
  `Configure(...).outcome`.

Python's string and path primitives are modelled in `PyStr`: `str.rpartition`
on one character, `str.replace`, the substring test, `posixpath.join` for two
components and `posixpath.basename`. The environment is a
`map<string, string>`. `os.getenv` of an unset variable gives `None`, and
`'%s' % None` formats it as the text `None`; the model keeps that.

Behaviour of the code that the model keeps:

- **Hidden entries.** Python's glob does not let `*mxnet-*` match a name that
  starts with `.`. So a hidden `.mxnet-x` entry is not a candidate, but it is
  still relocated like any other entry.
- **No BLAS entry.** A toolchain whose definition has no BLAS entry never
  reaches the "No BLAS library found in the toolchain" error.
  `definition().get('BLAS', None)[0]` fails first with a TypeError (outcome
  `BlasEntryMissing`); an empty entry gives an IndexError (`BlasEntryEmpty`).
  The error itself needs an entry whose first element is `None`.
- **Unknown BLAS name.** Any other BLAS name leaves `blas` unbound, and
  formatting `USE_BLAS` crashes (`BlasUnknown`).
- **Partial options.** Every failure happens after the four environment
  options have been appended.
- **Colliding destinations.** Two entries with the same submodule have the
  same destination (`DestinationsCollideIff`). The step removes the
  destination before each move, so only the last of them survives.
- **Entries without a `-`.** Such an entry has the empty submodule, so its
  destination is `<mxnet>/3rdparty/` itself (`NoHyphenMovesOntoThirdParty`).
  The step removes that destination first, which deletes the whole
  `3rdparty` tree, MXNet's own bundled content and every entry moved there
  before included, and the entry then takes its place.
- **`oneDNN` with a later `-`.** The rename tests the part before the last
  `-`, not a leading `oneDNN-` (the comment beside the test says "starts
  with"). So `oneDNN-2.6-rc1` has the submodule `oneDNN-2.6`: it is not
  renamed and goes to `3rdparty/oneDNN-2.6`, not to `3rdparty/mkldnn`
  (`OneDNNWithLaterHyphenKeepsName`).

## Model

| member | source | states |
|---|---|---|
| PyStr.LastIndexOf | easybuild/easyblocks/m/mxnet.py:103 | the index found holds the separator and no later position does; nothing is found exactly when the separator does not occur |
| PyStr.RPartition | easybuild/easyblocks/m/mxnet.py:103 | the three parts concatenate to the input; the tail holds no separator; the separator part is present exactly when the separator occurs, else head and separator are empty and the tail is the whole string |
| PyStr.ContainsIff | easybuild/easyblocks/m/mxnet.py:95 | the substring test holds exactly when the text occurs at some index |
| PyStr.ReplaceAll | easybuild/easyblocks/m/mxnet.py:110 | `str.replace` leaves a string without the pattern unchanged, and replacing by a text of the pattern's length (`oneDNN` by `mkldnn`) keeps the length |
| PyStr.ReplaceAllRemovesPattern | easybuild/easyblocks/m/mxnet.py:110 | when the replacement's first character is not in the pattern and the pattern's first character is not in the replacement (true of `oneDNN` and `mkldnn`), no occurrence of the pattern is left |
| PyStr.JoinParts | easybuild/easyblocks/m/mxnet.py:111-114 | an absolute second component is the result; otherwise the result is the first component, then a `/` inserted exactly when the first component is not empty and does not end in `/`, then the second component, which follows a `/` whenever the first is not empty |
| PyStr.JoinSameDirectory | easybuild/easyblocks/m/mxnet.py:114 | below one directory, two plain names give the same path exactly when they are equal |
| PyStr.Basename | easybuild/easyblocks/m/mxnet.py:102 | the basename holds no `/`, is a suffix of the path, and is either the whole path or preceded by a `/` |
| PyStr.BasenameOfJoin | easybuild/easyblocks/m/mxnet.py:95-102 | the basename of `builddir/<name>` is `<name>`, so the entry excluded from the moves is the matched MXNet entry |
| SourceAssembly.MatchesMXNetGlob | easybuild/easyblocks/m/mxnet.py:95 | a name matches `*mxnet-*` exactly when it does not start with `.` and `mxnet-` occurs at some index of it |
| SourceAssembly.Matching | easybuild/easyblocks/m/mxnet.py:95 | the glob result holds exactly the listed entries that match `*mxnet-*` |
| SourceAssembly.MatchingAppend | easybuild/easyblocks/m/mxnet.py:95 | matching a listing split in two matches each part, in order: the glob result keeps the listing order |
| SourceAssembly.FindMXNetDir | easybuild/easyblocks/m/mxnet.py:95-100 | discovery succeeds exactly when one entry matches, giving `builddir/<match>`; otherwise the error lists the path `builddir/<candidate>` of every candidate, in glob order (`MatchingAppend`) |
| SourceAssembly.DiscoverySucceedsIffUnique | easybuild/easyblocks/m/mxnet.py:95-100 | on a duplicate-free listing, the step gets past discovery exactly when one entry matches `*mxnet-*`; zero or several matches are an error |
| SourceAssembly.Others | easybuild/easyblocks/m/mxnet.py:102 | the entries to relocate are exactly the listed entries other than the MXNet basename |
| SourceAssembly.OthersAppend | easybuild/easyblocks/m/mxnet.py:102 | filtering a listing split in two is filtering each part, in order: the list comprehension keeps the listing order |
| SourceAssembly.OthersSingle | easybuild/easyblocks/m/mxnet.py:102 | a single entry is kept exactly when it is not the MXNet basename |
| SourceAssembly.Submodule | easybuild/easyblocks/m/mxnet.py:103 | the submodule is the prefix before the last `-`; with no `-` it is empty |
| SourceAssembly.DestSubmodule | easybuild/easyblocks/m/mxnet.py:105-114 | the destination submodule is never `oneDNN`: it is `mkldnn` for the submodule `oneDNN` and the submodule itself in every other case |
| SourceAssembly.RenamedEntry | easybuild/easyblocks/m/mxnet.py:105-110 | only a `oneDNN` submodule's entry is renamed; the renamed entry has the same length and no `oneDNN` left in it |
| SourceAssembly.PlanEntry | easybuild/easyblocks/m/mxnet.py:103-114 | a move keeps its entry, records the renamed name `RenamedEntry` gives, takes its source from `builddir/<renamed>` and goes to `<mxnet>/3rdparty/<destination submodule>` |
| SourceAssembly.PlanAssembly | easybuild/easyblocks/m/mxnet.py:95-114 | success exactly when one entry matches, and on failure the error is the discovery error listing the candidates; the MXNet directory is `builddir/<match>`; the i-th move is the plan for the i-th entry of `Others`, which keeps the listing order (`OthersAppend`) |
| SourceAssembly.MovesFollowOthers | easybuild/easyblocks/m/mxnet.py:102-114 | the i-th move is made for the i-th entry of `Others`, one move per entry |
| SourceAssembly.OthersExactlyOnce | easybuild/easyblocks/m/mxnet.py:102 | leaving the MXNet entry out of a duplicate-free listing keeps every other entry exactly once, one fewer in all |
| SourceAssembly.RelocatedExactlyOnce | easybuild/easyblocks/m/mxnet.py:102 | the MXNet entry is never moved; every other entry is moved exactly once; there are as many moves as entries minus one |
| SourceAssembly.PlainEntryDestination | easybuild/easyblocks/m/mxnet.py:103-114 | an entry whose part before its last `-` is not exactly `oneDNN` keeps its name and moves from `builddir/<entry>` to `3rdparty/<prefix before last '-'>` |
| SourceAssembly.NoHyphenMovesOntoThirdParty | easybuild/easyblocks/m/mxnet.py:103-114 | an entry without `-` has the empty submodule and is moved onto `<mxnet>/3rdparty/` itself |
| SourceAssembly.OneDNNBecomesMklDnn | easybuild/easyblocks/m/mxnet.py:105-114 | an entry whose part before its last `-` is exactly `oneDNN` (so it reads `oneDNN-<v>`) is renamed to `mkldnn-<v with every oneDNN replaced>`, of the same length and without any `oneDNN`, moved from `builddir/<renamed>` and lands at `3rdparty/mkldnn`, never at `3rdparty/oneDNN` |
| SourceAssembly.OneDNNWithLaterHyphenKeepsName | easybuild/easyblocks/m/mxnet.py:103-114 | an entry `oneDNN-<tail>` whose tail holds a `-` has a submodule longer than `oneDNN`, keeps its name and goes to `3rdparty/<prefix before its last '-'>` |
| SourceAssembly.RenameOneDNN | easybuild/easyblocks/m/mxnet.py:110 | renaming `oneDNN-<tail>` gives `mkldnn-` followed by the tail with its own occurrences replaced |
| SourceAssembly.DestinationsCollideIff | easybuild/easyblocks/m/mxnet.py:114-120 | two entries get the same destination exactly when their destination submodules are equal |
| SourceAssembly.DestSubmoduleIsPlain | easybuild/easyblocks/m/mxnet.py:103-107 | a destination submodule taken from a listed name holds no `/` |
| BuildOptions.SelectBlas | easybuild/easyblocks/m/mxnet.py:134-148 | `None` is the no-BLAS error; imkl selects exactly `mkl`, ACML and ATLAS exactly `atlas`, OpenBLAS exactly `openblas`, FlexiBLAS exactly `flexiblas`; any other name is reported as unknown |
| BuildOptions.GetEnv | easybuild/easyblocks/m/mxnet.py:132 | a variable has a value exactly when it is set in the environment, and then its value is the environment's |
| BuildOptions.Show | easybuild/easyblocks/m/mxnet.py:132 | a set value is printed as it is; the text `None` comes from an unset variable or from one set to `None`, which are indistinguishable |
| BuildOptions.BaseOptions | easybuild/easyblocks/m/mxnet.py:131-132 | the four options `CC="$CC"`, `CXX="$CXX"`, `ADD_CFLAGS="$CFLAGS"`, `ADD_LDFLAGS="$LDFLAGS"`, in this order |
| BuildOptions.ToolchainBlas | easybuild/easyblocks/m/mxnet.py:134 | the lookup crashes with a TypeError exactly when the definition has no BLAS entry and with an IndexError exactly when the entry is empty; otherwise it gives the entry's first element |
| BuildOptions.MklOptions | easybuild/easyblocks/m/mxnet.py:135-140 | nothing unless the name is imkl; for imkl there are exactly two options from version 17 on and one before, the last being `MKLML_ROOT="$MKLROOT"`, with `USE_MKL2017=1` present exactly when the version is at least 17; no option sets `USE_BLAS` |
| BuildOptions.Configure | easybuild/easyblocks/m/mxnet.py:131-153 | the first four options are `CC`, `CXX`, `ADD_CFLAGS`, `ADD_LDFLAGS` quoting `$CC`, `$CXX`, `$CFLAGS`, `$LDFLAGS`; a failed configuration appends nothing more |
| BuildOptions.ConfiguredAppendsNothingElse | easybuild/easyblocks/m/mxnet.py:134-153 | a successful configuration appends exactly the four environment options, the imkl options right after them, `USE_BLAS`, and `USE_NNPACK` only with an NNPACK root; without one `USE_BLAS` is last |
| BuildOptions.UseBlasIffConfigured | easybuild/easyblocks/m/mxnet.py:134-150 | `USE_BLAS` appears exactly when configuration succeeds, only once, with the library the BLAS name selects |
| BuildOptions.Mkl2017OnlyForNewImkl | easybuild/easyblocks/m/mxnet.py:135-139 | `USE_MKL2017=1` appears exactly for imkl at version 17 or later |
| BuildOptions.MklmlRootOnlyForImkl | easybuild/easyblocks/m/mxnet.py:135-140 | a `MKLML_ROOT` option appears exactly for imkl, carrying `$MKLROOT` |
| BuildOptions.NoBlasStopsBeforeUseBlas | easybuild/easyblocks/m/mxnet.py:147-150 | a `None` BLAS name raises "No BLAS library found in the toolchain" before any `USE_BLAS`, with only the four environment options appended |
| BuildOptions.BlasFailureOutcomes | easybuild/easyblocks/m/mxnet.py:134-150 | a missing or empty BLAS entry crashes the lookup; an unknown name crashes at `USE_BLAS`; each time only the four environment options were appended |
| BuildOptions.NnpackAfterUseBlas | easybuild/easyblocks/m/mxnet.py:150-153 | `USE_NNPACK=1` appears exactly when configuration succeeds with an NNPACK root, as the last option, right after `USE_BLAS` |
| BuildOptions.MXNetBuild.Update | easybuild/easyblocks/m/mxnet.py:132 | one update appends its option to `buildopts` and removes nothing |
| BuildOptions.MXNetBuild.AppendEnvironmentOptions | easybuild/easyblocks/m/mxnet.py:131-132 | the loop appends the four environment options in order |
| BuildOptions.MXNetBuild.AppendBlasOptions | easybuild/easyblocks/m/mxnet.py:134-150 | the if/elif chain picks what `SelectBlas` picks and appends the imkl options and `USE_BLAS` only when a library is selected |
| BuildOptions.MXNetBuild.ConfigureStep | easybuild/easyblocks/m/mxnet.py:129-155 | `buildopts` becomes the old options followed by exactly the options `Configure` specifies, so it is only ever appended to, and the outcome is the specified one |

## Left out

- Filesystem effects are not modelled: the base `extract_step` unpacking, `os.listdir`, the glob I/O, `os.rename`, `remove_dir` and `shutil.move`. The model returns the plan of moves instead.
- Move failures are left out. An `IOError` from `shutil.move` becomes "Failed to move ..."; that is I/O.
- Filesystem interactions are left out: rename targets that already exist, and the removal of previously moved directories when destinations collide. The collision itself is stated by `DestinationsCollideIff`.
- The glob is applied to entry names only. Glob metacharacters inside the build directory path itself are not interpreted.
- The order of the glob result and of the listing is taken as given: the listing order is an input.
- `PyStr.Join` models `posixpath.join` with two components only; its shape is stated by the lemma `JoinParts` rather than by ensures on `Join`, which keeps the proofs that unfold joined paths cheap. The source also calls it with three, which the model writes as two nested calls (the same result).
- The `LooseVersion` comparison of the imkl version with `17` is an input (`imklAtLeast17`), because version ordering is a library not shown here.
- `get_software_version`, `get_software_root('NNPACK')`, `os.getenv` and the toolchain definition lookup are inputs: an environment map, a BLAS entry, and two booleans.
- How `self.cfg.update` joins options into the `buildopts` string is framework code that is not part of this model. `buildopts` is kept as a sequence of options: `Quoted(k, v)` stands for the text `k="v"` and `Enabled(k)` for `k=1`.
- The calls to the parent class's `configure_step` and `extract_step` are framework code and are not modelled.
- Not modelled: `extensions_step` and `install_r_ext`. They run the Python and R sub-installers, create symlinks, write the NAMESPACE file and run `Rscript`, which are external processes and I/O.
- Not modelled: `sanity_check_step`. It loads a fake module and delegates to the sub-installers' checks.
- Not modelled: `make_module_extra`, `prepare_step`, `install_step`, `extra_options` and `__init__`. They are framework calls, module-file text and constants.
