/**
 * The build-option derivation of the MXNet easyblock (`EB_MXNet.configure_step`):
 * the compiler and flag variables of the environment, the toolchain's BLAS
 * library and the presence of NNPACK become `KEY="value"` / `KEY=1` options
 * appended, one by one, to the easyconfig's `buildopts`.
 *
 * `Configure` is the specification: the options appended and the outcome, as a
 * value. `MXNetBuild.ConfigureStep` performs the appends in the source's order
 * and is proved to match it.
 */
module BuildOptions {
  import opened Wrappers

  /** One build option: `key="value"` or the switch `key=1`. */
  datatype BuildOpt = Quoted(key: string, value: string) | Enabled(key: string)

  /** `os.getenv(name)`: nothing when the variable is unset. */
  function GetEnv(env: map<string, string>, name: string): (r: Option<string>)
    ensures r.Some? <==> name in env
    ensures r.Some? ==> r.value == env[name]
  {
    if name in env then Some(env[name]) else None
  }

  /** Python's `'%s' % v`: an unset variable is rendered as the text `None`. */
  function Show(v: Option<string>): (r: string)
    ensures v.Some? ==> r == v.value
    ensures r == "None" <==> v == None || v == Some("None")
  {
    match v
    case Some(s) => s
    case None => "None"
  }

  /** The make variables set from the environment, with the variable each one reads. */
  const BaseVars: seq<(string, string)> :=
    [("CC", "CC"), ("CXX", "CXX"), ("ADD_CFLAGS", "CFLAGS"), ("ADD_LDFLAGS", "LDFLAGS")]

  /**
   * What the toolchain tells `configure_step`.
   * `blasEntry` is `definition().get('BLAS', None)`: absent when the toolchain
   * definition has no BLAS entry, else its list of element names (an element
   * may itself be `None`). `imklAtLeast17` is the comparison of the imkl
   * version with 17, `nnpackRoot` whether an NNPACK root is set.
   */
  datatype Toolchain = Toolchain(blasEntry: Option<seq<Option<string>>>, imklAtLeast17: bool, nnpackRoot: bool)

  /** How `configure_step` ends. */
  datatype Outcome =
    | Configured
      /** `EasyBuildError("No BLAS library found in the toolchain")` */
    | NoBlasFound
      /** `None[0]`: a TypeError, the definition has no BLAS entry */
    | BlasEntryMissing
      /** `[][0]`: an IndexError, the BLAS entry is an empty list */
    | BlasEntryEmpty
      /** an UnboundLocalError on `blas`: the BLAS name is none of the known ones */
    | BlasUnknown(name: string)

  /** The value of `USE_BLAS` selected by the toolchain's BLAS name. */
  datatype BlasChoice = Blas(lib: string) | NoBlas | Unknown(name: string)

  function SelectBlas(name: Option<string>): (r: BlasChoice)
    ensures r.NoBlas? <==> name.None?
    ensures r.Blas? <==> name.Some? && name.value in {"imkl", "ACML", "ATLAS", "OpenBLAS", "FlexiBLAS"}
    ensures r.Blas? ==> r.lib in {"mkl", "atlas", "openblas", "flexiblas"}
    ensures r.Unknown? ==> name == Some(r.name)
    ensures r == Blas("mkl") <==> name == Some("imkl")
    ensures r == Blas("atlas") <==> name == Some("ACML") || name == Some("ATLAS")
    ensures r == Blas("openblas") <==> name == Some("OpenBLAS")
    ensures r == Blas("flexiblas") <==> name == Some("FlexiBLAS")
  {
    match name
    case None => NoBlas
    case Some(n) =>
      if n == "imkl" then Blas("mkl")
      else if n == "ACML" || n == "ATLAS" then Blas("atlas")
      else if n == "OpenBLAS" then Blas("openblas")
      else if n == "FlexiBLAS" then Blas("flexiblas")
      else Unknown(n)
  }

  /** The first BLAS element name of the toolchain, or the crash of looking it up. */
  function ToolchainBlas(tc: Toolchain): (r: Result<Option<string>, Outcome>)
    ensures r == Failure(BlasEntryMissing) <==> tc.blasEntry.None?
    ensures r == Failure(BlasEntryEmpty) <==> tc.blasEntry == Some([])
    ensures r.Success? <==> tc.blasEntry.Some? && tc.blasEntry.value != []
    ensures r.Success? ==> r.value == tc.blasEntry.value[0]
  {
    match tc.blasEntry
    case None => Failure(BlasEntryMissing)
    case Some(names) => if names == [] then Failure(BlasEntryEmpty) else Success(names[0])
  }

  /** The four options taken from the environment. */
  function BaseOptions(env: map<string, string>): (r: seq<BuildOpt>)
    ensures r == [
      Quoted("CC", Show(GetEnv(env, "CC"))),
      Quoted("CXX", Show(GetEnv(env, "CXX"))),
      Quoted("ADD_CFLAGS", Show(GetEnv(env, "CFLAGS"))),
      Quoted("ADD_LDFLAGS", Show(GetEnv(env, "LDFLAGS")))]
  {
    seq(|BaseVars|, i requires 0 <= i < |BaseVars| => Quoted(BaseVars[i].0, Show(GetEnv(env, BaseVars[i].1))))
  }

  /** The options only imkl adds: `USE_MKL2017` from version 17 on, then `MKLML_ROOT`. */
  function MklOptions(env: map<string, string>, name: Option<string>, atLeast17: bool): (r: seq<BuildOpt>)
    ensures name != Some("imkl") ==> r == []
    ensures name == Some("imkl") ==>
      |r| >= 1 && r[|r| - 1] == Quoted("MKLML_ROOT", Show(GetEnv(env, "MKLROOT")))
    ensures name == Some("imkl") ==> |r| == if atLeast17 then 2 else 1
    ensures Enabled("USE_MKL2017") in r <==> name == Some("imkl") && atLeast17
    ensures forall o :: o in r ==> !IsUseBlas(o)
  {
    if name == Some("imkl") then
      (if atLeast17 then [Enabled("USE_MKL2017")] else []) + [Quoted("MKLML_ROOT", Show(GetEnv(env, "MKLROOT")))]
    else []
  }

  /** The options `configure_step` appends, and how it ends. */
  datatype Configuration = Configuration(opts: seq<BuildOpt>, outcome: Outcome)

  /**
   * The specification of `configure_step`. Every outcome starts with the four
   * environment options; a failed BLAS lookup stops right after them.
   */
  function Configure(env: map<string, string>, tc: Toolchain): (r: Configuration)
    ensures |r.opts| >= 4
    ensures r.opts[0] == Quoted("CC", Show(GetEnv(env, "CC")))
    ensures r.opts[1] == Quoted("CXX", Show(GetEnv(env, "CXX")))
    ensures r.opts[2] == Quoted("ADD_CFLAGS", Show(GetEnv(env, "CFLAGS")))
    ensures r.opts[3] == Quoted("ADD_LDFLAGS", Show(GetEnv(env, "LDFLAGS")))
    ensures r.outcome != Configured ==> r.opts == BaseOptions(env)
  {
    var base := BaseOptions(env);
    match ToolchainBlas(tc)
    case Failure(crash) => Configuration(base, crash)
    case Success(name) =>
      match SelectBlas(name)
      case NoBlas => Configuration(base, NoBlasFound)
      case Unknown(n) => Configuration(base, BlasUnknown(n))
      case Blas(lib) =>
        Configuration(
          base + MklOptions(env, name, tc.imklAtLeast17) + [Quoted("USE_BLAS", lib)]
            + (if tc.nnpackRoot then [Enabled("USE_NNPACK")] else []),
          Configured)
  }

  /** Whether an option sets `USE_BLAS`. */
  predicate IsUseBlas(o: BuildOpt) {
    o.Quoted? && o.key == "USE_BLAS"
  }

  /**
   * `USE_BLAS` is set, once, exactly when configuration succeeds, and then to
   * the library the BLAS name selects.
   */
  lemma UseBlasIffConfigured(env: map<string, string>, tc: Toolchain)
    ensures var c := Configure(env, tc);
      (exists i :: 0 <= i < |c.opts| && IsUseBlas(c.opts[i])) <==> c.outcome == Configured
    ensures var c := Configure(env, tc);
      c.outcome == Configured ==>
        && ToolchainBlas(tc).Success?
        && SelectBlas(ToolchainBlas(tc).value).Blas?
        && Quoted("USE_BLAS", SelectBlas(ToolchainBlas(tc).value).lib) in c.opts
        && forall i, j :: 0 <= i < j < |c.opts| && IsUseBlas(c.opts[i]) ==> !IsUseBlas(c.opts[j])
  {
    var c := Configure(env, tc);
    var base := BaseOptions(env);
    if c.outcome == Configured {
      var name := ToolchainBlas(tc).value;
      var mkl := MklOptions(env, name, tc.imklAtLeast17);
      var k := |base| + |mkl|;
      assert c.opts[k] == Quoted("USE_BLAS", SelectBlas(name).lib);
      forall i | 0 <= i < |c.opts| && i != k
        ensures !IsUseBlas(c.opts[i])
      {
        if i < |base| {
          assert c.opts[i] == base[i];
        } else if i < k {
          assert c.opts[i] == mkl[i - |base|];
        } else {
          assert c.opts[i] == Enabled("USE_NNPACK");
        }
      }
    } else {
      assert c.opts == base;
    }
  }

  /**
   * A successful configuration appends nothing beyond the four environment
   * options, the imkl options, `USE_BLAS` and, with an NNPACK root,
   * `USE_NNPACK`: the imkl options directly follow the four, and without
   * NNPACK `USE_BLAS` is the last option.
   */
  lemma ConfiguredAppendsNothingElse(env: map<string, string>, tc: Toolchain)
    ensures var c := Configure(env, tc);
      c.outcome == Configured ==>
        var mkl := MklOptions(env, ToolchainBlas(tc).value, tc.imklAtLeast17);
        && |c.opts| == 4 + |mkl| + 1 + (if tc.nnpackRoot then 1 else 0)
        && c.opts[4..4 + |mkl|] == mkl
    ensures var c := Configure(env, tc);
      c.outcome == Configured && !tc.nnpackRoot ==> IsUseBlas(c.opts[|c.opts| - 1])
  {
  }

  /** `USE_MKL2017=1` is appended only for imkl, and then exactly when its version is at least 17. */
  lemma Mkl2017OnlyForNewImkl(env: map<string, string>, tc: Toolchain)
    ensures Enabled("USE_MKL2017") in Configure(env, tc).opts <==>
      ToolchainBlas(tc) == Success(Some("imkl")) && tc.imklAtLeast17
  {
  }

  /** `MKLML_ROOT` is appended exactly for imkl, carrying the value of `$MKLROOT`. */
  lemma MklmlRootOnlyForImkl(env: map<string, string>, tc: Toolchain)
    ensures (exists v :: Quoted("MKLML_ROOT", v) in Configure(env, tc).opts) <==>
      ToolchainBlas(tc) == Success(Some("imkl"))
    ensures ToolchainBlas(tc) == Success(Some("imkl")) ==>
      Quoted("MKLML_ROOT", Show(GetEnv(env, "MKLROOT"))) in Configure(env, tc).opts
  {
  }

  /**
   * A `None` BLAS name raises "No BLAS library found in the toolchain" with
   * only the four environment options appended: no `USE_BLAS`.
   */
  lemma NoBlasStopsBeforeUseBlas(env: map<string, string>, tc: Toolchain)
    requires ToolchainBlas(tc) == Success(None)
    ensures Configure(env, tc).outcome == NoBlasFound
    ensures Configure(env, tc).opts == BaseOptions(env)
    ensures forall o :: o in Configure(env, tc).opts ==> !IsUseBlas(o)
  {
  }

  /**
   * The BLAS lookup crashes without an entry or with an empty one, and a name
   * none of the branches knows leaves `blas` unbound; each time only the four
   * environment options have been appended.
   */
  lemma BlasFailureOutcomes(env: map<string, string>, tc: Toolchain)
    ensures tc.blasEntry == None ==> Configure(env, tc).outcome == BlasEntryMissing
    ensures tc.blasEntry == Some([]) ==> Configure(env, tc).outcome == BlasEntryEmpty
    ensures forall n ::
      (ToolchainBlas(tc) == Success(Some(n)) && n !in {"imkl", "ACML", "ATLAS", "OpenBLAS", "FlexiBLAS"}) ==>
        Configure(env, tc) == Configuration(BaseOptions(env), BlasUnknown(n))
  {
  }

  /** `USE_NNPACK=1` is appended exactly when configuration succeeds with an NNPACK root, right after `USE_BLAS`. */
  lemma NnpackAfterUseBlas(env: map<string, string>, tc: Toolchain)
    ensures var c := Configure(env, tc);
      Enabled("USE_NNPACK") in c.opts <==> c.outcome == Configured && tc.nnpackRoot
    ensures var c := Configure(env, tc);
      Enabled("USE_NNPACK") in c.opts ==>
        |c.opts| >= 2 && c.opts[|c.opts| - 1] == Enabled("USE_NNPACK") && IsUseBlas(c.opts[|c.opts| - 2])
  {
  }

  /** The easyblock's view of the easyconfig option `buildopts`. */
  class MXNetBuild {
    var buildopts: seq<BuildOpt>

    constructor (initial: seq<BuildOpt>)
      ensures buildopts == initial
    {
      buildopts := initial;
    }

    /** `self.cfg.update('buildopts', opt)`: append one option. */
    method Update(opt: BuildOpt)
      modifies this
      ensures buildopts == old(buildopts) + [opt]
    {
      buildopts := buildopts + [opt];
    }

    /** The loop over the four make variables set from the environment. */
    method AppendEnvironmentOptions(env: map<string, string>)
      modifies this
      ensures buildopts == old(buildopts) + BaseOptions(env)
    {
      var i := 0;
      while i < |BaseVars|
        invariant 0 <= i <= |BaseVars|
        invariant buildopts == old(buildopts) + BaseOptions(env)[..i]
      {
        var (makeVar, envVar) := BaseVars[i];
        Update(Quoted(makeVar, Show(GetEnv(env, envVar))));
        i := i + 1;
      }
      assert BaseOptions(env)[..i] == BaseOptions(env);
    }

    /**
     * The selection on the toolchain's BLAS name: the imkl options, then
     * `USE_BLAS`. Nothing is appended when the name is `None` (the error) or
     * unknown (`blas` is unbound when `USE_BLAS` is formatted).
     */
    method AppendBlasOptions(env: map<string, string>, toolchainBlas: Option<string>, atLeast17: bool)
      returns (choice: BlasChoice)
      modifies this
      ensures choice == SelectBlas(toolchainBlas)
      ensures buildopts == old(buildopts) +
        if choice.Blas? then MklOptions(env, toolchainBlas, atLeast17) + [Quoted("USE_BLAS", choice.lib)] else []
    {
      var blas: string;
      if toolchainBlas == Some("imkl") {
        blas := "mkl";
        if atLeast17 {
          Update(Enabled("USE_MKL2017"));
        }
        Update(Quoted("MKLML_ROOT", Show(GetEnv(env, "MKLROOT"))));
      } else if toolchainBlas == Some("ACML") || toolchainBlas == Some("ATLAS") {
        blas := "atlas";
      } else if toolchainBlas == Some("OpenBLAS") {
        blas := "openblas";
      } else if toolchainBlas == Some("FlexiBLAS") {
        blas := "flexiblas";
      } else if toolchainBlas.None? {
        return NoBlas;
      } else {
        return Unknown(toolchainBlas.value);
      }
      Update(Quoted("USE_BLAS", blas));
      choice := Blas(blas);
    }

    /**
     * `configure_step`: append the environment options, then the BLAS options,
     * then the NNPACK switch. What was already in `buildopts` stays in front.
     */
    method ConfigureStep(env: map<string, string>, tc: Toolchain) returns (outcome: Outcome)
      modifies this
      ensures buildopts == old(buildopts) + Configure(env, tc).opts
      ensures outcome == Configure(env, tc).outcome
    {
      AppendEnvironmentOptions(env);
      if tc.blasEntry.None? {
        return BlasEntryMissing;
      }
      if tc.blasEntry.value == [] {
        return BlasEntryEmpty;
      }
      var toolchainBlas := tc.blasEntry.value[0];
      var choice := AppendBlasOptions(env, toolchainBlas, tc.imklAtLeast17);
      match choice
      case NoBlas =>
        return NoBlasFound;
      case Unknown(name) =>
        return BlasUnknown(name);
      case Blas(_) =>
        if tc.nnpackRoot {
          Update(Enabled("USE_NNPACK"));
        }
        return Configured;
    }
  }
}
