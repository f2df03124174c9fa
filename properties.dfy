/** What the build script promises, proved about the specification
    `BuildScript.Expected` that `BuildScript.RunBuildScript` is verified
    against. */
module BuildScriptProperties {
  import opened Wrappers
  import opened Text
  import opened Mingw
  import opened BuildScript

  // ---------------------------------------------------------------------
  // Layout of concatenated blocks of equal length
  // ---------------------------------------------------------------------

  /** Blocks that all have `k` lines give `|blocks| * k` lines. */
  lemma {:induction false} ConcatUniformLength(blocks: seq<seq<string>>, k: nat)
    requires forall i :: 0 <= i < |blocks| ==> |blocks[i]| == k
    ensures |Concat(blocks)| == |blocks| * k
    decreases |blocks|
  {
    if blocks != [] {
      var n := |blocks|;
      ConcatUniformLength(blocks[..n - 1], k);
      assert (n - 1) * k + k == n * k;
    }
  }

  /** Line `j` of block `i` sits at `i * k + j` of the concatenation. */
  lemma {:induction false} ConcatUniformAt(blocks: seq<seq<string>>, k: nat, i: int, j: int)
    requires forall b :: 0 <= b < |blocks| ==> |blocks[b]| == k
    requires 0 <= i < |blocks| && 0 <= j < k
    ensures i * k + j < |Concat(blocks)| && Concat(blocks)[i * k + j] == blocks[i][j]
    decreases |blocks|
  {
    var n := |blocks|;
    var init := blocks[..n - 1];
    ConcatUniformLength(init, k);
    ConcatUniformLength(blocks, k);
    if i < n - 1 {
      ConcatUniformAt(init, k, i, j);
    } else {
      assert i * k == (n - 1) * k;
    }
  }

  // ---------------------------------------------------------------------
  // Probe path (lines 15-50)
  // ---------------------------------------------------------------------

  /** The probe path prints |libs|·|paths| scoped search lines and |libs|
      link lines. */
  lemma ProbeLinkLinesCount(info: ProbeInfo)
    ensures |ProbeLinkLines(info)| == |info.libs| * |info.linkPaths| + |info.libs|
  {
    var k := |info.linkPaths| + 1;
    ConcatUniformLength(ProbeBlocks(info), k);
    assert |info.libs| * k == |info.libs| * |info.linkPaths| + |info.libs|;
  }

  /** For library `i`, its scoped search lines come first, one per link path
      in order, then its mode-less link line. */
  lemma ProbeLinkLinesAt(info: ProbeInfo, i: int, j: int)
    requires 0 <= i < |info.libs| && 0 <= j <= |info.linkPaths|
    ensures i * (|info.linkPaths| + 1) + j < |ProbeLinkLines(info)|
    ensures ProbeLinkLines(info)[i * (|info.linkPaths| + 1) + j] ==
      if j < |info.linkPaths| then ScopedSearch(info.linkPaths[j], info.libs[i])
      else LinkLib(info.libs[i])
  {
    ConcatUniformAt(ProbeBlocks(info), |info.linkPaths| + 1, i, j);
  }

  /** When the probe is reached and succeeds, the run stops after the probe's
      own lines: nothing of the mingw search, of `OPENSSL_LIBS`, of
      `OPENSSL_STATIC` or of the fallback directives can change it. */
  lemma ProbeSuccessShortCircuits(env: Env, env': Env, info: ProbeInfo)
    requires ProbeAttempted(env)
    requires env'.target == env.target && NoDirOverride(env')
    ensures Expected(env, Some(info)) == Expected(env', Some(info))
    ensures Expected(env, Some(info)).lines[..1 + |ProbeLinkLines(info)|] == [Marker] + ProbeLinkLines(info)
    ensures |Expected(env, Some(info)).lines| <= 2 + |info.libs| * |info.linkPaths| + |info.libs|
  {
    ProbeLinkLinesCount(info);
  }

  /** On probe success an include line follows exactly when there are include
      paths; it carries all of them, recoverable by splitting at ':'. An
      include path holding ':' makes `join_paths` fail and the run panic
      after the link lines. */
  lemma ProbeIncludeLine(env: Env, info: ProbeInfo)
    requires ProbeAttempted(env)
    ensures var r := Expected(env, Some(info));
      && (|info.includePaths| == 0 ==>
            r == Outcome([Marker] + ProbeLinkLines(info), Success))
      && (|info.includePaths| > 0 && (forall k :: 0 <= k < |info.includePaths| ==> PathListSep !in info.includePaths[k]) ==>
            && r.exit == Success
            && r.lines == [Marker] + ProbeLinkLines(info) + [Include(Join(info.includePaths, PathListSep))]
            && Split(Join(info.includePaths, PathListSep), PathListSep) == info.includePaths)
      && ((exists k :: 0 <= k < |info.includePaths| && PathListSep in info.includePaths[k]) ==>
            r == Outcome([Marker] + ProbeLinkLines(info), Panic(IncludePathHasSeparator)))
  {
  }

  // ---------------------------------------------------------------------
  // Early exits (lines 5-10)
  // ---------------------------------------------------------------------

  /** Without `TARGET` the run prints the marker and panics. */
  lemma MissingTargetPanics(env: Env, probe: Option<ProbeInfo>)
    requires env.target.None?
    ensures Expected(env, probe) == Outcome([Marker], Panic(TargetUnset))
  {
  }

  /** A nacl target prints only the marker and no `cargo:` directive. */
  lemma NaclPrintsOnlyMarker(env: Env, probe: Option<ProbeInfo>)
    requires env.target.Some? && IsNacl(env.target.value)
    ensures Expected(env, probe) == Outcome([Marker], Success)
    ensures forall k :: 0 <= k < |Expected(env, probe).lines| ==> !StartsWith(Expected(env, probe).lines[k], "cargo:")
  {
    assert Marker[..6] != "cargo:" by {
      assert Marker[0] != 'c';
    }
  }

  // ---------------------------------------------------------------------
  // Library names (lines 59-71)
  // ---------------------------------------------------------------------

  /** `OPENSSL_LIBS` is used verbatim: its `:`-separated pieces in order,
      empty ones included, whatever the target or PATH. */
  lemma LibsOverrideVerbatim(env: Env, target: string, env': Env, target': string)
    requires env.libs.Some? && env'.libs == env.libs
    ensures LibNames(env, target) == LibNames(env', target')
    ensures Join(LibNames(env, target), LibsSep) == env.libs.value
    ensures |LibNames(env, target)| == Count(env.libs.value, LibsSep) + 1
    ensures forall k :: 0 <= k < |LibNames(env, target)| ==> LibsSep !in LibNames(env, target)[k]
  {
    JoinSplit(env.libs.value, LibsSep);
  }

  /** `OPENSSL_LIBS="foo:bar"` selects exactly foo and bar. */
  lemma LibsOverrideExample(env: Env, target: string)
    requires env.libs == Some("foo:bar")
    ensures LibNames(env, target) == ["foo", "bar"]
  {
    SplitJoin(["foo", "bar"], LibsSep);
    assert Join(["foo", "bar"], LibsSep) == "foo:bar";
  }

  /** Without `OPENSSL_LIBS`: ssl and crypto off Windows; on Windows ssleay32
      and eay32 exactly when some PATH entry mentions mingw and neither
      directory override is set, ssl32 and eay32 otherwise. */
  lemma DefaultLibNames(env: Env, target: string)
    requires env.libs.None?
    ensures !IsWindows(target) ==> LibNames(env, target) == ["ssl", "crypto"]
    ensures IsWindows(target) ==>
      (LibNames(env, target) == ["ssleay32", "eay32"] <==>
        NoDirOverride(env) && env.path.Some? && exists e :: e in env.path.value && IsMingw(e))
    ensures IsWindows(target) ==>
      LibNames(env, target) == ["ssleay32", "eay32"] || LibNames(env, target) == ["ssl32", "eay32"]
  {
  }

  // ---------------------------------------------------------------------
  // Fallback path (lines 52-89)
  // ---------------------------------------------------------------------

  /** The fallback path prints, after the marker and the mingw search lines,
      the `OPENSSL_LIB_DIR` search line if set, one link line with the mode
      per library in order, then the `OPENSSL_INCLUDE_DIR` line if set. */
  lemma FallbackLayout(env: Env, probe: Option<ProbeInfo>)
    requires env.target.Some? && !IsNacl(env.target.value)
    requires !(ProbeAttempted(env) && probe.Some?)
    ensures var r := Expected(env, probe);
      var libs := LibNames(env, env.target.value);
      var base := 1 + |MingwLines(env)| + |LibDirLines(env)|;
      && r.exit == Success
      && |r.lines| == base + |libs| + |IncludeDirLines(env)|
      && (forall k :: 0 <= k < |MingwLines(env)| ==> r.lines[1 + k] == MingwLines(env)[k])
      && (env.libDir.Some? ==> r.lines[base - 1] == NativeSearch(env.libDir.value))
      && (forall k :: 0 <= k < |libs| ==> r.lines[base + k] == LinkLibMode(Mode(env), libs[k]))
      && (env.includeDir.Some? ==> r.lines[|r.lines| - 1] == Include(env.includeDir.value))
      && (Mode(env) == "static" <==> env.staticRequested)
  {
  }

  /** The mingw search lines name the matching PATH entries in PATH order,
      and appear only when neither directory override is set. */
  lemma MingwLinesFromPath(env: Env)
    ensures !NoDirOverride(env) || env.path.None? ==> MingwLines(env) == []
    ensures NoDirOverride(env) && env.path.Some? ==>
      && |MingwLines(env)| == |MingwEntries(env.path.value)|
      && (forall k :: 0 <= k < |MingwLines(env)| ==> MingwLines(env)[k] == NativeSearch(MingwEntries(env.path.value)[k]))
      && IsSubsequence(MingwEntries(env.path.value), env.path.value)
  {
    if env.path.Some? {
      MingwEntriesInOrder(env.path.value);
    }
  }

  /** With either directory override set, or on a Windows target, the probe
      is never consulted: its outcome cannot change the run. */
  lemma ProbeSkipped(env: Env, p1: Option<ProbeInfo>, p2: Option<ProbeInfo>)
    requires !NoDirOverride(env) || (env.target.Some? && IsWindows(env.target.value))
    ensures !ProbeAttempted(env)
    ensures Expected(env, p1) == Expected(env, p2)
  {
  }

  /** With both directory overrides set the run prints exactly the marker, the
      library directory, one link line per library with the mode, and the
      include directory. */
  lemma BothDirsSet(env: Env, probe: Option<ProbeInfo>)
    requires env.target.Some? && !IsNacl(env.target.value)
    requires env.libDir.Some? && env.includeDir.Some?
    ensures Expected(env, probe) == Outcome(
      [Marker, NativeSearch(env.libDir.value)]
        + LinkModeLines(Mode(env), LibNames(env, env.target.value))
        + [Include(env.includeDir.value)],
      Success)
  {
  }
}
