/** The build script's `main`: from a snapshot of the environment and the
    outcome of the pkg-config probe, the lines it prints, in order, and
    whether it finishes or panics. */
module BuildScript {
  import opened Wrappers
  import opened Text
  import opened Mingw

  /** The environment as the script reads it. */
  datatype Env = Env(
    target: Option<string>,      // TARGET
    libDir: Option<string>,      // OPENSSL_LIB_DIR
    includeDir: Option<string>,  // OPENSSL_INCLUDE_DIR
    libs: Option<string>,        // OPENSSL_LIBS
    staticRequested: bool,       // OPENSSL_STATIC is present
    path: Option<seq<string>>)   // PATH, already split into its entries

  /** What a successful `pkg_config` probe for "openssl" reports. */
  datatype ProbeInfo = ProbeInfo(libs: seq<string>, linkPaths: seq<string>, includePaths: seq<string>)

  /** Why the script panics: `TARGET` unset (the `unwrap` of line 7), or an
      include path that `env::join_paths` refuses (the `unwrap` of line 46). */
  datatype PanicCause = TargetUnset | IncludePathHasSeparator

  datatype Exit = Success | Panic(cause: PanicCause)

  /** Everything a run produces: the printed lines and how it ends. */
  datatype Outcome = Outcome(lines: seq<string>, exit: Exit)

  /** The non-directive line printed before anything else. */
  const Marker: string := "openssl-sys-custom"

  /** The separator `env::join_paths` uses on a Unix host. The separator
      depends on the host that runs the script, not on `TARGET`; Windows hosts
      are not modelled. */
  const PathListSep: char := ':'

  /** The separator of `OPENSSL_LIBS`. */
  const LibsSep: char := ':'

  function NativeSearch(dir: string): string {
    "cargo:rustc-link-search=native=" + dir
  }

  /** The search directive scoped to one library's files in one directory. */
  function ScopedSearch(path: string, lib: string): string {
    "cargo:rustc-link-search=native=" + path + "/lib" + lib + "*"
  }

  /** The link directive without a mode, used on the probe path. */
  function LinkLib(lib: string): string {
    "cargo:rustc-link-lib=" + lib
  }

  /** The link directive with a mode, used on the fallback path. */
  function LinkLibMode(mode: string, lib: string): string {
    "cargo:rustc-link-lib=" + mode + "=" + lib
  }

  function Include(paths: string): string {
    "cargo:include=" + paths
  }

  predicate IsNacl(target: string) {
    EndsWith(target, "nacl")
  }

  predicate IsWindows(target: string) {
    Contains(target, "windows")
  }

  /** Neither `OPENSSL_LIB_DIR` nor `OPENSSL_INCLUDE_DIR` is set. */
  predicate NoDirOverride(env: Env) {
    env.libDir.None? && env.includeDir.None?
  }

  /** The script reaches the pkg-config probe. */
  predicate ProbeAttempted(env: Env) {
    && env.target.Some?
    && !IsNacl(env.target.value)
    && NoDirOverride(env)
    && !IsWindows(env.target.value)
  }

  /** Unix `env::join_paths`: fails when an entry contains the separator,
      otherwise the entries joined by it, from which splitting recovers them. */
  function JoinPaths(paths: seq<string>): (r: Option<string>)
    ensures r.Some? <==> forall k :: 0 <= k < |paths| ==> PathListSep !in paths[k]
    ensures r.Some? && |paths| > 0 ==> Split(r.value, PathListSep) == paths
  {
    if forall k :: 0 <= k < |paths| ==> PathListSep !in paths[k] then
      if |paths| == 0 then Some([])
      else
        SplitJoin(paths, PathListSep);
        Some(Join(paths, PathListSep))
    else None
  }

  /** The blocks of lines, concatenated in order. */
  function Concat(blocks: seq<seq<string>>): seq<string>
    decreases |blocks|
  {
    if blocks == [] then [] else Concat(blocks[..|blocks| - 1]) + blocks[|blocks| - 1]
  }

  /** The lines the probe path prints for one library: a scoped search line
      per link path, then the library itself. */
  function ProbeBlock(paths: seq<string>, lib: string): seq<string> {
    seq(|paths|, j requires 0 <= j < |paths| => ScopedSearch(paths[j], lib)) + [LinkLib(lib)]
  }

  function ProbeBlocks(info: ProbeInfo): seq<seq<string>> {
    seq(|info.libs|, i requires 0 <= i < |info.libs| => ProbeBlock(info.linkPaths, info.libs[i]))
  }

  /** All link lines of the probe path, library by library. */
  function ProbeLinkLines(info: ProbeInfo): seq<string> {
    Concat(ProbeBlocks(info))
  }

  /** What the probe path prints after the marker, and how it ends. */
  function ProbeOutcome(info: ProbeInfo): Outcome {
    var lines := [Marker] + ProbeLinkLines(info);
    if |info.includePaths| == 0 then Outcome(lines, Success)
    else
      match JoinPaths(info.includePaths)
      case None => Outcome(lines, Panic(IncludePathHasSeparator))
      case Some(joined) => Outcome(lines + [Include(joined)], Success)
  }

  function SearchLines(dirs: seq<string>): seq<string> {
    seq(|dirs|, k requires 0 <= k < |dirs| => NativeSearch(dirs[k]))
  }

  /** The search lines for the PATH entries that mention mingw; printed only
      when neither directory override is set. */
  function MingwLines(env: Env): seq<string> {
    if NoDirOverride(env) then
      match MingwInPath(env.path)
      case None => []
      case Some(dirs) => SearchLines(dirs)
    else []
  }

  /** The libraries the fallback path links. */
  function LibNames(env: Env, target: string): seq<string> {
    match env.libs
    case Some(v) => Split(v, LibsSep)
    case None =>
      if IsWindows(target) then
        if MingwInPath(env.path).Some? && NoDirOverride(env) then ["ssleay32", "eay32"]
        else ["ssl32", "eay32"]
      else ["ssl", "crypto"]
  }

  function Mode(env: Env): string {
    if env.staticRequested then "static" else "dylib"
  }

  function LinkModeLines(mode: string, libs: seq<string>): seq<string> {
    seq(|libs|, k requires 0 <= k < |libs| => LinkLibMode(mode, libs[k]))
  }

  function LibDirLines(env: Env): seq<string> {
    if env.libDir.Some? then [NativeSearch(env.libDir.value)] else []
  }

  function IncludeDirLines(env: Env): seq<string> {
    if env.includeDir.Some? then [Include(env.includeDir.value)] else []
  }

  /** Everything the fallback path prints: the marker, the mingw search
      lines, the library directory, the link lines, the include directory. */
  function FallbackLines(env: Env, target: string): seq<string> {
    [Marker] + MingwLines(env) + LibDirLines(env) + LinkModeLines(Mode(env), LibNames(env, target)) + IncludeDirLines(env)
  }

  /** The whole run, as a function of the environment and of what the probe
      would report if it ran. The marker always comes first. */
  function Expected(env: Env, probe: Option<ProbeInfo>): (r: Outcome)
    ensures |r.lines| >= 1 && r.lines[0] == Marker
  {
    match env.target
    case None => Outcome([Marker], Panic(TargetUnset))
    case Some(target) =>
      if IsNacl(target) then Outcome([Marker], Success)
      else if ProbeAttempted(env) && probe.Some? then ProbeOutcome(probe.value)
      else Outcome(FallbackLines(env, target), Success)
  }

  /** The nested loops of the probe path (lines 30-42): appends, for each
      library in order, one scoped search line per link path and then the
      library's own link line. */
  method EmitProbeLinks(out0: seq<string>, info: ProbeInfo) returns (out: seq<string>)
    ensures out == out0 + ProbeLinkLines(info)
  {
    out := out0;
    ghost var blocks := ProbeBlocks(info);
    var i := 0;
    while i < |info.libs|
      invariant 0 <= i <= |info.libs|
      invariant out == out0 + Concat(blocks[..i])
    {
      var lib := info.libs[i];
      var j := 0;
      while j < |info.linkPaths|
        invariant 0 <= j <= |info.linkPaths|
        invariant out == out0 + Concat(blocks[..i]) + blocks[i][..j]
      {
        out := out + [ScopedSearch(info.linkPaths[j], lib)];
        j := j + 1;
      }
      out := out + [LinkLib(lib)];
      assert blocks[i][..j] + [LinkLib(lib)] == blocks[i];
      assert blocks[..i + 1][..i] == blocks[..i];
      i := i + 1;
    }
    assert blocks[..i] == blocks;
  }

  /** The loop of lines 53-55: one search line per directory, in order. */
  method EmitSearchLines(out0: seq<string>, dirs: seq<string>) returns (out: seq<string>)
    ensures out == out0 + SearchLines(dirs)
  {
    out := out0;
    var k := 0;
    while k < |dirs|
      invariant 0 <= k <= |dirs|
      invariant out == out0 + SearchLines(dirs)[..k]
    {
      out := out + [NativeSearch(dirs[k])];
      k := k + 1;
    }
    assert SearchLines(dirs)[..k] == SearchLines(dirs);
  }

  /** The loop of lines 83-85: one link line with the mode per library, in
      order. */
  method EmitLinkModeLines(out0: seq<string>, mode: string, libs: seq<string>) returns (out: seq<string>)
    ensures out == out0 + LinkModeLines(mode, libs)
  {
    out := out0;
    var k := 0;
    while k < |libs|
      invariant 0 <= k <= |libs|
      invariant out == out0 + LinkModeLines(mode, libs)[..k]
    {
      out := out + [LinkLibMode(mode, libs[k])];
      k := k + 1;
    }
    assert LinkModeLines(mode, libs)[..k] == LinkModeLines(mode, libs);
  }

  /** `main`, printing by appending to `out`. */
  method RunBuildScript(env: Env, probe: Option<ProbeInfo>) returns (out: seq<string>, exit: Exit)
    ensures Outcome(out, exit) == Expected(env, probe)
  {
    out := [Marker];
    if env.target.None? {
      exit := Panic(TargetUnset);
      return;
    }
    var target := env.target.value;
    if IsNacl(target) {
      exit := Success;
      return;
    }
    var libDir, includeDir := env.libDir, env.includeDir;

    if libDir.None? && includeDir.None? {
      if !IsWindows(target) && probe.Some? {
        var info := probe.value;
        out := EmitProbeLinks(out, info);
        if |info.includePaths| > 0 {
          var joined := JoinPaths(info.includePaths);
          if joined.None? {
            exit := Panic(IncludePathHasSeparator);
            return;
          }
          out := out + [Include(joined.value)];
        }
        exit := Success;
        return;
      }
      var mingw := MingwInPath(env.path);
      if mingw.Some? {
        out := EmitSearchLines(out, mingw.value);
      }
    }
    assert out == [Marker] + MingwLines(env);

    var libs: seq<string>;
    match env.libs {
      case Some(v) =>
        libs := Split(v, LibsSep);
      case None =>
        if IsWindows(target) {
          if MingwInPath(env.path).Some? && libDir.None? && includeDir.None? {
            libs := ["ssleay32", "eay32"];
          } else {
            libs := ["ssl32", "eay32"];
          }
        } else {
          libs := ["ssl", "crypto"];
        }
    }

    assert libs == LibNames(env, target);
    var mode := if env.staticRequested then "static" else "dylib";
    assert mode == Mode(env);

    ghost var mingwPart := out;
    if libDir.Some? {
      out := out + [NativeSearch(libDir.value)];
    }
    ghost var dirPart := out;
    assert dirPart == mingwPart + LibDirLines(env);
    out := EmitLinkModeLines(out, mode, libs);
    ghost var linkPart := out;
    if includeDir.Some? {
      out := out + [Include(includeDir.value)];
    }
    assert out == linkPart + IncludeDirLines(env);
    assert out == FallbackLines(env, target);
    exit := Success;
  }
}
