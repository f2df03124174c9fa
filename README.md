# openssl-sys build script, modelled in Dafny

This project models the Cargo build script of `openssl-sys`
(`openssl-sys/build.rs`). The script finds an OpenSSL installation and prints
the `cargo:` directives that tell Cargo where to search for libraries, which
libraries to link and where the headers are. Without its I/O it is a
deterministic procedure. It reads a snapshot of the environment and returns
the ordered lines it prints and whether it finishes or panics.

- `Wrappers` (`wrappers.dfy`): `Option`.
- `Text` (`text.dfy`): the Rust string operations the script uses.
  These are `ends_with`, `contains`, `to_ascii_lowercase` and `split(":")`,
  plus joining with a separator. They come with the substring
  characterisation and the split/join round trips.
- `Mingw` (`mingw.dfy`): `get_mingw_in_path` as a recursive filter over the
  PATH entries. Its lemmas cover emptiness, order (subsequence, distribution
  over `+`) and idempotence.
- `BuildScript` (`build_script.dfy`): the environment snapshot `Env`, the
  probe result `ProbeInfo`, and the specification function `Expected`.
  `Expected` gives the whole run declaratively, with blocks of lines built
  by comprehension. `RunBuildScript` is `main` written as in the source. It
  appends lines to an output sequence, returns early where the source does,
  and has loops for the nested library × path emission, the mingw search
  lines and the mode link lines. It is proved equal to `Expected`.
- `BuildScriptProperties` (`properties.dfy`): lemmas about `Expected`. They
  cover which directives appear, how many, in what order, and which branch
  cuts off the rest.

The pkg-config probe is an input, not a call. `probe: Option<ProbeInfo>` is
what `conf.probe("openssl")` would return if the script reached it. The
lemma `ProbeSkipped` shows that the outcome does not depend on it when the
script does not reach it.

Code details the model follows:
- Line 6 prints the marker `openssl-sys-custom` before `TARGET` is read. A
  nacl target therefore still prints this one line, and so does a missing
  `TARGET` before it panics. It is not a `cargo:` directive.
- Line 6 has no semicolon, so the file as written does not compile. The
  model treats it as the statement that was evidently meant.
- The mingw search lines (lines 52-56) are printed whenever neither directory
  override is set and the probe did not succeed. This includes non-Windows
  targets.
- On a Unix host, `env::join_paths` (line 46) fails when an include path contains
  `:`. The `unwrap` then panics after the link lines. This is modelled as
  `Panic(IncludePathHasSeparator)`.
- On the probe path, "no mode on the link line" is a fact about the form of
  the line, not its text. A pkg-config library literally named `static=x`
  prints the same text as a static mode line. `ProbeLinkLinesAt` states the
  structural form.

## Model

| member | source | states |
|---|---|---|
| Text.ContainsIff | openssl-sys/build.rs:17 | `contains` holds exactly when some window of the text spells the pattern |
| Text.ToAsciiLower | openssl-sys/build.rs:100 | lower-casing keeps the length, leaves no ASCII capital, and changes only ASCII capitals, each by +32 |
| Text.ToAsciiLowerSlice | openssl-sys/build.rs:100 | lower-casing commutes with taking a window and is idempotent |
| Text.Split | openssl-sys/build.rs:61 | `split(":")` gives one more piece than there are separators, and no piece holds a separator |
| Text.JoinSplit | openssl-sys/build.rs:61 | joining the pieces of a split with the separator gives the original text back |
| Text.SplitJoin | openssl-sys/build.rs:46-47 | splitting a join of separator-free pieces gives the pieces back |
| Mingw.MingwEntries | openssl-sys/build.rs:95-106 | the filter returns at most as many entries as PATH has, and only matching PATH entries; every matching entry is kept |
| Mingw.MingwInPath | openssl-sys/build.rs:92-112 | `None` exactly when PATH is unset or no entry matches; otherwise a non-empty list, the filter of PATH |
| Mingw.MingwEntriesInOrder | openssl-sys/build.rs:95-106 | the result is an in-order subsequence of PATH |
| Mingw.MingwEntriesAppend | openssl-sys/build.rs:95-106 | filtering distributes over concatenation, so PATH order is kept |
| Mingw.MingwEntriesIdempotent | openssl-sys/build.rs:95-106 | filtering the result again changes nothing |
| Mingw.MingwWindow | openssl-sys/build.rs:100 | an entry matches exactly when some five-character window of it spells "mingw" ignoring ASCII case |
| BuildScript.JoinPaths | openssl-sys/build.rs:46 | `join_paths` on a Unix host succeeds exactly when no path holds ':', and splitting its result recovers the paths |
| BuildScript.Expected | openssl-sys/build.rs:5-90 | every run prints the marker line first |
| BuildScript.EmitProbeLinks | openssl-sys/build.rs:30-42 | the nested loops append exactly the probe link lines, library by library |
| BuildScript.EmitSearchLines | openssl-sys/build.rs:52-56 | the loop appends one native search line per mingw directory, in order |
| BuildScript.EmitLinkModeLines | openssl-sys/build.rs:83-85 | the loop appends one `rustc-link-lib=<mode>=<lib>` line per library, in order |
| BuildScript.RunBuildScript | openssl-sys/build.rs:5-90 | the imperative `main` prints exactly the lines of `Expected` and ends as it says |
| BuildScriptProperties.ProbeLinkLinesCount | openssl-sys/build.rs:30-42 | the probe path prints \|libs\|·\|paths\| + \|libs\| link lines |
| BuildScriptProperties.ProbeLinkLinesAt | openssl-sys/build.rs:30-42 | library i's block holds its scoped search line per link path in order, then its mode-less link line |
| BuildScriptProperties.ProbeSuccessShortCircuits | openssl-sys/build.rs:15-50 | on probe success PATH, `OPENSSL_LIBS` and `OPENSSL_STATIC` cannot change the run; it starts with the marker and the probe link lines and has at most one more line |
| BuildScriptProperties.ProbeIncludeLine | openssl-sys/build.rs:44-48 | an include line follows exactly when include paths exist; it carries them all joined with ':'; a path holding ':' panics after the link lines |
| BuildScriptProperties.MissingTargetPanics | openssl-sys/build.rs:6-7 | without `TARGET`: the marker, then a panic |
| BuildScriptProperties.NaclPrintsOnlyMarker | openssl-sys/build.rs:6-10 | a target ending in "nacl" prints only the marker and no `cargo:` line |
| BuildScriptProperties.LibsOverrideVerbatim | openssl-sys/build.rs:59-61 | `OPENSSL_LIBS` gives its ':'-pieces in order, empty ones included, whatever the target or PATH |
| BuildScriptProperties.LibsOverrideExample | openssl-sys/build.rs:61 | `OPENSSL_LIBS="foo:bar"` selects exactly foo, bar |
| BuildScriptProperties.DefaultLibNames | openssl-sys/build.rs:62-70 | default names: ssl/crypto off Windows; on Windows ssleay32/eay32 exactly when a PATH entry mentions mingw and no override is set, else ssl32/eay32 |
| BuildScriptProperties.FallbackLayout | openssl-sys/build.rs:73-89 | fallback order: mingw lines, lib-dir line if set, one mode link line per library in order, include-dir line if set; mode is static exactly when `OPENSSL_STATIC` is present |
| BuildScriptProperties.MingwLinesFromPath | openssl-sys/build.rs:52-56 | mingw search lines name the matching PATH entries in order, and only when neither override is set |
| BuildScriptProperties.ProbeSkipped | openssl-sys/build.rs:15-17 | with a directory override or a Windows target the probe's outcome cannot change the run |
| BuildScriptProperties.BothDirsSet | openssl-sys/build.rs:79-89 | with both overrides: exactly marker, lib-dir line, mode link lines, include-dir line |

## Left out

- Reading the process environment (`env::var`, `env::var_os`) is not modelled. The script's inputs are the fields of `Env`.
- The `pkg_config` crate (lines 1, 19-24) is not modelled. Its probe result is the `probe` parameter, a failed probe is `None`, and `cargo_metadata(false)` is not modelled.
- Printing to stdout is not modelled, nor how Cargo reads the `cargo:` lines (including the `lib<name>*` suffix). The output is a sequence of strings.
- `OsString` and `PathBuf` are not modelled, and all paths are strings. So the `to_str().unwrap()` panics at lines 35 and 47 cannot happen. The non-UTF-8 PATH entries that line 104 drops do not exist either.
- `env::split_paths` is not modelled: PATH is given already split into entries. `env::join_paths` is modelled as on a Unix host (':'). Its separator depends on the host that runs the script, not on `TARGET`, so a Windows host building for a non-Windows target reaches the probe; Windows hosts (';', quoting of entries holding ';', failure only on '"') are not modelled.
- Idempotence across runs (two runs with the same inputs print the same lines) holds because `Expected` is a function. It has no lemma of its own.
