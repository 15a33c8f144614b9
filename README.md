# tenv core: platform naming, the Atmos retriever and last-use tracking

This is a Dafny model of three parts of tenv, a manager for installed versions of
infrastructure-as-code command-line tools:

- **Platform namer** (`WinBin`, `pkg/winbin/winbin.go`). It picks the archive container
  (`.zip` on Windows, `.tar.gz` elsewhere) and the executable name (`.exe` on Windows). It
  also has `WriteSuffixTo`, which appends the suffix to a `strings.Builder`, modelled as
  class `WinBin.Builder`. An explicit `os` parameter stands in for `runtime.GOOS`.
- **Atmos retriever** (`AtmosRetriever`, `versionmanager/retriever/atmos/atmosretriever.go`).
  - Tag normalisation: a leading `v` is stripped for asset names and re-added for the tag.
  - Asset names: `atmos_<version>_<os>_<arch>[.exe]` and `atmos_<version>_SHA256SUMS`.
  - `Install` and `ListVersions`. Every collaborator is a field of `Collaborators` giving its
    result for its arguments: the remote configuration, `url.JoinPath`, the GitHub and HTML
    helpers, `ApplyURLTransformer`, `download.Bytes`, `sha256check.Check`, `os.MkdirAll`
    and `os.WriteFile`. Each operation returns the list of calls it made (an `Event`
    trace), so ordering and "nothing else happens" can be stated.
  - `InstallRun` is the specification of `Install`. The imperative method `Install`, with
    Go's early returns, is proved equal to it, and the properties are lemmas about
    `InstallRun`.
- **Last-use tracker** (`LastUse`, `versionmanager/lastuse/last.go`).
  - The host filesystem is class `LastUse.FileSystem`: a map from path to contents, the set
    of paths the operating system refuses, and the room left on the volume holding a path.
    A write that runs out of room leaves the file truncated, as `os.WriteFile` does after its
    truncating open.
  - `WriteNow` records today's date in `<dir>/last-use.txt`, unless the skip flag is set or
    looking it up failed. `Read` returns that date, or the zero date.
  - Dates are `DateOnly.Date` records. `DateOnly.Format` and `DateOnly.Parse` follow Go's
    `time.DateOnly` layout `2006-01-02`, and they are proved inverse to each other.
  - Today's date and the result of the environment lookup for the skip flag are parameters.

A failed lookup of the skip flag skips the write: in `WriteNow` (last.go:61-69) the error
case only logs, then falls through into the skip case's `return`. `LastUse.Skips` and
`LastUse.WriteNow` model that.

## Model

| member | source | states |
|---|---|---|
| `WinBin.GetArchiveFormat` | pkg/winbin/winbin.go:33-39 | the format is `.zip` exactly when the OS is `windows` and `.tar.gz` exactly when it is not |
| `WinBin.GetBinaryName` | pkg/winbin/winbin.go:41-47 | the name is unchanged on every OS but `windows`, and gets `.exe` appended on `windows` |
| `WinBin.GetBinaryNameInjective` | pkg/winbin/winbin.go:41-47 | for a fixed OS, distinct base names give distinct binary names |
| `WinBin.GetBinaryNameSuffix` | pkg/winbin/winbin.go:41-47 | the base name is a prefix of the binary name, and what follows it is `.exe` exactly on `windows` |
| `WinBin.WriteSuffixTo` | pkg/winbin/winbin.go:49-55 | the builder ends up holding `GetBinaryName(os, what it held)`; off Windows it returns `(0, no error)` and changes nothing; on Windows it returns the builder's `(4, no error)` |
| `AtmosRetriever.NormalizeTag` | versionmanager/retriever/atmos/atmosretriever.go:63-70 | the tag is always `"v" + version`; the input is the tag exactly when it starts with `v`, and it is the version exactly when it does not |
| `AtmosRetriever.NormalizeTagIdempotent` | versionmanager/retriever/atmos/atmosretriever.go:63-70 | normalising the resulting tag again gives the same pair |
| `AtmosRetriever.NormalizeTagBareOrTagged` | versionmanager/retriever/atmos/atmosretriever.go:63-70 | a bare version `x` (not starting with `v`) and `"v" + x` both give the pair (`"v" + x`, `x`) |
| `AtmosRetriever.BuildAssetNames` | versionmanager/retriever/atmos/atmosretriever.go:151-164 | with the builder, it produces the binary name `GetBinaryName(os, "atmos_" + v + "_" + os + "_" + arch)` and the sums name `"atmos_" + v + "_SHA256SUMS"` |
| `AtmosRetriever.AssetNamesShape` | versionmanager/retriever/atmos/atmosretriever.go:151-164 | both names start with `"atmos_" + v + "_"`; after that prefix, the binary name is the OS/arch part with its platform suffix and the sums name is `SHA256SUMS` |
| `AtmosRetriever.AssetNamesDistinct` | versionmanager/retriever/atmos/atmosretriever.go:151-164 | the binary name is never the sums name |
| `AtmosRetriever.BinaryAssetNameDeterminesVersion` | versionmanager/retriever/atmos/atmosretriever.go:151-164 | for a fixed OS and architecture, the binary name determines the version it was built from |
| `AtmosRetriever.SumsAssetNameDeterminesVersion` | versionmanager/retriever/atmos/atmosretriever.go:151-156 | the sums name determines the version it was built from |
| `AtmosRetriever.LocateCalls` | versionmanager/retriever/atmos/atmosretriever.go:78-93 | locating the assets makes only URL-locating calls, all successful when it succeeds; when it fails, it stops at the failing call, whose error it returns |
| `AtmosRetriever.InstallRun` | versionmanager/retriever/atmos/atmosretriever.go:57-121 | no collaborator is called exactly when `InitRemoteConf` fails, the version is empty, or the install mode is unsupported; these end with the `InitRemoteConf` error, a panic and `ErrInstallMode`, in that order of precedence |
| `AtmosRetriever.InstallStopsAtFirstFailure` | versionmanager/retriever/atmos/atmosretriever.go:57-121 | every call but the last succeeded; an error result is the last call's error; success and panics come only after a last call that succeeded |
| `AtmosRetriever.InstallWritesOnlyChecked` | versionmanager/retriever/atmos/atmosretriever.go:100-120 | both downloads carry the configured credentials; the check tests the two downloads right before it under the binary asset name; `MkdirAll(targetPath)` comes only right after a check that passed, and `WriteFile` only right after a successful `MkdirAll`, writing the checked binary bytes |
| `AtmosRetriever.InstallSucceedsInOrder` | versionmanager/retriever/atmos/atmosretriever.go:78-121 | on success the calls are exactly the locating calls, which returned URLs, followed by six more: rewrite those located URLs with the configured rule; download `urls[0]`, then `urls[1]`; check against the binary asset name; `MkdirAll(targetPath)`; write exactly the downloaded binary bytes to `targetPath/GetBinaryName(os, "atmos")` |
| `AtmosRetriever.InstallLocatesByTag` | versionmanager/retriever/atmos/atmosretriever.go:63-87 | Direct mode first joins `cloudposse/atmos/releases/download/<tag>` onto the remote URL, then asks for the (binary, sums) URLs under the joined base; API mode first asks GitHub for the (binary, sums) assets of the tag |
| `AtmosRetriever.InstallOkIffWritten` | versionmanager/retriever/atmos/atmosretriever.go:57-121 | `Install` succeeds if and only if its last call is the binary write and none of its calls failed |
| `AtmosRetriever.Install` | versionmanager/retriever/atmos/atmosretriever.go:57-121 | the imperative pipeline, with its early returns, returns exactly the result and the calls of `InstallRun` |
| `AtmosRetriever.ListVersions` | versionmanager/retriever/atmos/atmosretriever.go:123-149 | no call is made exactly when `InitRemoteConf` fails (its error is returned) or the list mode is unsupported (`ErrListMode`); HTML mode joins the releases path onto the list URL and, if that succeeds, asks the HTML lister for that page with the configured credentials, returning its result; API mode asks the GitHub lister for the list URL with the token, returning its result; nothing is downloaded or written; on success, the versions are exactly what the one listing call (the last call) returned; otherwise the error is the last call's |
| `DateOnly.Format` | versionmanager/lastuse/last.go:72 | a valid date is written as ten characters: four digits, `-`, two digits, `-`, two digits |
| `DateOnly.Parse` | versionmanager/lastuse/last.go:50 | any date the parser accepts is a real calendar date (month 1-12, day within the month, leap years counted) |
| `DateOnly.ParseFormat` | versionmanager/lastuse/last.go:50-72 | parsing a formatted valid date gives it back |
| `DateOnly.FormatParse` | versionmanager/lastuse/last.go:50-72 | the parser accepts only the canonical text: formatting what it returns reproduces its input |
| `DateOnly.FormatInjective` | versionmanager/lastuse/last.go:72 | distinct valid dates are written differently |
| `LastUse.Read` | versionmanager/lastuse/last.go:42-58 | when `last-use.txt` is missing or unreadable, the result is the zero date (year 1, January 1); when it does not parse, also the zero date; otherwise it is the parsed date; the result is always a valid date |
| `LastUse.ReadNonZero` | versionmanager/lastuse/last.go:42-58 | a non-zero result means the file is readable and holds exactly the canonical text of that date |
| `LastUse.WriteNow` | versionmanager/lastuse/last.go:37-77 | with the flag set or its lookup failed, the files and what `Read` returns are unchanged; otherwise nothing changes when the OS refuses the write; a completed write sets `dirPath/last-use.txt` to today as `YYYY-MM-DD`, and `Read` then returns today; a write cut short leaves the truncated text there, and `Read` then returns the zero date; `Read` through every other path is unchanged; nothing is reported to the caller |
| `LastUse.ReadAfterWrite` | versionmanager/lastuse/last.go:42-74 | once `last-use.txt` holds today's formatted date and is readable, which is the state a performed `WriteNow` leaves, `Read` returns today |

## Left out

- Logging and display (`Displayer.Log`, `Display`, `IsDebug`, the level `LevelWarnOrDebug`
  picks): side channels with no effect on results. `LastUse.IoError` still tells a missing
  file from a refused one.
- `context` cancellation, file permission bits (`rwePerm`, `fileperm.RW`) and concurrency
  between installs or last-use writers.
- The internals of the collaborators: `url.JoinPath` escaping, `ApplyURLTransformer` rewrite
  rules, the GitHub API and HTML scraping helpers, network transfer in `download.Bytes`,
  and SHA-256 and manifest parsing in `sha256check.Check`. Their code is not part of this
  model. Each one is a function that may fail, and a download gives the same result for the
  same URL and credentials.
- `config.GetBasicAuthOption` and `Getenv.Bool`: the model takes the credentials they produce
  (`Config.basicAuth`) and the `(value, error)` pair of the skip-flag lookup as inputs.
- `r.conf.Atmos.Data`, passed to the HTML release lister, is part of that collaborator
  (`Collaborators.listHTML`).
- `Make`, which only wraps the configuration: `Install` and `ListVersions` take the `Config`.
- The values of `cmdconst.AtmosName`, `github.Releases` and `github.Download` are taken to be
  `atmos`, `releases` and `download`. Those packages are not part of this model.
- Go runtime panics (`tag[0]` on an empty version; `assetURLs[0]` or `assetURLs[1]` when the
  collaborators return fewer URLs) are the outcome `Status.Panic`, not an abort of the process.
- Strings are sequences of characters. The byte operations `tag[0]` and `versionStr[1:]`,
  and byte counts such as `WriteString`'s, agree with that model for ASCII text only.
- `filepath.Join` is modelled for a directory and a plain file name, with `/` as the separator:
  `Clean` (which removes `.`, `..` and doubled separators) and the Windows separator are not
  modelled.
- Directories of the host filesystem and the reasons a read or write is refused: a set of
  refused paths stands for them. Free space is a fixed room per path that writes do not use
  up, and a write cut short keeps exactly the characters that fit. The `MkdirAll` and `WriteFile` calls of `Install` are
  collaborator results, not operations on `LastUse.FileSystem`.
- `time.Now` and time zones: today's date is a parameter, required to be a valid date with
  a year of at most four digits. Go writes larger years with more digits, and the model does
  not cover them.
- LastUse.WriteNow: the clause that `Read` of every other directory is unchanged holds because
  the model's `Join` is injective in the directory. Go's `filepath.Join` cleans its result, so
  directories such as `a` and `a/`, or `.` and the empty string, name the same file. The
  clause over distinct paths holds in Go as well.
- WinBin.WriteSuffixTo: modelled only for the `strings.Builder` writer the core passes, which
  never fails; a failing `io.StringWriter` is not modelled.
