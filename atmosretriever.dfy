/** The Atmos retriever (versionmanager/retriever/atmos): installs one Atmos release and
    lists the available ones. Every collaborator (remote configuration, URL joining, the
    GitHub and HTML helpers, URL rewriting, downloads, the SHA-256 check and the file
    system) is an input; `Install` and `ListVersions` return the calls they made, in order. */
module AtmosRetriever {
  import opened Wrappers
  import opened WinBin
  import FilePath

  const BaseFileName := "atmos_"
  const CloudposseName := "cloudposse"
  /** `cmdconst.AtmosName`, `github.Releases` and `github.Download`. */
  const AtmosName := "atmos"
  const Releases := "releases"
  const Download := "download"
  const SumsSuffix := "SHA256SUMS"

  type Bytes = seq<bv8>

  /** A configured install or list mode. Install knows the first two, listing the last two.
      `OtherMode(name)` stands for any other configured string: `name` is never the string
      of a known mode. */
  datatype Mode = InstallModeDirect | ModeAPI | ListModeHTML | OtherMode(name: string)

  datatype Error = ErrInstallMode | ErrListMode | Failed(cause: string)

  /** The request options built from the Atmos remote user and password variables. */
  datatype BasicAuth = Anonymous | Basic(user: string, password: string)

  /** What the configuration collaborator reports: the result of `InitRemoteConf` and the
      settings read after it. */
  datatype Config = Config(
    initRemoteConf: Option<Error>,
    os: string,
    arch: string,
    installMode: Mode,
    listMode: Mode,
    remoteURL: string,
    listURL: string,
    rewriteRule: string,
    githubToken: string,
    basicAuth: BasicAuth)

  /** The collaborators, as the results they give for their arguments. */
  datatype Collaborators = Collaborators(
    joinPath: (string, seq<string>) -> Result<string, Error>,
    buildAssetURLs: (string, seq<string>) -> Result<seq<string>, Error>,
    assetDownloadURL: (string, seq<string>, string, string) -> Result<seq<string>, Error>,
    applyURLTransformer: (string, seq<string>) -> Result<seq<string>, Error>,
    downloadBytes: (string, BasicAuth) -> Result<Bytes, Error>,
    check: (Bytes, Bytes, string) -> Option<Error>,
    mkdirAll: string -> Option<Error>,
    writeFile: (string, Bytes) -> Option<Error>,
    listHTML: (string, BasicAuth) -> Result<seq<string>, Error>,
    listAPI: (string, string) -> Result<seq<string>, Error>)

  /** One call into a collaborator, with its arguments. */
  datatype Event =
    | JoinPath(base: string, elems: seq<string>)
    | BuildAssetURLs(baseURL: string, names: seq<string>)
    | AssetDownloadURL(tag: string, names: seq<string>, remoteURL: string, token: string)
    | ApplyURLTransformer(rule: string, urls: seq<string>)
    | DownloadBytes(url: string, auth: BasicAuth)
    | Check(data: Bytes, sums: Bytes, fileName: string)
    | MkdirAll(path: string)
    | WriteFile(path: string, data: Bytes)
    | ListHTML(url: string, auth: BasicAuth)
    | ListAPI(url: string, token: string)

  predicate IsFileSystem(e: Event) {
    e.MkdirAll? || e.WriteFile?
  }

  /** The error a call reports, if any. */
  function Outcome(c: Collaborators, e: Event): Option<Error> {
    match e
    case JoinPath(base, elems) => ErrorOf(c.joinPath(base, elems))
    case BuildAssetURLs(baseURL, names) => ErrorOf(c.buildAssetURLs(baseURL, names))
    case AssetDownloadURL(tag, names, remoteURL, token) => ErrorOf(c.assetDownloadURL(tag, names, remoteURL, token))
    case ApplyURLTransformer(rule, urls) => ErrorOf(c.applyURLTransformer(rule, urls))
    case DownloadBytes(url, auth) => ErrorOf(c.downloadBytes(url, auth))
    case Check(data, sums, fileName) => c.check(data, sums, fileName)
    case MkdirAll(path) => c.mkdirAll(path)
    case WriteFile(path, data) => c.writeFile(path, data)
    case ListHTML(url, auth) => ErrorOf(c.listHTML(url, auth))
    case ListAPI(url, token) => ErrorOf(c.listAPI(url, token))
  }

  function ErrorOf<T>(r: Result<T, Error>): Option<Error> {
    match r
    case Success(_) => None
    case Failure(e) => Some(e)
  }

  /** How `Install` ends. `Panic` stands for a Go runtime panic: an index out of range. */
  datatype Status = Ok | Err(error: Error) | Panic

  /** The release tag (with a leading 'v') and the version as asset names spell it (without). */
  datatype TagPair = TagPair(tag: string, version: string)

  /** Atmos tags start with 'v' and asset names do not: strip a leading 'v' for the version,
      add one for the tag. */
  function NormalizeTag(versionStr: string): (p: TagPair)
    requires versionStr != ""
    ensures p.tag == "v" + p.version
    ensures p.tag == versionStr <==> versionStr[0] == 'v'
    ensures p.version == versionStr <==> versionStr[0] != 'v'
  {
    if versionStr[0] == 'v' then TagPair(versionStr, versionStr[1..])
    else TagPair("v" + versionStr, versionStr)
  }

  /** Normalising the tag again changes nothing. */
  lemma NormalizeTagIdempotent(versionStr: string)
    requires versionStr != ""
    ensures NormalizeTag(NormalizeTag(versionStr).tag) == NormalizeTag(versionStr)
  {
  }

  /** A bare version and the same version tagged with 'v' name the same release. */
  lemma NormalizeTagBareOrTagged(version: string)
    requires version != "" && version[0] != 'v'
    ensures NormalizeTag(version) == NormalizeTag("v" + version) == TagPair("v" + version, version)
  {
  }

  /** The directory of one release's assets under the remote URL, before the tag. */
  function ReleasePath(): seq<string> {
    [CloudposseName, AtmosName, Releases, Download]
  }

  /** The text both asset names start with. */
  function AssetPrefix(version: string): string {
    BaseFileName + version + "_"
  }

  /** The name of the checksum manifest of a release. */
  function SumsAssetName(version: string): string {
    AssetPrefix(version) + SumsSuffix
  }

  /** The name of the binary asset for a version, OS and architecture. */
  function BinaryAssetName(version: string, os: string, arch: string): string {
    GetBinaryName(os, AssetPrefix(version) + os + "_" + arch)
  }

  /** `buildAssetNames`: the binary and checksum names, written into one builder. */
  method BuildAssetNames(version: string, os: string, arch: string) returns (fileName: string, sumsAssetName: string)
    ensures fileName == BinaryAssetName(version, os, arch)
    ensures sumsAssetName == SumsAssetName(version)
  {
    var nameBuilder := new Builder();
    var _, _ := nameBuilder.WriteString(BaseFileName);
    var _, _ := nameBuilder.WriteString(version);
    var _ := nameBuilder.WriteByte('_');
    assert nameBuilder.contents == AssetPrefix(version);
    sumsAssetName := nameBuilder.String() + SumsSuffix;

    var _, _ := nameBuilder.WriteString(os);
    var _ := nameBuilder.WriteByte('_');
    var _, _ := nameBuilder.WriteString(arch);
    assert nameBuilder.contents == AssetPrefix(version) + os + "_" + arch;
    var _, _ := WriteSuffixTo(os, nameBuilder);
    fileName := nameBuilder.String();
  }

  /** Both names start with `atmos_<version>_`, and only the binary carries OS and architecture. */
  lemma AssetNamesShape(version: string, os: string, arch: string)
    ensures var prefix := AssetPrefix(version);
      var bin := BinaryAssetName(version, os, arch);
      var sums := SumsAssetName(version);
      prefix <= bin && prefix <= sums &&
      bin[|prefix|..] == GetBinaryName(os, os + "_" + arch) &&
      sums[|prefix|..] == SumsSuffix
  {
  }

  /** The binary name is never the manifest name: the manifest ends in "SHA256SUMS", which
      has no '_' where the binary name separates OS and architecture. */
  lemma AssetNamesDistinct(version: string, os: string, arch: string)
    ensures BinaryAssetName(version, os, arch) != SumsAssetName(version)
  {
    var bin := BinaryAssetName(version, os, arch);
    assert bin[|AssetPrefix(version)| + |os|] == '_';
  }

  /** The binary name determines the version it was built from (for a fixed OS and
      architecture), so a manifest line found by that name belongs to that version. */
  lemma BinaryAssetNameDeterminesVersion(v1: string, v2: string, os: string, arch: string)
    requires BinaryAssetName(v1, os, arch) == BinaryAssetName(v2, os, arch)
    ensures v1 == v2
  {
    var m1, m2 := AssetPrefix(v1) + os + "_" + arch, AssetPrefix(v2) + os + "_" + arch;
    GetBinaryNameInjective(os, m1, m2);
    assert |v1| == |v2|;
    assert v1 == m1[|BaseFileName|..|BaseFileName| + |v1|];
    assert v2 == m2[|BaseFileName|..|BaseFileName| + |v2|];
  }

  /** The manifest name determines the version it was built from. */
  lemma SumsAssetNameDeterminesVersion(v1: string, v2: string)
    requires SumsAssetName(v1) == SumsAssetName(v2)
    ensures v1 == v2
  {
    var n := SumsAssetName(v1);
    assert |v1| == |v2|;
    assert v1 == n[|BaseFileName|..|BaseFileName| + |v1|];
    assert v2 == n[|BaseFileName|..|BaseFileName| + |v2|];
  }

  predicate KnownInstallMode(m: Mode) {
    m.InstallModeDirect? || m.ModeAPI?
  }

  /** Where the binary lands: the target directory and the platform's executable name. */
  function BinaryPath(os: string, targetPath: string): string {
    FilePath.Join(targetPath, GetBinaryName(os, AtmosName))
  }

  /** How `Install` (or a stage of it) ended, and the calls it made. */
  datatype Run = Run(status: Status, trace: seq<Event>)

  /** The asset URLs found under the install mode, and the calls made to find them. */
  datatype Located = Located(urls: Result<seq<string>, Error>, trace: seq<Event>)

  /** Locating the assets: Direct joins the release path and the tag onto the remote URL and
      derives the asset URLs from it; API asks the GitHub release API for them. */
  function Locate(conf: Config, c: Collaborators, tag: string, names: seq<string>): Located
    requires KnownInstallMode(conf.installMode)
  {
    if conf.installMode.InstallModeDirect? then
      var elems := ReleasePath() + [tag];
      var join := JoinPath(conf.remoteURL, elems);
      var baseAssetURL := c.joinPath(conf.remoteURL, elems);
      if baseAssetURL.Failure? then Located(Failure(baseAssetURL.error), [join])
      else Located(c.buildAssetURLs(baseAssetURL.value, names), [join, BuildAssetURLs(baseAssetURL.value, names)])
    else
      Located(c.assetDownloadURL(tag, names, conf.remoteURL, conf.githubToken),
              [AssetDownloadURL(tag, names, conf.remoteURL, conf.githubToken)])
  }

  /** What follows locating: rewrite the URLs, download the binary from the first and the
      manifest from the second, check, create the directory, write the binary. */
  function Deliver(conf: Config, c: Collaborators, located: seq<string>, fileName: string, targetPath: string): Run {
    var rewrite := ApplyURLTransformer(conf.rewriteRule, located);
    var rewritten := c.applyURLTransformer(conf.rewriteRule, located);
    if rewritten.Failure? then Run(Err(rewritten.error), [rewrite])
    else
      var assetURLs := rewritten.value;
      if |assetURLs| < 1 then Run(Panic, [rewrite])
      else
        var getData := DownloadBytes(assetURLs[0], conf.basicAuth);
        var data := c.downloadBytes(assetURLs[0], conf.basicAuth);
        if data.Failure? then Run(Err(data.error), [rewrite, getData])
        else if |assetURLs| < 2 then Run(Panic, [rewrite, getData])
        else
          var getSums := DownloadBytes(assetURLs[1], conf.basicAuth);
          var dataSums := c.downloadBytes(assetURLs[1], conf.basicAuth);
          if dataSums.Failure? then Run(Err(dataSums.error), [rewrite, getData, getSums])
          else
            var check := Check(data.value, dataSums.value, fileName);
            var checked := c.check(data.value, dataSums.value, fileName);
            if checked.Some? then Run(Err(checked.value), [rewrite, getData, getSums, check])
            else
              var mkdir := MkdirAll(targetPath);
              var made := c.mkdirAll(targetPath);
              if made.Some? then Run(Err(made.value), [rewrite, getData, getSums, check, mkdir])
              else
                var write := WriteFile(BinaryPath(conf.os, targetPath), data.value);
                var written := c.writeFile(BinaryPath(conf.os, targetPath), data.value);
                Run(if written.Some? then Err(written.value) else Ok,
                    [rewrite, getData, getSums, check, mkdir, write])
  }

  /** What `Install(ctx, versionStr, targetPath)` does: its result and the calls it makes. */
  function InstallRun(conf: Config, c: Collaborators, versionStr: string, targetPath: string): (r: Run)
    ensures r.trace == [] <==>
      conf.initRemoteConf.Some? || versionStr == "" || !KnownInstallMode(conf.installMode)
    ensures conf.initRemoteConf.Some? ==> r.status == Err(conf.initRemoteConf.value)
    ensures conf.initRemoteConf.None? && versionStr == "" ==> r.status == Panic
    ensures conf.initRemoteConf.None? && versionStr != "" && !KnownInstallMode(conf.installMode) ==>
      r.status == Err(ErrInstallMode)
  {
    if conf.initRemoteConf.Some? then Run(Err(conf.initRemoteConf.value), [])
    else if versionStr == "" then Run(Panic, [])
    else if !KnownInstallMode(conf.installMode) then Run(Err(ErrInstallMode), [])
    else
      var p := NormalizeTag(versionStr);
      var fileName := BinaryAssetName(p.version, conf.os, conf.arch);
      var loc := Locate(conf, c, p.tag, [fileName, SumsAssetName(p.version)]);
      match loc.urls
      case Failure(e) => Run(Err(e), loc.trace)
      case Success(urls) =>
        var rest := Deliver(conf, c, urls, fileName, targetPath);
        Run(rest.status, loc.trace + rest.trace)
  }

  /** The calls before the last all succeeded. */
  predicate StopsAtFirstFailure(c: Collaborators, t: seq<Event>) {
    forall i :: 0 <= i < |t| - 1 ==> Outcome(c, t[i]) == None
  }

  predicate LocatingCall(e: Event) {
    e.JoinPath? || e.BuildAssetURLs? || e.AssetDownloadURL?
  }

  /** Every download carries the configured credentials. */
  predicate UsesCredentials(auth: BasicAuth, t: seq<Event>) {
    forall i :: 0 <= i < |t| && t[i].DownloadBytes? ==> t[i].auth == auth
  }

  /** Every check tests the pair the two calls before it downloaded, under `fileName`. */
  predicate ChecksDownloads(c: Collaborators, t: seq<Event>, fileName: string) {
    forall i :: 0 <= i < |t| && t[i].Check? ==>
      2 <= i && t[i - 2].DownloadBytes? && t[i - 1].DownloadBytes? &&
      c.downloadBytes(t[i - 2].url, t[i - 2].auth) == Success(t[i].data) &&
      c.downloadBytes(t[i - 1].url, t[i - 1].auth) == Success(t[i].sums) &&
      t[i].fileName == fileName
  }

  /** The target directory is created only right after a check that passed. */
  predicate MkdirOnlyAfterCheck(c: Collaborators, t: seq<Event>, targetPath: string) {
    forall i :: 0 <= i < |t| && t[i].MkdirAll? ==>
      1 <= i && t[i - 1].Check? && Outcome(c, t[i - 1]) == None && t[i].path == targetPath
  }

  /** The binary is written only right after the directory was created following a check,
      and what is written is what was checked. */
  predicate WriteOnlyAfterMkdir(c: Collaborators, t: seq<Event>) {
    forall i :: 0 <= i < |t| && t[i].WriteFile? ==>
      2 <= i && t[i - 1].MkdirAll? && Outcome(c, t[i - 1]) == None &&
      t[i - 2].Check? && t[i].data == t[i - 2].data
  }

  /** The last six calls of a successful install: rewrite the located URLs with the
      configured rule, download the binary from the first rewritten URL and the manifest from
      the second, check the binary against the manifest under its asset name, create the
      target directory and write the downloaded binary there under its executable name. */
  predicate InstalledInOrder(conf: Config, c: Collaborators, tail: seq<Event>, located: seq<string>,
                             fileName: string, targetPath: string)
    requires |tail| == 6
  {
    tail[0] == ApplyURLTransformer(conf.rewriteRule, located) &&
    var urls := c.applyURLTransformer(conf.rewriteRule, located);
    urls.Success? && |urls.value| >= 2 &&
    var bin := c.downloadBytes(urls.value[0], conf.basicAuth);
    var sums := c.downloadBytes(urls.value[1], conf.basicAuth);
    bin.Success? && sums.Success? &&
    tail[1..] == [
      DownloadBytes(urls.value[0], conf.basicAuth),
      DownloadBytes(urls.value[1], conf.basicAuth),
      Check(bin.value, sums.value, fileName),
      MkdirAll(targetPath),
      WriteFile(BinaryPath(conf.os, targetPath), bin.value)]
  }

  /** Locating makes only locating calls; when it fails, it stops at the failing call. */
  lemma LocateCalls(conf: Config, c: Collaborators, tag: string, names: seq<string>)
    requires KnownInstallMode(conf.installMode)
    ensures var loc := Locate(conf, c, tag, names);
      loc.trace != [] &&
      (forall i :: 0 <= i < |loc.trace| ==> LocatingCall(loc.trace[i])) &&
      (loc.urls.Success? ==> forall i :: 0 <= i < |loc.trace| ==> Outcome(c, loc.trace[i]) == None) &&
      (loc.urls.Failure? ==>
        StopsAtFirstFailure(c, loc.trace) && Outcome(c, loc.trace[|loc.trace| - 1]) == Some(loc.urls.error))
  {
  }

  /** Putting locating calls in front of a trace keeps each property of its other calls. */
  lemma PrefixUsesCredentials(auth: BasicAuth, pre: seq<Event>, t: seq<Event>)
    requires forall i :: 0 <= i < |pre| ==> LocatingCall(pre[i])
    requires UsesCredentials(auth, t)
    ensures UsesCredentials(auth, pre + t)
  {
  }

  lemma PrefixChecksDownloads(c: Collaborators, pre: seq<Event>, t: seq<Event>, fileName: string)
    requires forall i :: 0 <= i < |pre| ==> LocatingCall(pre[i])
    requires ChecksDownloads(c, t, fileName)
    ensures ChecksDownloads(c, pre + t, fileName)
  {
  }

  lemma PrefixMkdirOnlyAfterCheck(c: Collaborators, pre: seq<Event>, t: seq<Event>, targetPath: string)
    requires forall i :: 0 <= i < |pre| ==> LocatingCall(pre[i])
    requires MkdirOnlyAfterCheck(c, t, targetPath)
    ensures MkdirOnlyAfterCheck(c, pre + t, targetPath)
  {
  }

  lemma PrefixWriteOnlyAfterMkdir(c: Collaborators, pre: seq<Event>, t: seq<Event>)
    requires forall i :: 0 <= i < |pre| ==> LocatingCall(pre[i])
    requires WriteOnlyAfterMkdir(c, t)
    ensures WriteOnlyAfterMkdir(c, pre + t)
  {
  }

  /** The delivering calls keep the credentials, check what they downloaded and touch the
      file system only after a passed check; each fact on its own. */
  lemma DeliverUsesCredentials(conf: Config, c: Collaborators, located: seq<string>, fileName: string, targetPath: string)
    ensures UsesCredentials(conf.basicAuth, Deliver(conf, c, located, fileName, targetPath).trace)
  {
  }

  lemma DeliverChecksDownloads(conf: Config, c: Collaborators, located: seq<string>, fileName: string, targetPath: string)
    ensures ChecksDownloads(c, Deliver(conf, c, located, fileName, targetPath).trace, fileName)
  {
  }

  lemma DeliverMkdirOnlyAfterCheck(conf: Config, c: Collaborators, located: seq<string>, fileName: string, targetPath: string)
    ensures MkdirOnlyAfterCheck(c, Deliver(conf, c, located, fileName, targetPath).trace, targetPath)
  {
  }

  lemma DeliverWriteOnlyAfterMkdir(conf: Config, c: Collaborators, located: seq<string>, fileName: string, targetPath: string)
    ensures WriteOnlyAfterMkdir(c, Deliver(conf, c, located, fileName, targetPath).trace)
  {
  }

  /** `Install` stops at the first call that fails and returns that call's error; it never
      fails after a call that succeeded last, and every call before the last succeeded. */
  lemma InstallStopsAtFirstFailure(conf: Config, c: Collaborators, versionStr: string, targetPath: string)
    ensures var r := InstallRun(conf, c, versionStr, targetPath);
      StopsAtFirstFailure(c, r.trace) &&
      (r.status.Err? && r.trace != [] ==> Outcome(c, r.trace[|r.trace| - 1]) == Some(r.status.error)) &&
      (!r.status.Err? && r.trace != [] ==> Outcome(c, r.trace[|r.trace| - 1]) == None) &&
      (r.status.Ok? ==> r.trace != [])
  {
    if conf.initRemoteConf.None? && versionStr != "" && KnownInstallMode(conf.installMode) {
      var p := NormalizeTag(versionStr);
      var fileName := BinaryAssetName(p.version, conf.os, conf.arch);
      var names := [fileName, SumsAssetName(p.version)];
      var loc := Locate(conf, c, p.tag, names);
      LocateCalls(conf, c, p.tag, names);
      if loc.urls.Success? {
        var rest := Deliver(conf, c, loc.urls.value, fileName, targetPath);
        var all := loc.trace + rest.trace;
        assert StopsAtFirstFailure(c, rest.trace) && rest.trace != [];
        forall i | 0 <= i < |all| - 1
          ensures Outcome(c, all[i]) == None
        {
          if i >= |loc.trace| {
            assert all[i] == rest.trace[i - |loc.trace|];
          }
        }
        assert all[|all| - 1] == rest.trace[|rest.trace| - 1];
      }
    }
  }

  /** Every download uses the configured credentials; the check runs on exactly the two
      downloads before it, under the binary's asset name; the file system is touched only
      after that check passed, and only the checked bytes are written. */
  lemma InstallWritesOnlyChecked(conf: Config, c: Collaborators, versionStr: string, targetPath: string)
    requires versionStr != ""
    ensures var r := InstallRun(conf, c, versionStr, targetPath);
      var fileName := BinaryAssetName(NormalizeTag(versionStr).version, conf.os, conf.arch);
      UsesCredentials(conf.basicAuth, r.trace) && ChecksDownloads(c, r.trace, fileName) &&
      MkdirOnlyAfterCheck(c, r.trace, targetPath) && WriteOnlyAfterMkdir(c, r.trace)
  {
    var p := NormalizeTag(versionStr);
    var fileName := BinaryAssetName(p.version, conf.os, conf.arch);
    if conf.initRemoteConf.None? && KnownInstallMode(conf.installMode) {
      var names := [fileName, SumsAssetName(p.version)];
      var loc := Locate(conf, c, p.tag, names);
      LocateCalls(conf, c, p.tag, names);
      if loc.urls.Success? {
        var rest := Deliver(conf, c, loc.urls.value, fileName, targetPath);
        DeliverUsesCredentials(conf, c, loc.urls.value, fileName, targetPath);
        DeliverChecksDownloads(conf, c, loc.urls.value, fileName, targetPath);
        DeliverMkdirOnlyAfterCheck(conf, c, loc.urls.value, fileName, targetPath);
        DeliverWriteOnlyAfterMkdir(conf, c, loc.urls.value, fileName, targetPath);
        PrefixUsesCredentials(conf.basicAuth, loc.trace, rest.trace);
        PrefixChecksDownloads(c, loc.trace, rest.trace, fileName);
        PrefixMkdirOnlyAfterCheck(c, loc.trace, rest.trace, targetPath);
        PrefixWriteOnlyAfterMkdir(c, loc.trace, rest.trace);
      }
    }
  }

  /** A successful install made the whole sequence of calls, in order, ending with the write
      of the downloaded binary. */
  lemma InstallSucceedsInOrder(conf: Config, c: Collaborators, versionStr: string, targetPath: string)
    requires InstallRun(conf, c, versionStr, targetPath).status.Ok?
    ensures var r := InstallRun(conf, c, versionStr, targetPath);
      versionStr != "" && KnownInstallMode(conf.installMode) &&
      var p := NormalizeTag(versionStr);
      var fileName := BinaryAssetName(p.version, conf.os, conf.arch);
      var loc := Locate(conf, c, p.tag, [fileName, SumsAssetName(p.version)]);
      loc.urls.Success? && |r.trace| == |loc.trace| + 6 &&
      r.trace[..|loc.trace|] == loc.trace &&
      InstalledInOrder(conf, c, r.trace[|loc.trace|..], loc.urls.value, fileName, targetPath)
  {
  }

  /** The assets are located by the normalised tag and the (binary, checksum) names. */
  lemma InstallLocatesByTag(conf: Config, c: Collaborators, versionStr: string, targetPath: string)
    requires InstallRun(conf, c, versionStr, targetPath).trace != []
    ensures var r := InstallRun(conf, c, versionStr, targetPath);
      versionStr != "" &&
      var p := NormalizeTag(versionStr);
      var names := [BinaryAssetName(p.version, conf.os, conf.arch), SumsAssetName(p.version)];
      (conf.installMode.InstallModeDirect? ==>
        r.trace[0] == JoinPath(conf.remoteURL, ReleasePath() + [p.tag]) &&
        (|r.trace| >= 2 ==> r.trace[1] == BuildAssetURLs(c.joinPath(r.trace[0].base, r.trace[0].elems).value, names))) &&
      (conf.installMode.ModeAPI? ==>
        r.trace[0] == AssetDownloadURL(p.tag, names, conf.remoteURL, conf.githubToken))
  {
  }

  /** `Install` succeeds exactly when it got as far as writing the binary and no call failed. */
  lemma InstallOkIffWritten(conf: Config, c: Collaborators, versionStr: string, targetPath: string)
    ensures var r := InstallRun(conf, c, versionStr, targetPath);
      r.status.Ok? <==>
        r.trace != [] && r.trace[|r.trace| - 1].WriteFile? &&
        forall i :: 0 <= i < |r.trace| ==> Outcome(c, r.trace[i]) == None
  {
  }

  /** `Install(ctx, versionStr, targetPath)`. */
  method Install(conf: Config, c: Collaborators, versionStr: string, targetPath: string)
    returns (status: Status, trace: seq<Event>)
    ensures Run(status, trace) == InstallRun(conf, c, versionStr, targetPath)
  {
    trace := [];
    var err := conf.initRemoteConf;
    if err.Some? {
      return Err(err.value), trace;
    }

    if versionStr == "" {
      // tag[0] on an empty string
      return Panic, trace;
    }
    var p := NormalizeTag(versionStr);
    var tag, version := p.tag, p.version;

    var fileName, shaFileName := BuildAssetNames(version, conf.os, conf.arch);
    var names := [fileName, shaFileName];

    var located: Result<seq<string>, Error>;
    match conf.installMode {
      case InstallModeDirect =>
        var elems := ReleasePath() + [tag];
        trace := trace + [JoinPath(conf.remoteURL, elems)];
        var baseAssetURL := c.joinPath(conf.remoteURL, elems);
        if baseAssetURL.Failure? {
          return Err(baseAssetURL.error), trace;
        }
        trace := trace + [BuildAssetURLs(baseAssetURL.value, names)];
        located := c.buildAssetURLs(baseAssetURL.value, names);
      case ModeAPI =>
        trace := trace + [AssetDownloadURL(tag, names, conf.remoteURL, conf.githubToken)];
        located := c.assetDownloadURL(tag, names, conf.remoteURL, conf.githubToken);
      case _ =>
        return Err(ErrInstallMode), trace;
    }
    if located.Failure? {
      return Err(located.error), trace;
    }
    ghost var locatedTrace := trace;
    assert Located(located, locatedTrace) == Locate(conf, c, tag, names);

    trace := trace + [ApplyURLTransformer(conf.rewriteRule, located.value)];
    var rewritten := c.applyURLTransformer(conf.rewriteRule, located.value);
    if rewritten.Failure? {
      return Err(rewritten.error), trace;
    }
    var assetURLs := rewritten.value;

    if |assetURLs| < 1 {
      // assetURLs[0] on an empty list
      return Panic, trace;
    }
    trace := trace + [DownloadBytes(assetURLs[0], conf.basicAuth)];
    var data := c.downloadBytes(assetURLs[0], conf.basicAuth);
    if data.Failure? {
      return Err(data.error), trace;
    }

    if |assetURLs| < 2 {
      // assetURLs[1] on a one-element list
      return Panic, trace;
    }
    trace := trace + [DownloadBytes(assetURLs[1], conf.basicAuth)];
    var dataSums := c.downloadBytes(assetURLs[1], conf.basicAuth);
    if dataSums.Failure? {
      return Err(dataSums.error), trace;
    }

    trace := trace + [Check(data.value, dataSums.value, fileName)];
    err := c.check(data.value, dataSums.value, fileName);
    if err.Some? {
      return Err(err.value), trace;
    }

    trace := trace + [MkdirAll(targetPath)];
    err := c.mkdirAll(targetPath);
    if err.Some? {
      return Err(err.value), trace;
    }

    var binaryPath := FilePath.Join(targetPath, GetBinaryName(conf.os, AtmosName));
    trace := trace + [WriteFile(binaryPath, data.value)];
    err := c.writeFile(binaryPath, data.value);
    if err.Some? {
      return Err(err.value), trace;
    }
    return Ok, trace;
  }

  /** The outcome of `ListVersions`: the versions or the error, and the calls made. */
  datatype Listing = Listing(versions: Result<seq<string>, Error>, trace: seq<Event>)

  /** The list a listing call returns; other calls list nothing. */
  function Listed(c: Collaborators, e: Event): Result<seq<string>, Error> {
    match e
    case ListHTML(url, auth) => c.listHTML(url, auth)
    case ListAPI(url, token) => c.listAPI(url, token)
    case _ => Success([])
  }

  /** `ListVersions(ctx)`. */
  function ListVersions(conf: Config, c: Collaborators): (r: Listing)
    // configuration errors end the call before any collaborator runs
    ensures conf.initRemoteConf.Some? ==> r == Listing(Failure(conf.initRemoteConf.value), [])
    ensures conf.initRemoteConf.None? && !conf.listMode.ListModeHTML? && !conf.listMode.ModeAPI? ==>
      r == Listing(Failure(ErrListMode), [])
    // HTML listing scrapes the releases page under the list URL; API listing queries the list URL
    ensures r.trace == [] <==>
      conf.initRemoteConf.Some? || (!conf.listMode.ListModeHTML? && !conf.listMode.ModeAPI?)
    ensures conf.initRemoteConf.None? && conf.listMode.ListModeHTML? ==>
      var join := JoinPath(conf.listURL, ReleasePath());
      var base := c.joinPath(conf.listURL, ReleasePath());
      (base.Failure? ==> r == Listing(Failure(base.error), [join])) &&
      (base.Success? ==> r == Listing(c.listHTML(base.value, conf.basicAuth), [join, ListHTML(base.value, conf.basicAuth)]))
    ensures conf.initRemoteConf.None? && conf.listMode.ModeAPI? ==>
      r == Listing(c.listAPI(conf.listURL, conf.githubToken), [ListAPI(conf.listURL, conf.githubToken)])
    // nothing is downloaded or written, at most one listing call is made and it is the last
    ensures forall i :: 0 <= i < |r.trace| ==> !r.trace[i].DownloadBytes? && !IsFileSystem(r.trace[i])
    ensures forall i :: 0 <= i < |r.trace| - 1 ==> Outcome(c, r.trace[i]) == None && !r.trace[i].ListHTML? && !r.trace[i].ListAPI?
    // the result is the listing call's own, neither re-sorted nor filtered; or the first failure
    ensures r.versions.Success? ==>
      r.trace != [] && r.versions == Listed(c, r.trace[|r.trace| - 1]) &&
      (r.trace[|r.trace| - 1].ListHTML? || r.trace[|r.trace| - 1].ListAPI?)
    ensures r.versions.Failure? && r.trace != [] ==> Outcome(c, r.trace[|r.trace| - 1]) == Some(r.versions.error)
  {
    if conf.initRemoteConf.Some? then Listing(Failure(conf.initRemoteConf.value), [])
    else
      match conf.listMode
      case ListModeHTML =>
        var join := JoinPath(conf.listURL, ReleasePath());
        var baseURL := c.joinPath(conf.listURL, ReleasePath());
        if baseURL.Failure? then Listing(Failure(baseURL.error), [join])
        else
          var list := ListHTML(baseURL.value, conf.basicAuth);
          Listing(c.listHTML(baseURL.value, conf.basicAuth), [join, list])
      case ModeAPI =>
        Listing(c.listAPI(conf.listURL, conf.githubToken), [ListAPI(conf.listURL, conf.githubToken)])
      case _ => Listing(Failure(ErrListMode), [])
  }
}
