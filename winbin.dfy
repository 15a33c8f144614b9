/** Platform namer (pkg/winbin): archive format and executable suffix, decided by the
    operating system name, which Go reads from `runtime.GOOS` and the model takes as `os`. */
module WinBin {
  import opened Wrappers

  const Suffix := ".exe"
  const OsName := "windows"
  const ZipSuffix := ".zip"
  const TarGzSuffix := ".tar.gz"

  /** A `strings.Builder`: an in-progress string that only ever grows. */
  class Builder {
    var contents: string

    constructor ()
      ensures contents == ""
    {
      contents := "";
    }

    /** `WriteString` appends `s` and reports its length; a builder never fails. */
    method WriteString(s: string) returns (n: int, err: Option<string>)
      modifies this
      ensures contents == old(contents) + s
      ensures n == |s| && err == None
    {
      contents := contents + s;
      n, err := |s|, None;
    }

    /** `WriteByte` appends one character; a builder never fails. */
    method WriteByte(c: char) returns (err: Option<string>)
      modifies this
      ensures contents == old(contents) + [c]
      ensures err == None
    {
      contents := contents + [c];
      err := None;
    }

    function String(): string
      reads this
    {
      contents
    }
  }

  /** The archive container to expect: zip exactly on Windows, gzipped tar elsewhere. */
  function GetArchiveFormat(os: string): (r: string)
    ensures r == ZipSuffix <==> os == OsName
    ensures r == TarGzSuffix <==> os != OsName
  {
    if os == OsName then ZipSuffix else TarGzSuffix
  }

  /** The executable file name for `execName`: unchanged off Windows, `.exe` added on it. */
  function GetBinaryName(os: string, execName: string): (r: string)
    ensures os != OsName ==> r == execName
    ensures os == OsName ==> r == execName + Suffix
  {
    if os != OsName then execName else execName + Suffix
  }

  /** Appends the executable suffix (or nothing) to `writer`, returning what the writer returns. */
  method WriteSuffixTo(os: string, writer: Builder) returns (n: int, err: Option<string>)
    modifies writer
    ensures writer.contents == GetBinaryName(os, old(writer.contents))
    ensures os != OsName ==> n == 0 && err == None
    ensures os == OsName ==> n == |Suffix| == 4 && err == None
  {
    if os != OsName {
      return 0, None;
    }
    n, err := writer.WriteString(Suffix);
  }

  /** Binary names keep the base name as a prefix and differ only by a suffix that
      depends on nothing but the OS, so distinct base names give distinct binary names. */
  lemma GetBinaryNameInjective(os: string, a: string, b: string)
    requires GetBinaryName(os, a) == GetBinaryName(os, b)
    ensures a == b
  {
    if os == OsName {
      assert a == GetBinaryName(os, a)[..|a|];
      assert |a| == |b|;
    }
  }

  /** A binary name ends in `.exe` on Windows; off Windows it is the base name itself. */
  lemma GetBinaryNameSuffix(os: string, execName: string)
    ensures var r := GetBinaryName(os, execName);
      r[..|execName|] == execName &&
      (os == OsName <==> r[|execName|..] == Suffix)
  {
  }
}
