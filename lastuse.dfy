/** Last-use tracker (versionmanager/lastuse): one file per installation directory holding
    the date the installed version was last invoked. */
module LastUse {
  import opened Wrappers
  import FilePath
  import opened DateOnly

  const FileName := "last-use.txt"

  /** Why the operating system refused a file operation, or why a write stopped part way. */
  datatype IoError = NotExist | PermissionDenied | NoSpace

  /** The files of the host, by path. Operations on a path in `denied` are refused by the
      operating system (a missing directory, permission bits, a read-only volume). A path in
      `room` lies on a volume with room for only that many more characters; writes do not
      use the room up. */
  class FileSystem {
    var files: map<string, string>
    var denied: set<string>
    var room: map<string, nat>

    constructor (files: map<string, string>, denied: set<string>, room: map<string, nat>)
      ensures this.files == files && this.denied == denied && this.room == room
    {
      this.files := files;
      this.denied := denied;
      this.room := room;
    }

    /** `os.ReadFile`: the contents, or why they cannot be read. */
    function ReadFile(path: string): (r: Result<string, IoError>)
      reads this
      ensures r.Success? <==> path in files && path !in denied
      ensures r.Success? ==> r.value == files[path]
      ensures r == Failure(NotExist) <==> path !in files && path !in denied
    {
      if path in denied then Failure(PermissionDenied)
      else if path !in files then Failure(NotExist)
      else Success(files[path])
    }

    /** Whether the volume holding `path` has room for `data`. */
    predicate Fits(path: string, data: string)
      reads this
    {
      path !in room || |data| <= room[path]
    }

    /** `os.WriteFile`: a refused open changes nothing; otherwise the file is created or
        truncated and `data` written, and a volume that runs out of room keeps only the part
        of `data` it had room for. */
    method WriteFile(path: string, data: string) returns (err: Option<IoError>)
      modifies this
      ensures denied == old(denied) && room == old(room)
      ensures err == None <==> path !in denied && Fits(path, data)
      ensures path in denied ==> err == Some(PermissionDenied) && files == old(files)
      ensures path !in denied && !Fits(path, data) ==>
        err == Some(NoSpace) && files == old(files)[path := data[..room[path]]]
      ensures err == None ==> files == old(files)[path := data]
    {
      if path in denied {
        return Some(PermissionDenied);
      }
      if !Fits(path, data) {
        files := files[path := data[..room[path]]];
        return Some(NoSpace);
      }
      files := files[path := data];
      err := None;
    }
  }

  function LastUsePath(dirPath: string): string {
    FilePath.Join(dirPath, FileName)
  }

  /** The recorded last-use date of the installation in `dirPath`; the zero date when the
      file is missing or unreadable, or does not hold a `YYYY-MM-DD` date. */
  function Read(fs: FileSystem, dirPath: string): (d: Date)
    reads fs
    ensures fs.ReadFile(LastUsePath(dirPath)).Failure? ==> d == Zero
    ensures fs.ReadFile(LastUsePath(dirPath)).Success? ==>
      d == (match Parse(fs.files[LastUsePath(dirPath)])
            case Some(t) => t
            case None => Zero)
    ensures Valid(d)
  {
    match fs.ReadFile(LastUsePath(dirPath))
    case Failure(_) => Zero
    case Success(data) =>
      match Parse(data)
      case Some(parsed) => parsed
      case None => Zero
  }

  /** Whether `WriteNow` leaves the file alone: the skip flag is set, or reading the
      environment variable failed (the error case falls through to the skip case). */
  predicate Skips(skipLastUse: bool, lookupErr: Option<string>) {
    lookupErr.Some? || skipLastUse
  }

  /** Records `today` as the last-use date of `dirPath`, unless skipped. `skipLastUse` and
      `lookupErr` are what the environment lookup of the skip flag returned; a failed write
      is only logged, so nothing is reported to the caller. */
  method WriteNow(fs: FileSystem, dirPath: string, skipLastUse: bool, lookupErr: Option<string>, today: Date)
    requires Valid(today)
    modifies fs
    ensures fs.denied == old(fs.denied) && fs.room == old(fs.room)
    ensures Skips(skipLastUse, lookupErr) ==> fs.files == old(fs.files)
    ensures Skips(skipLastUse, lookupErr) ==> Read(fs, dirPath) == old(Read(fs, dirPath))
    ensures !Skips(skipLastUse, lookupErr) && LastUsePath(dirPath) in fs.denied ==> fs.files == old(fs.files)
    // a completed write: the file holds today's text, and reading it back gives today
    ensures !Skips(skipLastUse, lookupErr) && LastUsePath(dirPath) !in fs.denied && fs.Fits(LastUsePath(dirPath), Format(today)) ==>
      fs.files == old(fs.files)[LastUsePath(dirPath) := Format(today)] && Read(fs, dirPath) == today
    // a write cut short: the file keeps a truncated text, which reads back as the zero date
    ensures !Skips(skipLastUse, lookupErr) && LastUsePath(dirPath) !in fs.denied && !fs.Fits(LastUsePath(dirPath), Format(today)) ==>
      fs.files == old(fs.files)[LastUsePath(dirPath) := Format(today)[..fs.room[LastUsePath(dirPath)]]] &&
      Read(fs, dirPath) == Zero
    // only the one file is touched
    ensures forall other :: LastUsePath(other) != LastUsePath(dirPath) ==> Read(fs, other) == old(Read(fs, other))
    ensures forall other :: other != dirPath ==> Read(fs, other) == old(Read(fs, other))
  {
    match lookupErr {
      case Some(_) => return;
      case None => if skipLastUse { return; }
    }
    var lastUsePath := LastUsePath(dirPath);
    var nowData := Format(today);
    var err := fs.WriteFile(lastUsePath, nowData);
    if err == None {
      ReadAfterWrite(fs, dirPath, today);
    }
    forall other | other != dirPath
      ensures LastUsePath(other) != lastUsePath
    {
      if LastUsePath(other) == lastUsePath {
        FilePath.JoinInjective(other, dirPath, FileName);
      }
    }
  }

  /** After a write that was not skipped and not refused, `Read` returns the date written. */
  lemma ReadAfterWrite(fs: FileSystem, dirPath: string, today: Date)
    requires Valid(today)
    requires LastUsePath(dirPath) !in fs.denied
    requires LastUsePath(dirPath) in fs.files && fs.files[LastUsePath(dirPath)] == Format(today)
    ensures Read(fs, dirPath) == today
  {
    ParseFormat(today);
  }

  /** `Read` returns a date other than the zero date only when the file holds exactly the
      canonical text of that date. */
  lemma ReadNonZero(fs: FileSystem, dirPath: string)
    requires Read(fs, dirPath) != Zero
    ensures fs.ReadFile(LastUsePath(dirPath)) == Success(Format(Read(fs, dirPath)))
  {
    FormatParse(fs.files[LastUsePath(dirPath)]);
  }
}
