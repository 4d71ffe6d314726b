/** `PushPublishHTTPCupertinoFileHandler`: writes the playlists and media
    segments of a push-published stream below a root directory,

      <root>/<dst>/playlist.m3u8       master playlist
      <root>/<dst>/chunklist.m3u8      media playlist
      <root>/<group>/playlist.m3u8     group master playlist
      <root>/<dst>/<session>/media_N.ts

    with `<dst>-b` in place of `<dst>` when sending to the backup server.
    Each operation is specified by a function from the disk before to the
    result and the disk after; the class performs the same steps through the
    `FileSystem` object.  The host supplies the destination stream name, the
    session string, URI validation and the playlist serialiser. */
module FileHandler {
  import opened JavaLang
  import opened MediaModel
  import opened PlaybackUri
  import opened Disk

  /** The configuration key naming the root directory. */
  const FILE_ROOT_KEY: string := "file.root"

  /** The marker whose last occurrence ends a segment's parent directory. */
  const MEDIA_MARK: string := "/media_"

  /** What a send or delete returns, and the disk it leaves. */
  datatype Delivery = Delivery(result: int, disk: DiskState)

  // ---------------------------------------------------------------------------------------
  // Destination directories

  /** `getDestionationDir()`: `root/<dst>`, or `root//<dst>-b` for the backup
      server, as the text of a `File`. */
  function DestinationDir(rootDir: Option<string>, dstStreamName: string, backup: bool): string
  {
    if !backup then FileNormalize(Show(rootDir) + "/" + dstStreamName)
    else FileNormalize(Show(rootDir) + "/" + "/" + dstStreamName + "-b")
  }

  /** `getDestionationGroupDir()`: `root/<group>`, but `root/<dst>-b` for the
      backup server, where the group name is not used. */
  function DestinationGroupDir(rootDir: Option<string>, groupName: Option<string>, dstStreamName: string, backup: bool): string
  {
    if !backup then FileNormalize(Show(rootDir) + "/" + Show(groupName))
    else FileNormalize(Show(rootDir) + "/" + dstStreamName + "-b")
  }

  /** The destination directory is the root joined with the stream's directory
      name; the doubled `/` of the backup branch makes no difference. */
  lemma DestinationDirIsStreamDir(rootDir: Option<string>, dstStreamName: string, backup: bool)
    ensures DestinationDir(rootDir, dstStreamName, backup) == FileNormalize(Show(rootDir) + "/" + StreamDir(dstStreamName, backup))
  {
    if backup {
      DoubleSlashHarmless(Show(rootDir), dstStreamName + "-b");
      assert Show(rootDir) + "/" + "/" + dstStreamName + "-b" == Show(rootDir) + "/" + "/" + (dstStreamName + "-b");
      assert Show(rootDir) + "/" + StreamDir(dstStreamName, backup) == Show(rootDir) + "/" + (dstStreamName + "-b");
    }
  }

  /** In backup mode the group master playlist goes to the stream's own backup
      directory, whatever the group is called. */
  lemma BackupGroupDirIsStreamDir(rootDir: Option<string>, groupName: Option<string>, dstStreamName: string)
    ensures DestinationGroupDir(rootDir, groupName, dstStreamName, true) == DestinationDir(rootDir, dstStreamName, true)
  {
    DestinationDirIsStreamDir(rootDir, dstStreamName, true);
    assert Show(rootDir) + "/" + dstStreamName + "-b" == Show(rootDir) + "/" + (dstStreamName + "-b");
  }

  /** With a usable root text and a plain stream name the destination is one
      directory below the root, named `<dst>` or `<dst>-b`. */
  lemma DestinationDirLocation(cwd: Path, rootDir: Option<string>, dstStreamName: string, backup: bool)
    requires Show(rootDir) != "" && IsPlainName(dstStreamName)
    ensures Locate(cwd, DestinationDir(rootDir, dstStreamName, backup))
         == Some(Locate(cwd, Show(rootDir)).value + [StreamDir(dstStreamName, backup)])
  {
    DestinationDirIsStreamDir(rootDir, dstStreamName, backup);
    StreamDirPlain(dstStreamName, backup);
    LocateNormalize(cwd, Show(rootDir) + "/" + StreamDir(dstStreamName, backup));
    LocateChild(cwd, Show(rootDir), StreamDir(dstStreamName, backup));
  }

  // ---------------------------------------------------------------------------------------
  // The operations on a disk

  /** `if (!dir.exists()) dir.mkdirs();` */
  function EnsureDirectory(st: DiskState, cwd: Path, dir: string): DiskState
  {
    if PathExists(st, cwd, dir) then st else AfterMkdirs(st, cwd, dir)
  }

  /** `if (!file.exists()) file.createNewFile();`, None when `createNewFile` throws. */
  function EnsureFile(st: DiskState, cwd: Path, file: string): Option<DiskState>
  {
    if PathExists(st, cwd, file) then Some(st)
    else if CreateNewFileResult(st, cwd, file).None? then None
    else Some(AfterCreateNewFile(st, cwd, file))
  }

  /** A playlist send into `dir`: make the directory, create `dir/uri` if it is
      missing, open it without append, and write the serialised playlist
      (`rendered`, None when the writer fails).  Any exception gives 0. */
  function PlaylistDelivery(st: DiskState, cwd: Path, dir: string, uri: string, rendered: Option<Bytes>): Delivery
  {
    var st1 := EnsureDirectory(st, cwd, dir);
    var file := dir + "/" + uri;
    match EnsureFile(st1, cwd, file)
    case None => Delivery(0, st1)
    case Some(st2) =>
      if !CanOpenForWrite(st2, cwd, file) then Delivery(0, st2)
      else
        var st3 := AfterOpenForWrite(st2, cwd, file);
        match rendered
        case None => Delivery(0, st3)
        case Some(bytes) => Delivery(|bytes|, AfterAppend(st3, Locate(cwd, file).value, bytes))
  }

  /** A segment send: the parent directory is `dir/uri` cut before its last
      `/media_` (no such marker makes `substring(0, -1)` throw, giving 0); it is
      created, the segment file is created if missing, and with a fragment list
      the file is truncated and receives the payload.  A null list leaves the
      file as it is and gives the sentinel 1. */
  function SegmentDelivery(st: DiskState, cwd: Path, dir: string, uri: string, fragments: Option<seq<Fragment>>): Delivery
  {
    var file := dir + "/" + uri;
    var idx := LastIndexOf(file, MEDIA_MARK);
    if idx < 0 then Delivery(0, st)
    else
      var st1 := EnsureDirectory(st, cwd, file[..idx]);
      match EnsureFile(st1, cwd, file)
      case None => Delivery(0, st1)
      case Some(st2) =>
        match fragments
        case None => Delivery(1, st2)
        case Some(list) =>
          if !CanOpenForWrite(st2, cwd, file) then Delivery(0, st2)
          else Delivery(Int32(|Payload(list)|), AfterAppend(AfterOpenForWrite(st2, cwd, file), Locate(cwd, file).value, Payload(list)))
  }

  /** A segment delete: 1 when `dir/uri` exists and `delete()` removes it, else 0. */
  function SegmentRemoval(st: DiskState, cwd: Path, dir: string, uri: string): Delivery
  {
    var file := dir + "/" + uri;
    if PathExists(st, cwd, file) && CanDelete(st, cwd, file) then Delivery(1, AfterDelete(st, cwd, file))
    else Delivery(0, st)
  }

  // ---------------------------------------------------------------------------------------
  // What the operations guarantee

  lemma EnsureDirectoryPreserves(st: DiskState, cwd: Path, dir: string)
    requires WellFormed(st)
    ensures WellFormed(EnsureDirectory(st, cwd, dir))
  {
    MkdirsPreserves(st, cwd, dir);
  }

  lemma EnsureFilePreserves(st: DiskState, cwd: Path, file: string)
    requires WellFormed(st) && EnsureFile(st, cwd, file).Some?
    ensures WellFormed(EnsureFile(st, cwd, file).value)
  {
    CreateNewFilePreserves(st, cwd, file);
  }

  /** Every playlist send leaves the disk a tree. */
  lemma PlaylistDeliveryPreserves(st: DiskState, cwd: Path, dir: string, uri: string, rendered: Option<Bytes>)
    requires WellFormed(st)
    ensures WellFormed(PlaylistDelivery(st, cwd, dir, uri, rendered).disk)
  {
    var st1 := EnsureDirectory(st, cwd, dir);
    var file := dir + "/" + uri;
    EnsureDirectoryPreserves(st, cwd, dir);
    if EnsureFile(st1, cwd, file).Some? {
      var st2 := EnsureFile(st1, cwd, file).value;
      EnsureFilePreserves(st1, cwd, file);
      OpenForWritePreserves(st2, cwd, file);
      if CanOpenForWrite(st2, cwd, file) && rendered.Some? {
        AppendPreserves(AfterOpenForWrite(st2, cwd, file), Locate(cwd, file).value, rendered.value);
      }
    }
  }

  /** A non-zero result means the serialiser succeeded, the result is its
      length, and the file holds exactly those bytes. */
  lemma PlaylistDeliveryResult(st: DiskState, cwd: Path, dir: string, uri: string, rendered: Option<Bytes>)
    ensures var d := PlaylistDelivery(st, cwd, dir, uri, rendered);
      d.result != 0 ==>
        && rendered.Some? && d.result == |rendered.value|
        && Locate(cwd, dir + "/" + uri).Some?
        && d.disk.files[Locate(cwd, dir + "/" + uri).value] == rendered.value
  {
    var file := dir + "/" + uri;
    var st1 := EnsureDirectory(st, cwd, dir);
    if EnsureFile(st1, cwd, file).Some? {
      var st2 := EnsureFile(st1, cwd, file).value;
      if CanOpenForWrite(st2, cwd, file) && rendered.Some? {
        var p := Locate(cwd, file).value;
        assert AfterOpenForWrite(st2, cwd, file).files[p] == [];
        assert [] + rendered.value == rendered.value;
      }
    }
  }

  /** When the directory is not blocked by a file and `file` names an entry in
      it that is not a directory, making the directory and then the file
      succeeds: the directory and all its ancestors exist, and the file does
      and can be opened for writing. */
  lemma PrepareFileSucceeds(st: DiskState, cwd: Path, dir: string, file: string, name: string)
    requires WellFormed(st)
    requires Locate(cwd, dir).Some? && Locate(cwd, dir).value !in st.files && !UnderFile(st, Locate(cwd, dir).value)
    requires Locate(cwd, file) == Some(Locate(cwd, dir).value + [name])
    requires Locate(cwd, dir).value + [name] !in st.dirs
    ensures var st1 := EnsureDirectory(st, cwd, dir);
      && EnsureFile(st1, cwd, file).Some?
      && var st2 := EnsureFile(st1, cwd, file).value;
      && (forall i :: 0 <= i <= |Locate(cwd, dir).value| ==> Locate(cwd, dir).value[..i] in st2.dirs)
      && Locate(cwd, dir).value + [name] in st2.files
      && CanOpenForWrite(st2, cwd, file)
  {
    var p := Locate(cwd, dir).value;
    var f := p + [name];
    var st1 := EnsureDirectory(st, cwd, dir);
    forall i | 0 <= i <= |p| ensures p[..i] in st1.dirs {
      MkdirsMakesDirectory(st, cwd, dir, i);
      if PathExists(st, cwd, dir) {
        AncestorsAreDirs(st, p, i);
      }
    }
    assert p == f[..|f| - 1];
    assert f !in Prefixes(p) by {
      forall i | 0 <= i <= |p| ensures p[..i] != f {
        assert |p[..i]| < |f|;
      }
    }
    assert Parent(f) in st1.dirs by {
      assert p[..|p|] == p;
    }
    var st2 := EnsureFile(st1, cwd, file).value;
    assert st2.dirs == st1.dirs;
  }

  /** Under the same conditions a playlist send creates the directory with all
      its ancestors and leaves the file holding exactly the serialised bytes
      (empty when the serialiser fails); it returns their number. */
  lemma PlaylistDeliveryWrites(st: DiskState, cwd: Path, dir: string, uri: string, rendered: Option<Bytes>, name: string)
    requires WellFormed(st)
    requires Locate(cwd, dir).Some? && Locate(cwd, dir).value !in st.files && !UnderFile(st, Locate(cwd, dir).value)
    requires Locate(cwd, dir + "/" + uri) == Some(Locate(cwd, dir).value + [name])
    requires Locate(cwd, dir).value + [name] !in st.dirs
    ensures var d := PlaylistDelivery(st, cwd, dir, uri, rendered);
      && (forall i :: 0 <= i <= |Locate(cwd, dir).value| ==> Locate(cwd, dir).value[..i] in d.disk.dirs)
      && Locate(cwd, dir).value + [name] in d.disk.files
      && d.disk.files[Locate(cwd, dir).value + [name]] == (if rendered.Some? then rendered.value else [])
      && d.result == (if rendered.Some? then |rendered.value| else 0)
  {
    PrepareFileSucceeds(st, cwd, dir, dir + "/" + uri, name);
    if rendered.Some? {
      assert [] + rendered.value == rendered.value;
    }
  }

  /** Under the same conditions for the session directory, a segment send
      creates it and leaves the segment file holding exactly the payload, the
      result being its length as an `int`; with a null list the file exists,
      keeps what it held, and the result is 1. */
  lemma SegmentDeliveryWrites(st: DiskState, cwd: Path, dir: string, session: string, name: string, fragments: Option<seq<Fragment>>)
    requires WellFormed(st)
    requires IsPlainName(session) && IsPlainName(name) && MEDIA_MARK[1..] <= name
    requires var sd := Locate(cwd, dir + "/" + session);
      sd.Some? && sd.value !in st.files && !UnderFile(st, sd.value) && sd.value + [name] !in st.dirs
    ensures var d := SegmentDelivery(st, cwd, dir, SegmentUri(session, name), fragments);
      var f := Locate(cwd, dir + "/" + session).value + [name];
      && f in d.disk.files
      && (fragments.Some? ==> d.disk.files[f] == Payload(fragments.value) && d.result == Int32(|Payload(fragments.value)|))
      && (fragments.None? ==> d.result == 1 && (f in st.files ==> d.disk.files[f] == st.files[f]))
      && (fragments == Some([]) ==> d.disk.files[f] == [] && d.result == 0)
  {
    var uri := SegmentUri(session, name);
    var file := dir + "/" + uri;
    SegmentParentIsSessionDir(dir, session, name);
    assert file == (dir + "/" + session) + "/" + name;
    assert file[..|dir + "/" + session|] == dir + "/" + session;
    LocateChild(cwd, dir + "/" + session, name);
    PrepareFileSucceeds(st, cwd, dir + "/" + session, file, name);
    if fragments.Some? {
      assert [] + Payload(fragments.value) == Payload(fragments.value);
    }
  }

  /** Where a playlist referenced as `../<g>/<name>` lands when it is written
      into `root/<d>`: in `root/<g>`, whatever `d` is. */
  lemma PlaylistReferenceLocation(cwd: Path, root: string, d: string, g: string, name: string)
    requires root != "" && IsPlainName(d) && IsPlainName(g) && IsPlainName(name)
    ensures Locate(cwd, FileNormalize(root + "/" + d) + "/" + GroupPlaylistUri(g, name))
         == Some(Locate(cwd, root).value + [g, name])
  {
    LocateUnderNormalized(cwd, root + "/" + d, GroupPlaylistUri(g, name));
    LocateSibling(cwd, root, d, g, name);
    LocateChild(cwd, root, g);
    LocateChild(cwd, root + "/" + g, name);
    assert Locate(cwd, root).value + [g] + [name] == Locate(cwd, root).value + [g, name];
  }

  /** A rewritten master or media playlist lands in the destination directory. */
  lemma StreamPlaylistLocation(cwd: Path, rootDir: Option<string>, dstStreamName: string, backup: bool, name: string)
    requires Show(rootDir) != "" && IsPlainName(dstStreamName) && IsPlainName(name)
    ensures Locate(cwd, DestinationDir(rootDir, dstStreamName, backup)).Some?
    ensures Locate(cwd, DestinationDir(rootDir, dstStreamName, backup) + "/" + StreamPlaylistUri(dstStreamName, backup, name))
         == Some(Locate(cwd, DestinationDir(rootDir, dstStreamName, backup)).value + [name])
  {
    var sd := StreamDir(dstStreamName, backup);
    DestinationDirIsStreamDir(rootDir, dstStreamName, backup);
    StreamDirPlain(dstStreamName, backup);
    StreamPlaylistUriIsDirectoryReference(dstStreamName, backup, name);
    PlaylistReferenceLocation(cwd, Show(rootDir), sd, sd, name);
    DestinationDirLocation(cwd, rootDir, dstStreamName, backup);
    assert Locate(cwd, Show(rootDir)).value + [sd] + [name] == Locate(cwd, Show(rootDir)).value + [sd, name];
  }

  /** A rewritten group master playlist lands in `root/<group>`.  Outside
      backup mode that is the group directory the send creates; in backup mode
      the send creates `root/<dst>-b` instead, and the file lands beside it. */
  lemma GroupPlaylistLocation(cwd: Path, rootDir: Option<string>, groupName: string, dstStreamName: string, backup: bool, name: string)
    requires Show(rootDir) != "" && IsPlainName(groupName) && IsPlainName(dstStreamName) && IsPlainName(name)
    ensures var dir := DestinationGroupDir(rootDir, Some(groupName), dstStreamName, backup);
      Locate(cwd, dir + "/" + GroupPlaylistUri(groupName, name)) == Some(Locate(cwd, Show(rootDir)).value + [groupName, name])
    ensures !backup ==>
      Locate(cwd, DestinationGroupDir(rootDir, Some(groupName), dstStreamName, backup)) == Some(Locate(cwd, Show(rootDir)).value + [groupName])
    ensures backup ==>
      Locate(cwd, DestinationGroupDir(rootDir, Some(groupName), dstStreamName, backup)) == Some(Locate(cwd, Show(rootDir)).value + [dstStreamName + "-b"])
  {
    var root := Show(rootDir);
    var d := if backup then dstStreamName + "-b" else groupName;
    StreamDirPlain(dstStreamName, true);
    assert root + "/" + dstStreamName + "-b" == root + "/" + (dstStreamName + "-b");
    assert DestinationGroupDir(rootDir, Some(groupName), dstStreamName, backup) == FileNormalize(root + "/" + d);
    PlaylistReferenceLocation(cwd, root, d, groupName, name);
    LocateNormalize(cwd, root + "/" + d);
    LocateChild(cwd, root, d);
  }

  /** End to end: a master or media playlist whose URI `name` was rewritten to
      `../<dst>[-b]/<name>` is written to `<destination>/<name>`, the
      destination directory being created on the way. */
  lemma RewrittenPlaylistDelivered(st: DiskState, cwd: Path, rootDir: Option<string>, dstStreamName: string, backup: bool, name: string, rendered: Option<Bytes>)
    requires WellFormed(st) && Show(rootDir) != "" && IsPlainName(dstStreamName) && IsPlainName(name)
    requires var p := Locate(cwd, DestinationDir(rootDir, dstStreamName, backup));
      p.Some? && p.value !in st.files && !UnderFile(st, p.value) && p.value + [name] !in st.dirs
    ensures var dir := DestinationDir(rootDir, dstStreamName, backup);
      var d := PlaylistDelivery(st, cwd, dir, StreamPlaylistUri(dstStreamName, backup, name), rendered);
      var f := Locate(cwd, dir).value + [name];
      && f in d.disk.files
      && d.disk.files[f] == (if rendered.Some? then rendered.value else [])
      && d.result == (if rendered.Some? then |rendered.value| else 0)
  {
    var dir := DestinationDir(rootDir, dstStreamName, backup);
    StreamPlaylistLocation(cwd, rootDir, dstStreamName, backup, name);
    PlaylistDeliveryWrites(st, cwd, dir, StreamPlaylistUri(dstStreamName, backup, name), rendered, name);
  }

  /** A rewritten segment lands in its session directory inside the destination directory. */
  lemma SegmentLocation(cwd: Path, rootDir: Option<string>, dstStreamName: string, backup: bool, session: string, name: string)
    requires Show(rootDir) != "" && IsPlainName(dstStreamName) && IsPlainName(session) && IsPlainName(name)
    ensures var dir := DestinationDir(rootDir, dstStreamName, backup);
      && Locate(cwd, dir).Some?
      && Locate(cwd, dir + "/" + session) == Some(Locate(cwd, dir).value + [session])
      && Locate(cwd, dir + "/" + SegmentUri(session, name)) == Some(Locate(cwd, dir).value + [session, name])
  {
    var dir := DestinationDir(rootDir, dstStreamName, backup);
    DestinationDirIsStreamDir(rootDir, dstStreamName, backup);
    NormalizeKeepsHead(Show(rootDir) + "/" + StreamDir(dstStreamName, backup));
    assert dir + "/" + SegmentUri(session, name) == (dir + "/" + session) + "/" + name;
    LocateChild(cwd, dir, session);
    LocateChild(cwd, dir + "/" + session, name);
    assert Locate(cwd, dir).value + [session] + [name] == Locate(cwd, dir).value + [session, name];
  }

  /** A playlist send touches nothing but the directory it makes and the one file it writes. */
  lemma PlaylistDeliveryFrame(st: DiskState, cwd: Path, dir: string, uri: string, rendered: Option<Bytes>, q: Path)
    requires q in st.files && Some(q) != Locate(cwd, dir + "/" + uri)
    ensures var d := PlaylistDelivery(st, cwd, dir, uri, rendered);
      q in d.disk.files && d.disk.files[q] == st.files[q]
  {
  }

  /** A playlist send only ever adds directories, and only the destination and its ancestors. */
  lemma PlaylistDeliveryDirs(st: DiskState, cwd: Path, dir: string, uri: string, rendered: Option<Bytes>)
    requires Locate(cwd, dir).Some?
    ensures var d := PlaylistDelivery(st, cwd, dir, uri, rendered);
      st.dirs <= d.disk.dirs <= st.dirs + Prefixes(Locate(cwd, dir).value)
  {
  }

  /** A segment send touches no file but the segment file. */
  lemma SegmentDeliveryFrame(st: DiskState, cwd: Path, dir: string, uri: string, fragments: Option<seq<Fragment>>, q: Path)
    requires q in st.files && Some(q) != Locate(cwd, dir + "/" + uri)
    ensures var d := SegmentDelivery(st, cwd, dir, uri, fragments);
      q in d.disk.files && d.disk.files[q] == st.files[q]
  {
  }

  /** A segment send only ever adds directories, and only the parent it cuts
      at the last `/media_` and that parent's ancestors. */
  lemma SegmentDeliveryDirs(st: DiskState, cwd: Path, dir: string, uri: string, fragments: Option<seq<Fragment>>)
    ensures var file := dir + "/" + uri;
      var idx := LastIndexOf(file, MEDIA_MARK);
      var d := SegmentDelivery(st, cwd, dir, uri, fragments);
      && st.dirs <= d.disk.dirs
      && (idx < 0 ==> d.disk.dirs == st.dirs)
      && (idx >= 0 ==> Locate(cwd, file[..idx]).Some? ==> d.disk.dirs <= st.dirs + Prefixes(Locate(cwd, file[..idx]).value))
      && (idx >= 0 ==> Locate(cwd, file[..idx]).None? ==> d.disk.dirs == st.dirs)
  {
  }

  /** Without a `/media_` marker in its path the segment send gives 0 and changes nothing. */
  lemma SegmentWithoutMarker(st: DiskState, cwd: Path, dir: string, uri: string, fragments: Option<seq<Fragment>>)
    requires forall j :: !OccursAt(dir + "/" + uri, MEDIA_MARK, j)
    ensures SegmentDelivery(st, cwd, dir, uri, fragments) == Delivery(0, st)
  {
  }

  /** With a null fragment list the result is 0 or the sentinel 1, and a file
      that was already there keeps its content. */
  lemma SegmentWithNullList(st: DiskState, cwd: Path, dir: string, uri: string)
    requires WellFormed(st)
    ensures var d := SegmentDelivery(st, cwd, dir, uri, None);
      && (d.result == 0 || d.result == 1)
      && (d.result == 1 ==> PathExists(d.disk, cwd, dir + "/" + uri))
      && (forall q :: q in st.files ==> q in d.disk.files && d.disk.files[q] == st.files[q])
  {
  }

  /** With a fragment list, once the file is opened it holds exactly the
      payload and the result is the payload's length as a Java `int`. */
  lemma SegmentWithList(st: DiskState, cwd: Path, dir: string, uri: string, list: seq<Fragment>)
    ensures var d := SegmentDelivery(st, cwd, dir, uri, Some(list));
      d.result != 0 ==>
        && d.result == Int32(|Payload(list)|)
        && Locate(cwd, dir + "/" + uri).Some?
        && d.disk.files[Locate(cwd, dir + "/" + uri).value] == Payload(list)
  {
    var file := dir + "/" + uri;
    var idx := LastIndexOf(file, MEDIA_MARK);
    if idx >= 0 {
      var st1 := EnsureDirectory(st, cwd, file[..idx]);
      if EnsureFile(st1, cwd, file).Some? {
        var st2 := EnsureFile(st1, cwd, file).value;
        if CanOpenForWrite(st2, cwd, file) {
          assert [] + Payload(list) == Payload(list);
        }
      }
    }
  }

  /** A segment URI `<session>/media_<n>` has its parent directory cut right
      before `/media_`, which is the session directory under `dir`. */
  lemma SegmentParentIsSessionDir(dir: string, session: string, name: string)
    requires IsPlainName(session) && '/' !in name && MEDIA_MARK[1..] <= name
    ensures LastIndexOf(dir + "/" + SegmentUri(session, name), MEDIA_MARK) == |dir + "/" + session|
  {
    var file := dir + "/" + SegmentUri(session, name);
    var k := |dir + "/" + session|;
    assert file == (dir + "/" + session) + "/" + name;
    assert file[k..k + |MEDIA_MARK|] == "/" + name[..|MEDIA_MARK| - 1];
    assert OccursAt(file, MEDIA_MARK, k);
    forall j | k < j ensures !OccursAt(file, MEDIA_MARK, j) {
      if j + |MEDIA_MARK| <= |file| {
        assert file[j] == name[j - k - 1];
        assert name[j - k - 1] in name;
        assert file[j..j + |MEDIA_MARK|][0] == file[j] != MEDIA_MARK[0];
      }
    }
  }

  /** `delete` reports 1 exactly when the entry existed and could be removed;
      afterwards it is gone and every other entry is as before, and a 0 leaves
      the disk untouched. */
  lemma SegmentRemovalOutcome(st: DiskState, cwd: Path, dir: string, uri: string)
    requires WellFormed(st)
    ensures var d := SegmentRemoval(st, cwd, dir, uri);
      var l := Locate(cwd, dir + "/" + uri);
      && (d.result == 1 <==> l.Some? && (l.value in st.files || (l.value != [] && IsEmptyDir(st, l.value))))
      && (d.result == 1 ==>
            (!PathExists(d.disk, cwd, dir + "/" + uri) && d.disk.dirs == st.dirs - {l.value} && d.disk.files == st.files - {l.value}))
      && (d.result != 1 ==> d == Delivery(0, st))
  {
  }

  // ---------------------------------------------------------------------------------------
  // The handler object

  class CupertinoFileHandler {
    /** `getDstStreamName()`, fixed by the host. */
    const dstStreamName: string
    /** Whether `new URI(text)` accepts `text`. */
    const isValidUri: string -> bool
    /** `PlaylistWriter.write` followed by `toString().getBytes()`; None when the
        writer reports failure. */
    const serialize: seq<string> -> Option<Bytes>
    /** The disk every `File` call reaches. */
    const fs: FileSystem

    var rootDir: Option<string>
    var backup: bool
    var groupName: Option<string>

    ghost predicate Valid()
      reads this, fs
    {
      fs.Valid()
    }

    constructor (dstStreamName: string, isValidUri: string -> bool, serialize: seq<string> -> Option<Bytes>, fs: FileSystem)
      requires fs.Valid()
      ensures Valid()
      ensures this.dstStreamName == dstStreamName && this.isValidUri == isValidUri
      ensures this.serialize == serialize && this.fs == fs
      ensures rootDir == None && !backup && groupName == None
    {
      this.dstStreamName := dstStreamName;
      this.isValidUri := isValidUri;
      this.serialize := serialize;
      this.fs := fs;
      rootDir := None;
      backup := false;
      groupName := None;
    }

    /** `load`: a `file.root` entry becomes the root directory (as `File` text)
        and is created with a single-level `mkdir` when missing; the entry is
        removed from the configuration map. */
    method Load(dataMap: map<string, string>) returns (remaining: map<string, string>)
      requires Valid()
      modifies this`rootDir, fs
      ensures Valid()
      ensures remaining == dataMap - {FILE_ROOT_KEY}
      ensures FILE_ROOT_KEY !in dataMap ==> rootDir == old(rootDir) && fs.State() == old(fs.State())
      ensures FILE_ROOT_KEY in dataMap ==>
        var root := FileNormalize(dataMap[FILE_ROOT_KEY]);
        && rootDir == Some(root)
        && fs.State() == (if PathExists(old(fs.State()), fs.cwd, root) then old(fs.State()) else AfterMkdir(old(fs.State()), fs.cwd, root))
    {
      var destStr := Lookup(dataMap, FILE_ROOT_KEY);
      remaining := dataMap - {FILE_ROOT_KEY};
      if destStr.Some? {
        rootDir := Some(FileNormalize(destStr.value));
        if !fs.Exists(rootDir.value) {
          var _ := fs.Mkdir(rootDir.value);
        }
      }
    }

    /** `updateGroupMasterPlaylistPlaybackURI`: `../<group>/<path>`, recording the
        group only when the new URI is accepted. */
    method UpdateGroupMasterPlaylistPlaybackUri(group: Option<string>, playlist: PlaylistModel) returns (ok: bool)
      modifies this`groupName, playlist
      ensures var path := GroupPlaylistUri(Show(group), UriPath(old(playlist.uri)));
        && ok == isValidUri(path)
        && playlist.uri == (if ok then path else old(playlist.uri))
        && groupName == (if ok then group else old(groupName))
    {
      var newPath := GroupPlaylistUri(Show(group), UriPath(playlist.uri));
      ok := isValidUri(newPath);
      if ok {
        playlist.uri := newPath;
        groupName := group;
      }
    }

    /** `updateMasterPlaylistPlaybackURI`: `../<dst>[-b]/<uri>`. */
    method UpdateMasterPlaylistPlaybackUri(playlist: PlaylistModel) returns (ok: bool)
      modifies playlist
      ensures var path := StreamPlaylistUri(dstStreamName, backup, old(playlist.uri));
        ok == isValidUri(path) && playlist.uri == (if ok then path else old(playlist.uri))
    {
      var path := StreamPlaylistUri(dstStreamName, backup, playlist.uri);
      ok := isValidUri(path);
      if ok {
        playlist.uri := path;
      }
    }

    /** `updateMediaPlaylistPlaybackURI`: the same rewrite as for the master playlist. */
    method UpdateMediaPlaylistPlaybackUri(playlist: PlaylistModel) returns (ok: bool)
      modifies playlist
      ensures var path := StreamPlaylistUri(dstStreamName, backup, old(playlist.uri));
        ok == isValidUri(path) && playlist.uri == (if ok then path else old(playlist.uri))
    {
      var path := StreamPlaylistUri(dstStreamName, backup, playlist.uri);
      ok := isValidUri(path);
      if ok {
        playlist.uri := path;
      }
    }

    /** `updateMediaSegmentPlaybackURI`: `<session>/<path>`, `session` being
        `getRandomSessionStr()`. */
    method UpdateMediaSegmentPlaybackUri(segment: MediaSegmentModel, session: string) returns (ok: bool)
      modifies segment
      ensures var path := SegmentUri(session, UriPath(old(segment.uri)));
        ok == isValidUri(path) && segment.uri == (if ok then path else old(segment.uri))
    {
      var temp := SegmentUri(session, UriPath(segment.uri));
      ok := isValidUri(temp);
      if ok {
        segment.uri := temp;
      }
    }

    /** `writePlaylist`: serialise and write to the open stream; the byte count, or 0. */
    method WritePlaylist(playlist: PlaylistModel, stream: Path) returns (written: int)
      requires Valid() && stream in fs.files
      modifies fs
      ensures Valid()
      ensures written == (if serialize(playlist.entries).Some? then |serialize(playlist.entries).value| else 0)
      ensures fs.State() == (if serialize(playlist.entries).Some? then AfterAppend(old(fs.State()), stream, serialize(playlist.entries).value) else old(fs.State()))
    {
      written := 0;
      var rendered := serialize(playlist.entries);
      if rendered.Some? {
        fs.Write(stream, rendered.value);
        written := |rendered.value|;
      }
    }

    /** `if (!dir.exists()) dir.mkdirs();` then `if (!file.exists())
        file.createNewFile();`; false when `createNewFile` throws. */
    method PrepareFile(dir: string, file: string) returns (ready: bool)
      requires Valid()
      modifies fs
      ensures Valid()
      ensures var st1 := EnsureDirectory(old(fs.State()), fs.cwd, dir);
        && ready == EnsureFile(st1, fs.cwd, file).Some?
        && fs.State() == (if ready then EnsureFile(st1, fs.cwd, file).value else st1)
    {
      if !fs.Exists(dir) {
        var _ := fs.Mkdirs(dir);
      }
      ready := true;
      if !fs.Exists(file) {
        var created := fs.CreateNewFile(file);
        ready := created.Some?;
      }
    }

    /** The body the three playlist sends share, for the directory `dir`. */
    method DeliverPlaylist(dir: string, playlist: PlaylistModel) returns (result: int)
      requires Valid()
      modifies fs
      ensures Valid()
      ensures Delivery(result, fs.State()) == PlaylistDelivery(old(fs.State()), fs.cwd, dir, playlist.uri, serialize(playlist.entries))
    {
      result := 0;
      var file := dir + "/" + playlist.uri;
      var ready := PrepareFile(dir, file);
      if !ready {
        return;
      }
      var stream := fs.OpenForWrite(file);
      if stream.None? {
        return;
      }
      result := WritePlaylist(playlist, stream.value);
    }

    /** `sendGroupMasterPlaylist`: into the group directory (the group argument is not used). */
    method SendGroupMasterPlaylist(group: Option<string>, playlist: PlaylistModel) returns (result: int)
      requires Valid()
      modifies fs
      ensures Valid()
      ensures Delivery(result, fs.State())
           == PlaylistDelivery(old(fs.State()), fs.cwd, DestinationGroupDir(rootDir, groupName, dstStreamName, backup), playlist.uri, serialize(playlist.entries))
    {
      result := DeliverPlaylist(DestinationGroupDir(rootDir, groupName, dstStreamName, backup), playlist);
    }

    /** `sendMasterPlaylist`: into the destination directory. */
    method SendMasterPlaylist(playlist: PlaylistModel) returns (result: int)
      requires Valid()
      modifies fs
      ensures Valid()
      ensures Delivery(result, fs.State())
           == PlaylistDelivery(old(fs.State()), fs.cwd, DestinationDir(rootDir, dstStreamName, backup), playlist.uri, serialize(playlist.entries))
    {
      result := DeliverPlaylist(DestinationDir(rootDir, dstStreamName, backup), playlist);
    }

    /** `sendMediaPlaylist`: into the destination directory. */
    method SendMediaPlaylist(playlist: PlaylistModel) returns (result: int)
      requires Valid()
      modifies fs
      ensures Valid()
      ensures Delivery(result, fs.State())
           == PlaylistDelivery(old(fs.State()), fs.cwd, DestinationDir(rootDir, dstStreamName, backup), playlist.uri, serialize(playlist.entries))
    {
      result := DeliverPlaylist(DestinationDir(rootDir, dstStreamName, backup), playlist);
    }

    /** `sendMediaSegment`: the fragment loop writes each buffer whose fragment
        has a positive length and adds its length to the `int` result. */
    method SendMediaSegment(segment: MediaSegmentModel) returns (result: int)
      requires Valid()
      modifies fs
      ensures Valid()
      ensures Delivery(result, fs.State())
           == SegmentDelivery(old(fs.State()), fs.cwd, DestinationDir(rootDir, dstStreamName, backup), segment.uri, segment.fragments)
    {
      result := 0;
      var dir := DestinationDir(rootDir, dstStreamName, backup);
      var path := dir + "/" + segment.uri;
      var idx := LastIndexOf(path, MEDIA_MARK);
      if idx < 0 {
        return;
      }
      var ready := PrepareFile(path[..idx], path);
      if !ready {
        return;
      }
      var list := segment.fragments;
      if list.None? {
        result := 1;
        return;
      }
      var stream := fs.OpenForWrite(path);
      if stream.None? {
        return;
      }
      result := WriteFragments(stream.value, list.value);
      assert [] + Payload(list.value) == Payload(list.value);
    }

    /** The fragment loop of `sendMediaSegment`: each buffer whose fragment has a
        positive length is written, and its length added to the `int` count. */
    method WriteFragments(stream: Path, fragments: seq<Fragment>) returns (written: int)
      requires Valid() && stream in fs.files && fs.files[stream] == []
      modifies fs
      ensures Valid()
      ensures written == Int32(|Payload(fragments)|)
      ensures fs.State() == old(fs.State()).(files := old(fs.State()).files[stream := Payload(fragments)])
    {
      written := 0;
      var i := 0;
      while i < |fragments|
        invariant 0 <= i <= |fragments|
        invariant fs.Valid()
        invariant fs.State() == old(fs.State()).(files := old(fs.State()).files[stream := Payload(fragments[..i])])
        invariant written == Int32(|Payload(fragments[..i])|)
      {
        PayloadStep(fragments, i);
        var fragment := fragments[i];
        if fragment.len <= 0 {
          assert Payload(fragments[..i + 1]) == Payload(fragments[..i]) + [] == Payload(fragments[..i]);
        } else {
          fs.Write(stream, fragment.buffer);
          Int32Accumulate(|Payload(fragments[..i])|, |fragment.buffer|);
          written := Int32(written + |fragment.buffer|);
        }
        i := i + 1;
      }
      assert fragments[..i] == fragments;
    }

    /** `deleteMediaSegment`. */
    method DeleteMediaSegment(segment: MediaSegmentModel) returns (result: int)
      requires Valid()
      modifies fs
      ensures Valid()
      ensures Delivery(result, fs.State())
           == SegmentRemoval(old(fs.State()), fs.cwd, DestinationDir(rootDir, dstStreamName, backup), segment.uri)
    {
      result := 0;
      var file := DestinationDir(rootDir, dstStreamName, backup) + "/" + segment.uri;
      if fs.Exists(file) {
        var deleted := fs.Delete(file);
        if deleted {
          result := 1;
        }
      }
    }

    /** `setSendToBackupServer`. */
    method SetSendToBackupServer(backup: bool)
      modifies this`backup
      ensures this.backup == backup && IsSendToBackupServer() == backup
    {
      this.backup := backup;
    }

    /** `isSendToBackupServer`. */
    function IsSendToBackupServer(): bool
      reads this
    {
      backup
    }
  }
}
