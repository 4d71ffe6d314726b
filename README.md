# Cupertino push-publish handlers in Dafny

This project models the two Wowza push-publish handlers that send an Apple
HLS ("Cupertino") stream somewhere other than a Wowza server:

- `PushPublishHTTPCupertinoHTTPHandler` puts the playlists and media
  segments on a web server with HTTP `PUT`, and removes segments with
  `DELETE`.
- `PushPublishHTTPCupertinoFileHandler` writes the same files below a local
  root directory and deletes segments from it.

Both handlers follow the same steps. They read their settings from the
profile map (`load`). They rewrite playback URIs so that playlists refer to
one another as `../<dir>/<name>` and segments sit in a per-session
directory. They then deliver a master playlist, a media playlist, a group
master playlist or a segment. They return a byte count, a sentinel 1 or 0.

The model is organised as follows:

- `JavaLang`: the Java behaviour the handlers rely on.
  - null strings concatenated as `"null"`, `StringUtils.isEmpty` and map lookup;
  - `int` wrap-around;
  - `Integer.toString` and `lastIndexOf`.
- `JavaRegex`: `String.replaceFirst("../", r)`. The pattern's `.` matches
  any character except a line terminator, and the replacement text gets
  `appendReplacement`'s `$`/`\` handling, including the exception for a
  group reference that does not exist.
- `MediaModel`:
  - the caller's playlist and segment objects, whose URI the rewrites change in place;
  - packet fragments and the bytes a fragment loop emits;
  - `URI.getPath()` for relative references.
- `PlaybackUri`: the URI rewrites both handlers share, and their round trips.
- `Disk`: a `java.io.File` view of a disk.
  - Path text with `File` normalisation and lexical `.`/`..` resolution.
  - A tree of directories and files.
  - Pure functions for `exists`, `mkdir`, `mkdirs`, `createNewFile`,
    `FileOutputStream(file, false)`, `write` and `delete`.
  - A `FileSystem` class whose methods perform those calls in place.
- `HttpSink`: the web server, seen as the log of requests it received. Each
  exchange is given its reply: a status code, or a transport failure in which
  nothing arrives.
- `FileHandler` and `HttpHandler`: the two handlers.
  - Each is a class with the source's fields.
  - Each send or delete is a method proved equal to a specification function
    of the old state. For the file handler that is the disk; for the HTTP
    handler it is the request log.
  - Lemmas state what those functions guarantee.

Two behaviours of the code that a reader may not expect, which the model follows:

- The HTTP handler builds every URL as scheme, host, port, `/`, then the
  destination path. When the base path begins with `/` (the default `/`, or
  an `http.path` such as `/pub`), segment URLs have a doubled slash
  (`http://h//pub/foo/S/media_1.ts`, lemma `HttpHandler.ExampleSegmentUrl`).
  An `http.path` without a leading `/`, such as `pub`, becomes `pub/` and
  gives a single slash (`http://h/pub/foo/S/media_1.ts`).
- In backup mode the file handler writes the group master playlist into
  `<root>/<dst>-b`. Its rewritten reference `../<group>/...` then points beside
  that directory, to `<root>/<group>` (lemma
  `FileHandler.GroupPlaylistLocation`).

## Model

| member | source | states |
|---|---|---|
| JavaLang.Int32 | src/com/mycompany/wms/example/pushpublish/protocol/cupertino/PushPublishHTTPCupertinoHTTPHandler.java:250 | the `int` an accumulating `size += data.length` holds: in range, congruent modulo 2^32 to the exact sum, and equal to it when it fits |
| JavaLang.Int32Accumulate | src/com/mycompany/wms/example/pushpublish/protocol/cupertino/PushPublishHTTPCupertinoHTTPHandler.java:241-251 | adding lengths into an `int` one at a time wraps like wrapping the exact total once, so the loops' running sum is the wrapped payload length |
| JavaLang.DecimalRoundTrip | src/com/mycompany/wms/example/pushpublish/protocol/cupertino/PushPublishHTTPCupertinoHTTPHandler.java:410 | the number text `":" + port` appends parses back to the port |
| JavaLang.LastIndexOf | src/com/mycompany/wms/example/pushpublish/protocol/cupertino/PushPublishHTTPCupertinoFileHandler.java:261 | `lastIndexOf("/media_")`: -1 exactly when the marker does not occur, otherwise an occurrence with none after it |
| JavaRegex.FirstMatchFrom | src/com/mycompany/wms/example/pushpublish/protocol/cupertino/PushPublishHTTPCupertinoHTTPHandler.java:197 | the leftmost position at or after `from` where the regex `../` matches, or -1 when there is none |
| JavaRegex.ReplaceLeadingDotDotSlash | src/com/mycompany/wms/example/pushpublish/protocol/cupertino/PushPublishHTTPCupertinoHTTPHandler.java:197 | for a path starting with `../` and a base path without `$` or `\`, `replaceFirst` swaps exactly those three characters for the base path |
| JavaRegex.NoMatchUnchanged | src/com/mycompany/wms/example/pushpublish/protocol/cupertino/PushPublishHTTPCupertinoHTTPHandler.java:207 | a path with no match of `../` comes back unchanged, whatever the replacement |
| JavaRegex.BadGroupThrows | src/com/mycompany/wms/example/pushpublish/protocol/cupertino/PushPublishHTTPCupertinoHTTPHandler.java:217 | a replacement holding `$` and a digit 1-9 makes `replaceFirst` throw once the pattern matches |
| JavaRegex.ExpandLiteral | src/com/mycompany/wms/example/pushpublish/protocol/cupertino/PushPublishHTTPCupertinoHTTPHandler.java:197 | a replacement without `$` or `\` is inserted verbatim |
| MediaModel.PayloadStep | src/com/mycompany/wms/example/pushpublish/protocol/cupertino/PushPublishHTTPCupertinoFileHandler.java:278-288 | one more fragment adds exactly its contribution, which is empty when its length is not positive |
| MediaModel.PayloadConcat | src/com/mycompany/wms/example/pushpublish/protocol/cupertino/PushPublishHTTPCupertinoFileHandler.java:278-288 | the bytes emitted for a concatenated fragment list are the concatenation of the bytes for each part |
| MediaModel.PayloadSplitsAt | src/com/mycompany/wms/example/pushpublish/protocol/cupertino/PushPublishHTTPCupertinoHTTPHandler.java:245-249 | a fragment with positive length is emitted whole, between the bytes of the fragments before and after it |
| MediaModel.PayloadOfEmptyFragments | src/com/mycompany/wms/example/pushpublish/protocol/cupertino/PushPublishHTTPCupertinoFileHandler.java:282-283 | a list whose fragments all have non-positive length emits no bytes |
| MediaModel.UriPath | src/com/mycompany/wms/example/pushpublish/protocol/cupertino/PushPublishHTTPCupertinoHTTPHandler.java:120 | `getPath()` of a scheme-less reference without a leading `//` is the prefix of the URI text before the first `?` or `#` |
| MediaModel.UriPathOfPlainPath | src/com/mycompany/wms/example/pushpublish/protocol/cupertino/PushPublishHTTPCupertinoHTTPHandler.java:197 | a reference without `?` or `#` is all path |
| PlaybackUri.StreamPlaylistUriRoundTrip | src/com/mycompany/wms/example/pushpublish/protocol/cupertino/PushPublishHTTPCupertinoHTTPHandler.java:139 | the master and media playlist reference points into `<dst>` or `<dst>-b` and gives back the URI it replaced |
| PlaybackUri.GroupPlaylistUriRoundTrip | src/com/mycompany/wms/example/pushpublish/protocol/cupertino/PushPublishHTTPCupertinoHTTPHandler.java:120 | the group playlist reference points into the group directory and gives back the path it replaced |
| PlaybackUri.StreamDirPlain | src/com/mycompany/wms/example/pushpublish/protocol/cupertino/PushPublishHTTPCupertinoHTTPHandler.java:401-403 | a plain stream name gives a plain backup directory name, distinct from the primary one |
| Disk.DoubleSlashHarmless | src/com/mycompany/wms/example/pushpublish/protocol/cupertino/PushPublishHTTPCupertinoFileHandler.java:390 | the doubled `/` of the backup destination is removed by `File` normalisation |
| Disk.NormalizeKeepsHead | src/com/mycompany/wms/example/pushpublish/protocol/cupertino/PushPublishHTTPCupertinoFileHandler.java:389 | normalising never empties a path nor makes a relative path absolute |
| Disk.ComponentsNormalize | src/com/mycompany/wms/example/pushpublish/protocol/cupertino/PushPublishHTTPCupertinoFileHandler.java:389 | normalisation keeps every name of a path |
| Disk.LocateNormalize | src/com/mycompany/wms/example/pushpublish/protocol/cupertino/PushPublishHTTPCupertinoFileHandler.java:389 | normalisation never changes where a path leads |
| Disk.LocateJoin | src/com/mycompany/wms/example/pushpublish/protocol/cupertino/PushPublishHTTPCupertinoFileHandler.java:260 | `a + "/" + b` leads where `b`'s names lead from `a` |
| Disk.LocateChild | src/com/mycompany/wms/example/pushpublish/protocol/cupertino/PushPublishHTTPCupertinoFileHandler.java:269 | appending `/` and a plain name goes one entry down |
| Disk.LocateSibling | src/com/mycompany/wms/example/pushpublish/protocol/cupertino/PushPublishHTTPCupertinoFileHandler.java:155 | a parent-relative reference `a/<n>/../<m>/b` lands at `a/<m>/b` |
| Disk.LocateUnderNormalized | src/com/mycompany/wms/example/pushpublish/protocol/cupertino/PushPublishHTTPCupertinoFileHandler.java:191 | text appended to a normalised `File` leads where it leads after the raw text |
| Disk.MkdirPreserves | src/com/mycompany/wms/example/pushpublish/protocol/cupertino/PushPublishHTTPCupertinoFileHandler.java:61 | `mkdir` keeps the disk a tree |
| Disk.MkdirsPreserves | src/com/mycompany/wms/example/pushpublish/protocol/cupertino/PushPublishHTTPCupertinoFileHandler.java:153 | `mkdirs` keeps the disk a tree |
| Disk.MkdirsMakesDirectory | src/com/mycompany/wms/example/pushpublish/protocol/cupertino/PushPublishHTTPCupertinoFileHandler.java:266-267 | when no file blocks it, after `exists`/`mkdirs` the directory and every ancestor are directories |
| Disk.CreateNewFilePreserves | src/com/mycompany/wms/example/pushpublish/protocol/cupertino/PushPublishHTTPCupertinoFileHandler.java:157 | `createNewFile` keeps the disk a tree |
| Disk.OpenForWritePreserves | src/com/mycompany/wms/example/pushpublish/protocol/cupertino/PushPublishHTTPCupertinoFileHandler.java:159 | opening without append keeps the disk a tree |
| Disk.AppendPreserves | src/com/mycompany/wms/example/pushpublish/protocol/cupertino/PushPublishHTTPCupertinoFileHandler.java:286 | writing keeps the disk a tree |
| Disk.DeletePreserves | src/com/mycompany/wms/example/pushpublish/protocol/cupertino/PushPublishHTTPCupertinoFileHandler.java:322 | `delete` keeps the disk a tree |
| Disk.AncestorsAreDirs | src/com/mycompany/wms/example/pushpublish/protocol/cupertino/PushPublishHTTPCupertinoFileHandler.java:152-153 | in a tree every ancestor of a directory is a directory |
| Disk.FileSystem.Mkdir | src/com/mycompany/wms/example/pushpublish/protocol/cupertino/PushPublishHTTPCupertinoFileHandler.java:59-63 | reports success exactly when the parent is a directory and nothing is there, and makes exactly that directory |
| Disk.FileSystem.Mkdirs | src/com/mycompany/wms/example/pushpublish/protocol/cupertino/PushPublishHTTPCupertinoFileHandler.java:152-153 | reports success exactly when nothing is there and no ancestor is a file, and adds the directory with all its ancestors |
| Disk.FileSystem.CreateNewFile | src/com/mycompany/wms/example/pushpublish/protocol/cupertino/PushPublishHTTPCupertinoFileHandler.java:156-157 | creates an empty file when the parent is a directory and nothing is there; otherwise reports false, or throws when the parent is missing |
| Disk.FileSystem.OpenForWrite | src/com/mycompany/wms/example/pushpublish/protocol/cupertino/PushPublishHTTPCupertinoFileHandler.java:159 | opens exactly when the path is not a directory and is or can become a file, leaving it empty |
| Disk.FileSystem.Write | src/com/mycompany/wms/example/pushpublish/protocol/cupertino/PushPublishHTTPCupertinoFileHandler.java:286 | appends the bytes to the open file and changes nothing else |
| Disk.FileSystem.Delete | src/com/mycompany/wms/example/pushpublish/protocol/cupertino/PushPublishHTTPCupertinoFileHandler.java:322 | removes a file or an empty non-root directory, reporting whether it did |
| FileHandler.DestinationDirIsStreamDir | src/com/mycompany/wms/example/pushpublish/protocol/cupertino/PushPublishHTTPCupertinoFileHandler.java:386-391 | the destination directory is the root joined with `<dst>` or `<dst>-b` |
| FileHandler.BackupGroupDirIsStreamDir | src/com/mycompany/wms/example/pushpublish/protocol/cupertino/PushPublishHTTPCupertinoFileHandler.java:393-398 | in backup mode the group directory is the stream's backup directory, whatever the group is called |
| FileHandler.DestinationDirLocation | src/com/mycompany/wms/example/pushpublish/protocol/cupertino/PushPublishHTTPCupertinoFileHandler.java:386-391 | for a non-empty root and a plain stream name the destination is one directory below the root |
| FileHandler.EnsureDirectoryPreserves | src/com/mycompany/wms/example/pushpublish/protocol/cupertino/PushPublishHTTPCupertinoFileHandler.java:152-153 | the directory step of a send keeps the disk a tree |
| FileHandler.EnsureFilePreserves | src/com/mycompany/wms/example/pushpublish/protocol/cupertino/PushPublishHTTPCupertinoFileHandler.java:156-157 | the file-creation step of a send keeps the disk a tree |
| FileHandler.PlaylistDeliveryPreserves | src/com/mycompany/wms/example/pushpublish/protocol/cupertino/PushPublishHTTPCupertinoFileHandler.java:181-214 | every playlist send leaves the disk a tree |
| FileHandler.PlaylistDeliveryResult | src/com/mycompany/wms/example/pushpublish/protocol/cupertino/PushPublishHTTPCupertinoFileHandler.java:369-384 | a non-zero result means the writer succeeded, the result is its byte count, and the file holds exactly those bytes |
| FileHandler.PrepareFileSucceeds | src/com/mycompany/wms/example/pushpublish/protocol/cupertino/PushPublishHTTPCupertinoFileHandler.java:187-193 | when nothing blocks the directory, it is created with all ancestors and the file exists and can be opened |
| FileHandler.PlaylistDeliveryWrites | src/com/mycompany/wms/example/pushpublish/protocol/cupertino/PushPublishHTTPCupertinoFileHandler.java:187-196 | under those conditions the file holds exactly the serialised playlist (empty when the writer fails), and the result is its length |
| FileHandler.PlaylistDeliveryFrame | src/com/mycompany/wms/example/pushpublish/protocol/cupertino/PushPublishHTTPCupertinoFileHandler.java:181-214 | a playlist send leaves every other file's content as it was |
| FileHandler.PlaylistDeliveryDirs | src/com/mycompany/wms/example/pushpublish/protocol/cupertino/PushPublishHTTPCupertinoFileHandler.java:187-189 | a playlist send only adds directories, and only the destination and its ancestors |
| FileHandler.PlaylistReferenceLocation | src/com/mycompany/wms/example/pushpublish/protocol/cupertino/PushPublishHTTPCupertinoFileHandler.java:191 | a reference `../<g>/<name>` written under `root/<d>` lands in `root/<g>/<name>` |
| FileHandler.StreamPlaylistLocation | src/com/mycompany/wms/example/pushpublish/protocol/cupertino/PushPublishHTTPCupertinoFileHandler.java:187-191 | a rewritten master or media playlist lands directly in the destination directory |
| FileHandler.GroupPlaylistLocation | src/com/mycompany/wms/example/pushpublish/protocol/cupertino/PushPublishHTTPCupertinoFileHandler.java:393-398 | a rewritten group playlist lands in `root/<group>`; the send creates that directory only outside backup mode |
| FileHandler.RewrittenPlaylistDelivered | src/com/mycompany/wms/example/pushpublish/protocol/cupertino/PushPublishHTTPCupertinoFileHandler.java:180-214 | end to end: a rewritten playlist becomes the file `<destination>/<name>` holding the serialised playlist |
| FileHandler.SegmentLocation | src/com/mycompany/wms/example/pushpublish/protocol/cupertino/PushPublishHTTPCupertinoFileHandler.java:259-271 | a rewritten segment lands in its session directory inside the destination |
| FileHandler.SegmentParentIsSessionDir | src/com/mycompany/wms/example/pushpublish/protocol/cupertino/PushPublishHTTPCupertinoFileHandler.java:260-262 | for `<session>/media_<n>` the cut before the last `/media_` is exactly the session directory |
| FileHandler.SegmentDeliveryWrites | src/com/mycompany/wms/example/pushpublish/protocol/cupertino/PushPublishHTTPCupertinoFileHandler.java:259-291 | the segment file ends holding exactly the payload and the result is its wrapped length; with an empty list the file is empty and the result 0; with a null list the result is 1 and an existing file is untouched |
| FileHandler.SegmentDeliveryFrame | src/com/mycompany/wms/example/pushpublish/protocol/cupertino/PushPublishHTTPCupertinoFileHandler.java:252-313 | a segment send leaves every file other than the segment file with its content |
| FileHandler.SegmentDeliveryDirs | src/com/mycompany/wms/example/pushpublish/protocol/cupertino/PushPublishHTTPCupertinoFileHandler.java:259-267 | a segment send only adds directories, and only the parent cut at the last `/media_` and its ancestors; without the marker, or when the parent names nothing, no directory is added |
| FileHandler.SegmentWithoutMarker | src/com/mycompany/wms/example/pushpublish/protocol/cupertino/PushPublishHTTPCupertinoFileHandler.java:261-262 | without a `/media_` marker the send gives 0 and changes nothing |
| FileHandler.SegmentWithNullList | src/com/mycompany/wms/example/pushpublish/protocol/cupertino/PushPublishHTTPCupertinoFileHandler.java:273-291 | with a null list the result is 0 or 1, 1 implies the file exists, and no file content changes |
| FileHandler.SegmentWithList | src/com/mycompany/wms/example/pushpublish/protocol/cupertino/PushPublishHTTPCupertinoFileHandler.java:273-289 | with a list, a non-zero result is the wrapped payload length and the file holds exactly the payload |
| FileHandler.SegmentRemovalOutcome | src/com/mycompany/wms/example/pushpublish/protocol/cupertino/PushPublishHTTPCupertinoFileHandler.java:316-326 | the delete returns 1 exactly when the entry exists and can be removed; it is then gone and nothing else changed, and a 0 changes nothing |
| FileHandler.CupertinoFileHandler.constructor | src/com/mycompany/wms/example/pushpublish/protocol/cupertino/PushPublishHTTPCupertinoFileHandler.java:40-42 | no root, not in backup mode, no group name |
| FileHandler.CupertinoFileHandler.Load | src/com/mycompany/wms/example/pushpublish/protocol/cupertino/PushPublishHTTPCupertinoFileHandler.java:49-65 | `file.root` (removed from the map) becomes the root and is created with one `mkdir` if missing; with no entry nothing changes |
| FileHandler.CupertinoFileHandler.UpdateGroupMasterPlaylistPlaybackUri | src/com/mycompany/wms/example/pushpublish/protocol/cupertino/PushPublishHTTPCupertinoFileHandler.java:67-83 | the URI becomes `../<group>/<path>` and the group is recorded exactly when that URI is valid; otherwise both are kept and false is returned |
| FileHandler.CupertinoFileHandler.UpdateMasterPlaylistPlaybackUri | src/com/mycompany/wms/example/pushpublish/protocol/cupertino/PushPublishHTTPCupertinoFileHandler.java:85-101 | the URI becomes `../<dst>[-b]/<uri>` exactly when that is valid, and the result says whether it was |
| FileHandler.CupertinoFileHandler.UpdateMediaPlaylistPlaybackUri | src/com/mycompany/wms/example/pushpublish/protocol/cupertino/PushPublishHTTPCupertinoFileHandler.java:103-119 | the same rewrite as for the master playlist |
| FileHandler.CupertinoFileHandler.UpdateMediaSegmentPlaybackUri | src/com/mycompany/wms/example/pushpublish/protocol/cupertino/PushPublishHTTPCupertinoFileHandler.java:121-142 | the URI becomes `<session>/<path>` exactly when that is valid |
| FileHandler.CupertinoFileHandler.WritePlaylist | src/com/mycompany/wms/example/pushpublish/protocol/cupertino/PushPublishHTTPCupertinoFileHandler.java:369-384 | writes the serialised playlist and returns its length, or writes nothing and returns 0 when the writer fails |
| FileHandler.CupertinoFileHandler.PrepareFile | src/com/mycompany/wms/example/pushpublish/protocol/cupertino/PushPublishHTTPCupertinoFileHandler.java:152-157 | makes the directory if missing, then the file if missing; false exactly when `createNewFile` throws |
| FileHandler.CupertinoFileHandler.DeliverPlaylist | src/com/mycompany/wms/example/pushpublish/protocol/cupertino/PushPublishHTTPCupertinoFileHandler.java:187-197 | result and disk are those of the playlist delivery function for the given directory |
| FileHandler.CupertinoFileHandler.SendGroupMasterPlaylist | src/com/mycompany/wms/example/pushpublish/protocol/cupertino/PushPublishHTTPCupertinoFileHandler.java:144-178 | the playlist delivery into the group directory |
| FileHandler.CupertinoFileHandler.SendMasterPlaylist | src/com/mycompany/wms/example/pushpublish/protocol/cupertino/PushPublishHTTPCupertinoFileHandler.java:180-214 | the playlist delivery into the destination directory |
| FileHandler.CupertinoFileHandler.SendMediaPlaylist | src/com/mycompany/wms/example/pushpublish/protocol/cupertino/PushPublishHTTPCupertinoFileHandler.java:216-250 | the playlist delivery into the destination directory |
| FileHandler.CupertinoFileHandler.SendMediaSegment | src/com/mycompany/wms/example/pushpublish/protocol/cupertino/PushPublishHTTPCupertinoFileHandler.java:252-313 | result and disk are those of the segment delivery function |
| FileHandler.CupertinoFileHandler.WriteFragments | src/com/mycompany/wms/example/pushpublish/protocol/cupertino/PushPublishHTTPCupertinoFileHandler.java:276-288 | the freshly truncated file ends holding exactly the payload and the result is its wrapped length |
| FileHandler.CupertinoFileHandler.DeleteMediaSegment | src/com/mycompany/wms/example/pushpublish/protocol/cupertino/PushPublishHTTPCupertinoFileHandler.java:315-326 | result and disk are those of the segment removal function |
| FileHandler.CupertinoFileHandler.SetSendToBackupServer | src/com/mycompany/wms/example/pushpublish/protocol/cupertino/PushPublishHTTPCupertinoFileHandler.java:328-338 | afterwards `isSendToBackupServer` reports the value set |
| HttpHandler.ConfiguredBasePath | src/com/mycompany/wms/example/pushpublish/protocol/cupertino/PushPublishHTTPCupertinoHTTPHandler.java:95-99 | a non-empty `http.path` replaces the base path, otherwise it is kept; the chosen text is kept as is when it ends with `/`, and gets exactly one `/` appended otherwise (also when empty) |
| HttpHandler.ConfiguredBasePathIdempotent | src/com/mycompany/wms/example/pushpublish/protocol/cupertino/PushPublishHTTPCupertinoHTTPHandler.java:95-99 | a second load without `http.path`, or with the same `http.path`, leaves the base path as the first load made it |
| HttpHandler.SslRequestedMeaning | src/com/mycompany/wms/example/pushpublish/protocol/cupertino/PushPublishHTTPCupertinoHTTPHandler.java:104-105 | TLS is requested exactly when the value's first character is one of `t T y Y` |
| HttpHandler.ConfiguredSendSsl | src/com/mycompany/wms/example/pushpublish/protocol/cupertino/PushPublishHTTPCupertinoHTTPHandler.java:101-106 | an absent `sendSSL` keeps the flag; a present one sets it by its first character |
| HttpHandler.ConfiguredPort | src/com/mycompany/wms/example/pushpublish/protocol/cupertino/PushPublishHTTPCupertinoHTTPHandler.java:108-112 | the RTMP port 1935 becomes 443 with TLS and 80 without; any other port is kept; the result is never 1935 |
| HttpHandler.PortSuffix | src/com/mycompany/wms/example/pushpublish/protocol/cupertino/PushPublishHTTPCupertinoHTTPHandler.java:406-412 | empty exactly for ports 80 and 443; otherwise `:` and text that reads back as the port |
| HttpHandler.DestinationPathIsStreamDir | src/com/mycompany/wms/example/pushpublish/protocol/cupertino/PushPublishHTTPCupertinoHTTPHandler.java:399-404 | the destination path is the base path followed by `<dst>` or `<dst>-b` |
| HttpHandler.DestinationPathToggle | src/com/mycompany/wms/example/pushpublish/protocol/cupertino/PushPublishHTTPCupertinoHTTPHandler.java:399-404 | switching to the backup server only appends `-b` to the destination path |
| HttpHandler.PlaylistPathOfStreamUri | src/com/mycompany/wms/example/pushpublish/protocol/cupertino/PushPublishHTTPCupertinoHTTPHandler.java:204-221 | a rewritten master or media playlist is put to `<base><dst>[-b]/<name>` |
| HttpHandler.PlaylistPathOfGroupUri | src/com/mycompany/wms/example/pushpublish/protocol/cupertino/PushPublishHTTPCupertinoHTTPHandler.java:194-201 | a rewritten group playlist is put to `<base><group>/<path>` |
| HttpHandler.PlaylistAndSegmentsShareDestination | src/com/mycompany/wms/example/pushpublish/protocol/cupertino/PushPublishHTTPCupertinoHTTPHandler.java:345-358 | rewritten playlists, segments and the log data all hang off the same destination URL |
| HttpHandler.BasePathWithGroupReferenceThrows | src/com/mycompany/wms/example/pushpublish/protocol/cupertino/PushPublishHTTPCupertinoHTTPHandler.java:197 | a base path holding `$` and a digit 1-9 makes every playlist send throw before any request |
| HttpHandler.ExampleSegmentUrl | src/com/mycompany/wms/example/pushpublish/protocol/cupertino/PushPublishHTTPCupertinoHTTPHandler.java:234 | with port 1935 left as is and base path `/pub/`, a segment of `foo` goes to `http://h//pub/foo/S/media_1.ts` |
| HttpHandler.PlaylistPutResult | src/com/mycompany/wms/example/pushpublish/protocol/cupertino/PushPublishHTTPCupertinoHTTPHandler.java:350-397 | an invalid URL throws with nothing sent; a valid one never throws, returns the writer's byte count when the writer succeeds and the status is 2xx, and 0 for a failed writer, a refused status or a transport failure; one `PUT` to that URL, carrying the serialised bytes (an empty body when the writer fails), is sent exactly when the exchange completes |
| HttpHandler.SegmentPutResult | src/com/mycompany/wms/example/pushpublish/protocol/cupertino/PushPublishHTTPCupertinoHTTPHandler.java:224-272 | the sentinel 1 with no request happens exactly for a null or empty list; otherwise an invalid URL throws with nothing sent, and a valid one never throws, returns the `int`-wrapped payload length on a 2xx status and 0 on a refused status or a transport failure; one `PUT` of the payload is sent exactly when the list is non-empty, the URL valid and the exchange completes |
| HttpHandler.SegmentBodyKeepsFragment | src/com/mycompany/wms/example/pushpublish/protocol/cupertino/PushPublishHTTPCupertinoHTTPHandler.java:241-251 | every fragment with positive length reaches the server whole and in place |
| HttpHandler.SegmentDeleteResult | src/com/mycompany/wms/example/pushpublish/protocol/cupertino/PushPublishHTTPCupertinoHTTPHandler.java:283-297 | the corrected delete throws with nothing sent exactly for an invalid URL; otherwise it returns 1 exactly on a 2xx status and 0 on a refused status or a transport failure, and sends one `DELETE` exactly when the exchange completes |
| HttpHandler.DeleteAsWrittenAcceptsRefusal | src/com/mycompany/wms/example/pushpublish/protocol/cupertino/PushPublishHTTPCupertinoHTTPHandler.java:289 | the test as written accepts every status, so a 404 counts as deleted |
| HttpHandler.DeleteAsWrittenOutcome | src/com/mycompany/wms/example/pushpublish/protocol/cupertino/PushPublishHTTPCupertinoHTTPHandler.java:281-298 | as written the delete throws only for an invalid URL, returns 0 only on a transport failure, and 1 for every status |
| HttpHandler.DeleteCorrectionOnlyAffectsRefusals | src/com/mycompany/wms/example/pushpublish/protocol/cupertino/PushPublishHTTPCupertinoHTTPHandler.java:288-292 | the correction sends the same requests and changes the result only for a status outside 2xx |
| HttpHandler.DeleteStatusMatchesPutTest | src/com/mycompany/wms/example/pushpublish/protocol/cupertino/PushPublishHTTPCupertinoHTTPHandler.java:252-254 | the corrected test is the success test of the two `PUT`s |
| HttpHandler.CupertinoHttpHandler.constructor | src/com/mycompany/wms/example/pushpublish/protocol/cupertino/PushPublishHTTPCupertinoHTTPHandler.java:57-63 | base path `/`, host `example.com`, no TLS, not in backup mode, no group name |
| HttpHandler.CupertinoHttpHandler.Load | src/com/mycompany/wms/example/pushpublish/protocol/cupertino/PushPublishHTTPCupertinoHTTPHandler.java:85-114 | host from `http.host` else the base host; base path, TLS flag and port as the configuration functions say; the three keys removed from the map |
| HttpHandler.CupertinoHttpHandler.UpdateGroupMasterPlaylistPlaybackUri | src/com/mycompany/wms/example/pushpublish/protocol/cupertino/PushPublishHTTPCupertinoHTTPHandler.java:116-132 | the URI becomes `../<group>/<path>` and the group is recorded exactly when that URI is valid |
| HttpHandler.CupertinoHttpHandler.UpdateMasterPlaylistPlaybackUri | src/com/mycompany/wms/example/pushpublish/protocol/cupertino/PushPublishHTTPCupertinoHTTPHandler.java:134-150 | the URI becomes `../<dst>[-b]/<uri>` exactly when that is valid |
| HttpHandler.CupertinoHttpHandler.UpdateMediaPlaylistPlaybackUri | src/com/mycompany/wms/example/pushpublish/protocol/cupertino/PushPublishHTTPCupertinoHTTPHandler.java:152-168 | the same rewrite as for the master playlist |
| HttpHandler.CupertinoHttpHandler.UpdateMediaSegmentPlaybackUri | src/com/mycompany/wms/example/pushpublish/protocol/cupertino/PushPublishHTTPCupertinoHTTPHandler.java:170-191 | the URI becomes `<session>/<path>` exactly when that is valid |
| HttpHandler.CupertinoHttpHandler.WritePlaylist | src/com/mycompany/wms/example/pushpublish/protocol/cupertino/PushPublishHTTPCupertinoHTTPHandler.java:350-397 | result and new request log are those of the playlist `PUT` function |
| HttpHandler.CupertinoHttpHandler.SendPlaylist | src/com/mycompany/wms/example/pushpublish/protocol/cupertino/PushPublishHTTPCupertinoHTTPHandler.java:197-199 | the playlist path, then the `PUT`; a throwing `replaceFirst` sends nothing |
| HttpHandler.CupertinoHttpHandler.SendGroupMasterPlaylist | src/com/mycompany/wms/example/pushpublish/protocol/cupertino/PushPublishHTTPCupertinoHTTPHandler.java:193-201 | the playlist send, ignoring its group argument |
| HttpHandler.CupertinoHttpHandler.SendMasterPlaylist | src/com/mycompany/wms/example/pushpublish/protocol/cupertino/PushPublishHTTPCupertinoHTTPHandler.java:203-211 | the playlist send |
| HttpHandler.CupertinoHttpHandler.SendMediaPlaylist | src/com/mycompany/wms/example/pushpublish/protocol/cupertino/PushPublishHTTPCupertinoHTTPHandler.java:213-221 | the playlist send |
| HttpHandler.CupertinoHttpHandler.SendMediaSegment | src/com/mycompany/wms/example/pushpublish/protocol/cupertino/PushPublishHTTPCupertinoHTTPHandler.java:223-272 | result and new request log are those of the segment `PUT` function |
| HttpHandler.CupertinoHttpHandler.CollectFragments | src/com/mycompany/wms/example/pushpublish/protocol/cupertino/PushPublishHTTPCupertinoHTTPHandler.java:241-251 | the body is exactly the payload and the size its wrapped length |
| HttpHandler.CupertinoHttpHandler.DeleteMediaSegment | src/com/mycompany/wms/example/pushpublish/protocol/cupertino/PushPublishHTTPCupertinoHTTPHandler.java:274-318 | result and new request log are those of the corrected delete function |
| HttpHandler.CupertinoHttpHandler.SetSendToBackupServer | src/com/mycompany/wms/example/pushpublish/protocol/cupertino/PushPublishHTTPCupertinoHTTPHandler.java:320-330 | afterwards `isSendToBackupServer` reports the value set |
| HttpSink.RemoteEndpoint.Exchange | src/com/mycompany/wms/example/pushpublish/protocol/cupertino/PushPublishHTTPCupertinoHTTPHandler.java:252 | `getResponseCode` returns the status or throws, and the log grows by what was delivered |

## Left out

- Sockets, timeouts, `disconnect` and the `finally` blocks are left out. An
  exchange is abstracted to its outcome: a status, or a transport failure
  after which nothing was received. A half-written request body is not modelled.
- `PlaylistWriter` is a parameter, `serialize`. It returns the bytes of
  `toString().getBytes()`, or nothing when `write` reports failure; the
  charset round trip is part of that parameter.
- `new URI(text)` and `new URL(text)` are parameters (`isValidUri`,
  `isValidUrl`): whether the text parses.
- MediaModel.UriPath: `URI.getPath()` is taken to be the text before the
  first `?` or `#`. That is Java's answer only for a reference with no scheme
  and no leading `//`; for `//a/b` Java gives `/b` (the authority is split
  off), and an opaque URI has a null path. The handlers pass the scheme-less
  relative references that playlists use. Percent-decoding is not modelled.
- HttpHandler.ToLowerEnglish lower-cases only `A`-`Z`. Java's
  `toLowerCase(Locale.ENGLISH)` case-maps all of Unicode (`À` becomes `à`).
  No character other than `T` and `Y` lower-cases to `t` or `y`, and
  only the first character decides the TLS flag, so the flag is the same.
- The host supplies the destination stream name, the random session string,
  the base host name and port, and the context string. These are
  constructor or method parameters. The context string is used only by the
  playlist writer and is left out.
- The disk has no symbolic links, permissions, disk-full or write errors,
  and no concurrent writers.
- Disk.Locate: `..` is resolved lexically, on the names of the path text.
  `java.io.File` does not resolve `..` at all. The operating system resolves
  it physically when the path is used, and fails with ENOTDIR when an entry
  before `..` is not a directory. The two readings differ in one reachable
  case. Take a backup-mode `sendGroupMasterPlaylist` where `root/<dst>-b` is a
  regular file, so `exists()` is true and `mkdirs` is skipped. The source's
  `createNewFile` on `root/<dst>-b/../<group>/<name>` then throws and the send
  returns 0. The model follows the lexical path, writes
  `root/<group>/<name>` when `root/<group>` is a directory, and returns the
  byte count.
- `init`, `playlistCrossName`, logging, `System.out.println`, `super.load`,
  `outputOpen` and `outputClose` are left out; the last two only return true.
- `getDestionationLogData` of the file handler is left out. It goes through
  `File.toURI().toURL()`, which makes the path absolute and needs the host's
  working directory and URL syntax.
- `PushPublishUtils.removeMapString` is taken to return the stored value, or
  null, and to remove the key. The HTTP `Load` reads all three keys before
  removing them, which gives the same result because the keys differ.
- Runtime exceptions other than those described (for example a null
  fragment buffer) are not modelled. A null `rootDir` or group name is not an
  exception: it becomes the text `null` in the path, as Java concatenation does.

## Findings

| source | as written | input that shows it | evidently intended | confidence | as-written member | corrected member |
|---|---|---|---|---|---|---|
| src/com/mycompany/wms/example/pushpublish/protocol/cupertino/PushPublishHTTPCupertinoHTTPHandler.java:289 | `status >= 200 \|\| status < 300` is true for every status, so a refused delete reports success | a `DELETE` answered with 404 returns 1 | `status >= 200 && status < 300`, the 2xx test the two `PUT`s use | high, not executed | HttpHandler.SegmentDeleteAsWritten (with HttpHandler.DeleteAsWrittenAcceptsRefusal) | HttpHandler.SegmentDelete (with HttpHandler.SegmentDeleteResult), used by HttpHandler.CupertinoHttpHandler.DeleteMediaSegment |
