/** The playback-URI rewriting both handlers share.  Playlists are referenced
    as `../<dir>/<name>` so that a group master playlist written by one handler
    can reach the renditions another handler writes; segments are placed
    under a session directory so that a restarted stream does not overwrite
    earlier segments. */
module PlaybackUri {
  import opened JavaLang

  /** The directory name of a stream: its destination name, with `-b` when
      sending to the backup server. */
  function StreamDir(dstStreamName: string, backup: bool): string
  {
    if backup then dstStreamName + "-b" else dstStreamName
  }

  /** The master and media playlist URI: `../` + name + (`-b/` or `/`) + the old URI. */
  function StreamPlaylistUri(dstStreamName: string, backup: bool, oldUri: string): string
  {
    "../" + dstStreamName + (if backup then "-b/" else "/") + oldUri
  }

  /** The group master playlist URI: `../` + group + `/` + the old URI's path. */
  function GroupPlaylistUri(groupName: string, oldPath: string): string
  {
    "../" + groupName + "/" + oldPath
  }

  /** The segment URI: the session directory, `/`, then the old URI's path. */
  function SegmentUri(session: string, oldPath: string): string
  {
    session + "/" + oldPath
  }

  /** A name usable as one path component: not empty, no `/`, not `.` or `..`. */
  predicate IsPlainName(n: string)
  {
    n != "" && n != "." && n != ".." && '/' !in n
  }

  /** The original URI carried by a reference `../<dir>/...`, or None when the reference
      does not point into `dir`. */
  function Referenced(dir: string, reference: string): Option<string>
  {
    var prefix := "../" + dir + "/";
    if prefix <= reference then Some(reference[|prefix|..]) else None
  }

  /** A stream playlist reference points into the stream's own directory and
      gives back the URI it rewrote. */
  lemma StreamPlaylistUriRoundTrip(dstStreamName: string, backup: bool, oldUri: string)
    ensures Referenced(StreamDir(dstStreamName, backup), StreamPlaylistUri(dstStreamName, backup, oldUri)) == Some(oldUri)
  {
    var prefix := "../" + StreamDir(dstStreamName, backup) + "/";
    assert StreamPlaylistUri(dstStreamName, backup, oldUri) == prefix + oldUri;
  }

  /** A group playlist reference points into the group's directory and gives
      back the path it rewrote. */
  lemma GroupPlaylistUriRoundTrip(groupName: string, oldPath: string)
    ensures Referenced(groupName, GroupPlaylistUri(groupName, oldPath)) == Some(oldPath)
  {
    assert GroupPlaylistUri(groupName, oldPath) == ("../" + groupName + "/") + oldPath;
  }

  /** The stream playlist rewrite is the group rewrite with the stream's directory
      as the group: one naming scheme for every playlist. */
  lemma StreamPlaylistUriIsDirectoryReference(dstStreamName: string, backup: bool, oldUri: string)
    ensures StreamPlaylistUri(dstStreamName, backup, oldUri) == GroupPlaylistUri(StreamDir(dstStreamName, backup), oldUri)
  {
  }

  /** A plain primary name gives a plain backup name, and the two never coincide. */
  lemma StreamDirPlain(dstStreamName: string, backup: bool)
    requires IsPlainName(dstStreamName)
    ensures IsPlainName(StreamDir(dstStreamName, backup))
    ensures StreamDir(dstStreamName, true) != StreamDir(dstStreamName, false)
  {
    var b := dstStreamName + "-b";
    assert |b| == |dstStreamName| + 2;
    assert forall i :: 0 <= i < |b| ==> b[i] != '/' by {
      forall i | 0 <= i < |b| ensures b[i] != '/' {
        if i < |dstStreamName| { assert b[i] == dstStreamName[i]; }
      }
    }
  }
}
