/** The caller-owned values the handlers work on: a playlist model with its
    playback URI, a media segment with its URI and fragment list, and the
    bytes those fragments carry. */
module MediaModel {
  import opened JavaLang

  newtype Byte = b: int | 0 <= b < 256
  type Bytes = seq<Byte>

  /** One packet fragment: `getLen()` and `getBuffer()`.  The handlers test the
      length but send the whole buffer. */
  datatype Fragment = Fragment(len: int, buffer: Bytes)

  /** What one fragment adds to the output: nothing when its length is not positive. */
  function Contribution(f: Fragment): Bytes
  {
    if f.len <= 0 then [] else f.buffer
  }

  /** The bytes a fragment loop writes: the buffers of the fragments with a
      positive length, in list order. */
  function Payload(fragments: seq<Fragment>): Bytes
    decreases |fragments|
  {
    if fragments == [] then []
    else Payload(fragments[..|fragments| - 1]) + Contribution(fragments[|fragments| - 1])
  }

  /** Extending the fragment list by one fragment extends the payload by its contribution. */
  lemma PayloadStep(fragments: seq<Fragment>, i: nat)
    requires i < |fragments|
    ensures Payload(fragments[..i + 1]) == Payload(fragments[..i]) + Contribution(fragments[i])
  {
    assert fragments[..i + 1][..i] == fragments[..i];
  }

  /** The payload of a concatenated list is the concatenation of the payloads. */
  lemma {:induction false} PayloadConcat(xs: seq<Fragment>, ys: seq<Fragment>)
    ensures Payload(xs + ys) == Payload(xs) + Payload(ys)
    decreases |ys|
  {
    if ys == [] {
      assert xs + ys == xs;
    } else {
      var ys' := ys[..|ys| - 1];
      assert (xs + ys)[..|xs + ys| - 1] == xs + ys';
      PayloadConcat(xs, ys');
    }
  }

  /** A fragment whose length is positive is sent whole and in place. */
  lemma PayloadSplitsAt(fragments: seq<Fragment>, i: nat)
    requires i < |fragments| && fragments[i].len > 0
    ensures Payload(fragments) == Payload(fragments[..i]) + fragments[i].buffer + Payload(fragments[i + 1..])
  {
    assert fragments == fragments[..i] + [fragments[i]] + fragments[i + 1..];
    PayloadConcat(fragments[..i] + [fragments[i]], fragments[i + 1..]);
    PayloadConcat(fragments[..i], [fragments[i]]);
    assert [fragments[i]][..0] == [];
  }

  /** Fragments without a positive length contribute nothing at all. */
  lemma {:induction false} PayloadOfEmptyFragments(fragments: seq<Fragment>)
    requires forall i :: 0 <= i < |fragments| ==> fragments[i].len <= 0
    ensures Payload(fragments) == []
    decreases |fragments|
  {
    if fragments != [] {
      PayloadOfEmptyFragments(fragments[..|fragments| - 1]);
    }
  }

  /** `PlaylistModel`: the playback URI (as the text `getUri().toString()`
      returns) that the handlers rewrite in place, and the entries the
      playlist writer serialises. */
  class PlaylistModel {
    var uri: string
    const entries: seq<string>

    constructor (uri: string, entries: seq<string>)
      ensures this.uri == uri && this.entries == entries
    {
      this.uri := uri;
      this.entries := entries;
    }
  }

  /** `MediaSegmentModel`: the segment URI the handlers rewrite in place and its
      fragment list (None when `getFragmentList()` returns null). */
  class MediaSegmentModel {
    var uri: string
    const fragments: Option<seq<Fragment>>

    constructor (uri: string, fragments: Option<seq<Fragment>>)
      ensures this.uri == uri && this.fragments == fragments
    {
      this.uri := uri;
      this.fragments := fragments;
    }
  }

  /** `new URI(u).getPath()` for a relative reference: the text before the
      first `?` (query) or `#` (fragment). */
  function UriPath(u: string): (p: string)
    ensures p <= u
    ensures '?' !in p && '#' !in p
    ensures |p| < |u| ==> u[|p|] == '?' || u[|p|] == '#'
  {
    if u == [] || u[0] == '?' || u[0] == '#' then [] else [u[0]] + UriPath(u[1..])
  }

  /** A URI without query or fragment is all path. */
  lemma {:induction false} UriPathOfPlainPath(u: string)
    requires '?' !in u && '#' !in u
    ensures UriPath(u) == u
  {
    if u != [] {
      UriPathOfPlainPath(u[1..]);
      assert [u[0]] + u[1..] == u;
    }
  }
}
