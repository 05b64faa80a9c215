/** Public URLs of stored blobs, and the blob name a URL ends with. */
module Paths {

  /** The public URL storage hands out for a blob: the bucket's base URL,
      a slash, then the blob's path. */
  function PublicUrl(base: string, path: string): string {
    base + "/" + path
  }

  /** Glues pieces back together with '/' between them. */
  function Join(parts: seq<string>): string
    requires |parts| >= 1
  {
    if |parts| == 1 then parts[0]
    else Join(parts[..|parts| - 1]) + "/" + parts[|parts| - 1]
  }

  /** Adding a piece adds a '/' and the piece. */
  lemma JoinAppend(parts: seq<string>, piece: string)
    requires |parts| >= 1
    ensures Join(parts + [piece]) == Join(parts) + "/" + piece
  {
    assert (parts + [piece])[..|parts|] == parts;
  }

  /** Extending the last piece extends the joined string. */
  lemma JoinExtendLast(front: seq<string>, last: string, c: char)
    requires |front| >= 1
    ensures Join(front + [last + [c]]) == Join(front + [last]) + [c]
  {
    JoinAppend(front, last + [c]);
    JoinAppend(front, last);
  }

  /** JavaScript's `s.split('/')`: never empty, no piece holds a '/', and
      joining the pieces again gives back `s`. */
  function Split(s: string): (parts: seq<string>)
    ensures |parts| >= 1
    ensures forall i | 0 <= i < |parts| :: '/' !in parts[i]
    ensures Join(parts) == s
  {
    if s == [] then [""]
    else
      var init := Split(s[..|s| - 1]);
      var c := s[|s| - 1];
      assert s == s[..|s| - 1] + [c];
      if c == '/' then
        JoinAppend(init, "");
        init + [""]
      else if |init| == 1 then
        [init[0] + [c]]
      else
        var front, last := init[..|init| - 1], init[|init| - 1];
        assert init == front + [last];
        JoinExtendLast(front, last, c);
        front + [last + [c]]
  }

  /** `r` is the part of `s` after its last '/' (all of `s` if it has none). */
  ghost predicate IsLastSegment(s: string, r: string) {
    && |r| <= |s|
    && s[|s| - |r|..] == r
    && '/' !in r
    && (|r| == |s| || s[|s| - |r| - 1] == '/')
  }

  /** `url.split('/').pop()`: the name of the blob a public URL points at;
      it never holds a '/'. */
  function BlobName(url: string): (name: string)
    ensures '/' !in name
  {
    var parts := Split(url);
    parts[|parts| - 1]
  }

  /** The blob name is exactly what follows the URL's last '/'. */
  lemma BlobNameIsLastSegment(url: string)
    ensures IsLastSegment(url, BlobName(url))
  {
    var parts := Split(url);
    assert |parts| > 1 ==> url == Join(parts[..|parts| - 1]) + "/" + BlobName(url);
  }

  /** At most one string is the last segment of `s`. */
  lemma LastSegmentUnique(s: string, r1: string, r2: string)
    requires IsLastSegment(s, r1) && IsLastSegment(s, r2)
    ensures r1 == r2
  {
    if |r1| != |r2| {
      assert false;
    }
  }

  /** The blob name taken from a public URL is the path the blob was stored
      under, whenever that path holds no '/'. */
  lemma BlobNameOfPublicUrl(base: string, path: string)
    requires '/' !in path
    ensures BlobName(PublicUrl(base, path)) == path
  {
    var url := PublicUrl(base, path);
    assert url[|url| - |path|..] == path;
    assert url[|url| - |path| - 1] == '/';
    BlobNameIsLastSegment(url);
    LastSegmentUnique(url, BlobName(url), path);
  }
}
