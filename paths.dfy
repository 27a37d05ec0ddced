/** Filesystem paths as sequences of segments (Rust's `PathBuf`). */
module Paths {

  datatype Path = Path(segments: seq<string>)

  /** `PathBuf::from(v)`: the empty string is the empty path, any other string
      is a single segment kept verbatim. */
  function FromString(v: string): (p: Path)
    ensures |p.segments| <= 1
    ensures Display(p) == v
  {
    if v == [] then Path([]) else Path([v])
  }

  /** `path.join(segment)` for a relative segment: the segment is appended. */
  function Join(p: Path, segment: string): (q: Path)
    ensures |q.segments| == |p.segments| + 1
    ensures q.segments[..|p.segments|] == p.segments
    ensures q.segments[|p.segments|] == segment
  {
    Path(p.segments + [segment])
  }

  /** Segments written out with `/` between them. */
  function JoinSegments(segments: seq<string>): string {
    if |segments| == 0 then ""
    else if |segments| == 1 then segments[0]
    else JoinSegments(segments[..|segments| - 1]) + "/" + segments[|segments| - 1]
  }

  /** `path.display()`: the empty path shows as nothing, a single segment as
      itself, and the last segment always ends the text. */
  function Display(p: Path): (r: string)
    ensures p.segments == [] ==> r == ""
    ensures |p.segments| == 1 ==> r == p.segments[0]
    ensures p.segments != [] ==>
      var last := p.segments[|p.segments| - 1];
      |last| <= |r| && r[|r| - |last|..] == last
  {
    JoinSegments(p.segments)
  }

  /** Displaying a join puts a `/` between the base and the segment. */
  lemma DisplayJoin(p: Path, segment: string)
    ensures Display(Join(p, segment)) ==
      if p.segments == [] then segment else Display(p) + "/" + segment
  {
    var s := Join(p, segment).segments;
    assert s[..|s| - 1] == p.segments;
  }

  /** Two joins are equal only when both the bases and the segments are. */
  lemma JoinInjective(p: Path, s: string, q: Path, t: string)
    requires Join(p, s) == Join(q, t)
    ensures p == q && s == t
  {
    assert p.segments == Join(p, s).segments[..|p.segments|];
    assert q.segments == Join(q, t).segments[..|q.segments|];
  }
}
