/** The part of `pathlib.PurePosixPath` the harvesters rely on: parsing a
    path string into its components, printing it back, its `parents` and its
    `parts`. Two leading slashes (which POSIX lets pathlib keep) and `..`
    resolution are not part of this model: `..` stays an ordinary component,
    as in pathlib. */
module Paths {
  import opened Strings

  datatype PosixPath = PosixPath(absolute: bool, parts: seq<string>)

  /** A component pathlib keeps: non-empty, not `.`, without a slash. */
  predicate Component(s: string) {
    s != "" && s != "." && '/' !in s
  }

  predicate Normal(p: PosixPath) {
    forall i :: 0 <= i < |p.parts| ==> Component(p.parts[i])
  }

  /** The pieces between slashes that pathlib keeps: empty pieces (repeated
      or trailing slashes) and `.` are dropped. */
  function Components(pieces: seq<string>): (r: seq<string>)
    decreases |pieces|
    ensures |r| <= |pieces|
    ensures forall i :: 0 <= i < |r| ==> r[i] in pieces && r[i] != "" && r[i] != "."
  {
    if |pieces| == 0 then []
    else
      var rest := Components(pieces[1..]);
      if pieces[0] == "" || pieces[0] == "." then rest else [pieces[0]] + rest
  }

  /** `PurePosixPath(s)`. */
  function ParsePath(s: string): (r: PosixPath)
    ensures Normal(r)
    ensures r.absolute <==> |s| > 0 && s[0] == '/'
  {
    PosixPath(|s| > 0 && s[0] == '/', Components(Split(s, '/')))
  }

  /** `str(p)`. */
  function PathStr(p: PosixPath): string {
    if p.absolute then "/" + Join(p.parts, "/")
    else if p.parts == [] then "."
    else Join(p.parts, "/")
  }

  /** Components that pathlib keeps are kept. */
  lemma {:induction false} ComponentsKeep(xs: seq<string>)
    requires forall i :: 0 <= i < |xs| ==> Component(xs[i])
    ensures Components(xs) == xs
    decreases |xs|
  {
    if |xs| > 0 {
      ComponentsKeep(xs[1..]);
    }
  }

  /** A leading slash splits off one empty piece. */
  lemma SplitLeadingSlash(t: string)
    ensures Split("/" + t, '/') == [""] + Split(t, '/')
  {
    var s := "/" + t;
    assert s[0] == '/';
    match Find(s, '/')
    case None =>
    case Some(i) =>
      assert s[1..] == t;
  }

  /** Printing a normal path and parsing it again gives the same path. */
  lemma ParsePathStr(p: PosixPath)
    requires Normal(p)
    ensures ParsePath(PathStr(p)) == p
  {
    var s := PathStr(p);
    if p.parts == [] {
      if p.absolute {
        assert s == "/" + "";
        SplitLeadingSlash("");
        assert Find("", '/').None?;
        assert Split("", '/') == [""];
        assert Components(["", ""]) == [];
      } else {
        assert Find(".", '/').None?;
        assert Split(".", '/') == ["."];
        assert Components(["."]) == [];
      }
    } else {
      SplitJoin(p.parts, '/');
      ComponentsKeep(p.parts);
      if p.absolute {
        SplitLeadingSlash(Join(p.parts, "/"));
        assert ([""] + p.parts)[1..] == p.parts;
      } else {
        assert p.parts[0] != "" && p.parts[0] != ".";
        var j := Join(p.parts, "/");
        assert j == p.parts[0] || j[..|p.parts[0]|] == p.parts[0];
        assert j[0] == p.parts[0][0];
      }
    }
  }

  /** `p.parents`: the proper ancestors, nearest first, down to the root (or
      to `.` for a relative path). */
  function Parents(p: PosixPath): (r: seq<PosixPath>)
    ensures |r| == |p.parts|
    ensures forall i :: 0 <= i < |r| ==> r[i] == PosixPath(p.absolute, p.parts[..|p.parts| - 1 - i])
  {
    seq(|p.parts|, i requires 0 <= i < |p.parts| => PosixPath(p.absolute, p.parts[..|p.parts| - 1 - i]))
  }

  /** `p.parts`: an absolute path starts with the root `"/"`. */
  function Parts(p: PosixPath): (r: seq<string>)
    ensures p.absolute ==> r == ["/"] + p.parts
    ensures !p.absolute ==> r == p.parts
  {
    if p.absolute then ["/"] + p.parts else p.parts
  }
}
