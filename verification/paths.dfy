/**
 * POSIX paths as `pathlib.Path` holds them: a flag for a leading root and the
 * normalized list of components. Constructing a path from a string drops empty
 * components and "." components; `str(path)` joins the components back with '/'.
 */
module Paths {

  /** A path component: what `Path(...)` keeps after splitting on '/'. */
  predicate IsComponent(c: string)
  {
    c != "" && c != "." && '/' !in c
  }

  datatype PurePath = PurePath(absolute: bool, parts: seq<string>) {
    predicate Normal()
    {
      forall i :: 0 <= i < |parts| ==> IsComponent(parts[i])
    }
  }

  /** A `pathlib.Path` value; its components are always normalized. */
  type Path = p: PurePath | p.Normal() witness PurePath(false, [])

  /** `"/".join(parts)` */
  function Join(parts: seq<string>): string
  {
    if |parts| == 0 then ""
    else if |parts| == 1 then parts[0]
    else parts[0] + "/" + Join(parts[1..])
  }

  /** `str(p)` */
  function ToStr(p: Path): string
  {
    if p.absolute then "/" + Join(p.parts)
    else if p.parts == [] then "."
    else Join(p.parts)
  }

  /** Index of the first '/' in `s`, or `|s|` when there is none. */
  function FirstSlash(s: string): (k: nat)
    ensures k <= |s|
    ensures forall i :: 0 <= i < k ==> s[i] != '/'
    ensures k < |s| ==> s[k] == '/'
  {
    if |s| == 0 || s[0] == '/' then 0 else 1 + FirstSlash(s[1..])
  }

  /** The components of `s`, splitting on '/' and dropping "" and ".". */
  function Components(s: string): (cs: seq<string>)
    ensures forall i :: 0 <= i < |cs| ==> IsComponent(cs[i])
    decreases |s|
  {
    if |s| == 0 then []
    else
      var k := FirstSlash(s);
      var rest := if k < |s| then Components(s[k + 1..]) else [];
      var head := s[..k];
      assert forall i :: 0 <= i < |head| ==> head[i] != '/';
      if head == "" || head == "." then rest else [head] + rest
  }

  /** `Path(s)` for a string `s` */
  function Parse(s: string): (p: Path)
    ensures p.absolute <==> (|s| > 0 && s[0] == '/')
  {
    PurePath(|s| > 0 && s[0] == '/', Components(s))
  }

  /** Splitting a '/'-joined list of components gives the list back. */
  lemma {:induction false} ComponentsOfJoin(parts: seq<string>)
    requires forall i :: 0 <= i < |parts| ==> IsComponent(parts[i])
    ensures Components(Join(parts)) == parts
    decreases |parts|
  {
    if |parts| == 0 {
    } else if |parts| == 1 {
      var s := parts[0];
      assert IsComponent(s);
      var k := FirstSlash(s);
      assert k == |s|;
      assert s[..k] == s;
    } else {
      var a := parts[0];
      var rest := Join(parts[1..]);
      var s := a + "/" + rest;
      assert Join(parts) == s;
      assert IsComponent(a);
      var k := FirstSlash(s);
      assert s[|a|] == '/';
      assert k == |a|;
      assert s[..k] == a;
      assert s[k + 1..] == rest;
      ComponentsOfJoin(parts[1..]);
    }
  }

  /** A non-empty join starts with the first component's first character. */
  lemma JoinHead(parts: seq<string>)
    requires |parts| > 0 && IsComponent(parts[0])
    ensures |Join(parts)| > 0 && Join(parts)[0] == parts[0][0]
  {
  }

  /** `Path(str(p)) == p`: the string form of a path parses back to the same path. */
  lemma {:induction false} ParseToStr(p: Path)
    ensures Parse(ToStr(p)) == p
  {
    var s := ToStr(p);
    if p.absolute {
      var j := Join(p.parts);
      assert s == "/" + j;
      assert FirstSlash(s) == 0;
      assert s[1..] == j;
      ComponentsOfJoin(p.parts);
      if |j| == 0 {
        assert Components(s) == [];
        assert p.parts == [];
      } else {
        assert Components(s) == Components(j);
      }
    } else if p.parts == [] {
      assert s == ".";
      assert FirstSlash(s) == 1;
      assert s[..1] == ".";
    } else {
      ComponentsOfJoin(p.parts);
      JoinHead(p.parts);
      assert '/' !in p.parts[0];
      assert p.parts[0][0] in p.parts[0];
    }
  }
}
