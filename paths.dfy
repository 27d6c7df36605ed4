/**
 * POSIX paths as the plugin builds them with `pathlib`: parsing a string,
 * `parent`, the `/` operator, and `resolve()`, which is modelled lexically
 * (each `..` removes the segment before it; symbolic links are not followed).
 */
module Paths {

  datatype Path = Path(absolute: bool, parts: seq<string>)

  /** Splits a string at every '/', keeping empty pieces ("a//b" gives "a", "", "b"). */
  function SplitSlash(s: string): (pieces: seq<string>)
    ensures |pieces| >= 1
    ensures forall p :: p in pieces ==> '/' !in p
  {
    if s == [] then [""]
    else
      var rest := SplitSlash(s[1..]);
      if s[0] == '/' then [""] + rest
      else [[s[0]] + rest[0]] + rest[1..]
  }

  /** Puts pieces back together with '/' between them. */
  function JoinSlash(pieces: seq<string>): string
    requires |pieces| >= 1
  {
    if |pieces| == 1 then pieces[0] else pieces[0] + "/" + JoinSlash(pieces[1..])
  }

  /** Putting a character in front of the first piece puts it in front of the joined text. */
  lemma {:induction false} JoinSlashCons(c: char, pieces: seq<string>)
    requires |pieces| >= 1
    ensures JoinSlash([[c] + pieces[0]] + pieces[1..]) == [c] + JoinSlash(pieces)
  {
    var head, tail := pieces[0], pieces[1..];
    var r := [[c] + head] + tail;
    assert r[0] == [c] + head && r[1..] == tail;
    if |pieces| > 1 {
      var t := JoinSlash(tail);
      assert JoinSlash(pieces) == head + "/" + t;
      assert JoinSlash(r) == ([c] + head) + "/" + t;
      assert ([c] + head) + "/" + t == [c] + (head + "/" + t);
    }
  }

  /** Splitting at '/' loses nothing: joining the pieces gives the string back. */
  lemma {:induction false} SplitSlashJoins(s: string)
    ensures JoinSlash(SplitSlash(s)) == s
  {
    if s != [] {
      var rest := SplitSlash(s[1..]);
      SplitSlashJoins(s[1..]);
      if s[0] == '/' {
        assert ([""] + rest)[1..] == rest;
      } else {
        JoinSlashCons(s[0], rest);
      }
      assert s == [s[0]] + s[1..];
    }
  }

  /** A segment that names something: not empty and not ".". */
  predicate Segment(p: string)
  {
    p != "" && p != "." && '/' !in p
  }

  /** The pieces that name something: empty pieces and "." are dropped. */
  function Segments(pieces: seq<string>): (r: seq<string>)
    ensures forall p :: p in r ==> p in pieces && p != "" && p != "."
  {
    if pieces == [] then []
    else (if pieces[0] == "" || pieces[0] == "." then [] else [pieces[0]]) + Segments(pieces[1..])
  }

  /** `Path(s)`: absolute when the text starts with '/'. */
  function Parse(s: string): (p: Path)
    ensures p.absolute <==> |s| > 0 && s[0] == '/'
    ensures forall q :: q in p.parts ==> Segment(q)
  {
    Path(|s| > 0 && s[0] == '/', Segments(SplitSlash(s)))
  }

  /** `a / b`: an absolute right operand replaces the left one. */
  function Join(a: Path, b: Path): Path
  {
    if b.absolute then b else Path(a.absolute, a.parts + b.parts)
  }

  /** `p.parent` */
  function Parent(p: Path): Path
  {
    if p.parts == [] then p else Path(p.absolute, p.parts[..|p.parts| - 1])
  }

  /** One step of lexical resolution over the segments seen so far. */
  function Step(absolute: bool, stack: seq<string>, seg: string): seq<string>
  {
    if seg == "" || seg == "." then stack
    else if seg == ".." then
      if stack != [] && stack[|stack| - 1] != ".." then stack[..|stack| - 1]
      else if absolute then stack
      else stack + [".."]
    else stack + [seg]
  }

  function Collapse(absolute: bool, parts: seq<string>): seq<string>
  {
    if parts == [] then []
    else Step(absolute, Collapse(absolute, parts[..|parts| - 1]), parts[|parts| - 1])
  }

  /** `p.resolve()`, lexically. */
  function Resolve(p: Path): Path
  {
    Path(p.absolute, Collapse(p.absolute, p.parts))
  }

  /**
   * A resolved path: no empty or "." segments; no ".." at all when absolute
   * (the parent of the root is the root), and only leading ".." when relative.
   */
  predicate Resolved(p: Path)
  {
    && (forall i :: 0 <= i < |p.parts| ==> p.parts[i] != "" && p.parts[i] != ".")
    && (p.absolute ==> forall i :: 0 <= i < |p.parts| ==> p.parts[i] != "..")
    && (forall i, j :: 0 <= i < j < |p.parts| && p.parts[j] == ".." ==> p.parts[i] == "..")
  }

  /** Resolution always yields a resolved path. */
  lemma {:induction false} ResolveIsResolved(p: Path)
    ensures Resolved(Resolve(p))
    decreases |p.parts|
  {
    var ps := p.parts;
    if ps != [] {
      var prefix := Path(p.absolute, ps[..|ps| - 1]);
      assert prefix.parts[..|prefix.parts|] == prefix.parts;
      ResolveIsResolved(prefix);
      assert Collapse(p.absolute, ps) == Step(p.absolute, Resolve(prefix).parts, ps[|ps| - 1]);
    }
  }

  /** Collapsing segments that are already resolved changes nothing. */
  lemma {:induction false} CollapseResolved(absolute: bool, parts: seq<string>)
    requires Resolved(Path(absolute, parts))
    ensures Collapse(absolute, parts) == parts
  {
    if parts != [] {
      var n := |parts|;
      var prefix := parts[..n - 1];
      assert Resolved(Path(absolute, prefix));
      CollapseResolved(absolute, prefix);
      if parts[n - 1] == ".." && prefix != [] {
        assert prefix[n - 2] == "..";
      }
      assert prefix + [parts[n - 1]] == parts;
    }
  }

  /** Resolving twice is resolving once. */
  lemma ResolveIdempotent(p: Path)
    ensures Resolve(Resolve(p)) == Resolve(p)
  {
    ResolveIsResolved(p);
    CollapseResolved(p.absolute, Resolve(p).parts);
  }

  /** Appending ".." to a resolved absolute path and resolving gives its parent. */
  lemma UpIsParent(p: Path)
    requires p.absolute && Resolved(p)
    ensures Resolve(Join(p, Path(false, [".."]))) == Parent(p)
  {
    var ps := p.parts + [".."];
    assert ps[..|ps| - 1] == p.parts;
    CollapseResolved(true, p.parts);
  }

  /**
   * The monorepo root every interceptor uses: the directory of the
   * subproject's manifest joined with the configured relative root, resolved.
   */
  function RootDir(pyprojectPath: Path, monorepoRoot: string): (r: Path)
    ensures Resolved(r)
    ensures pyprojectPath.absolute ==> r.absolute
  {
    ResolveIsResolved(Join(Parent(pyprojectPath), Parse(monorepoRoot)));
    Resolve(Join(Parent(pyprojectPath), Parse(monorepoRoot)))
  }

  /** With the default root "../", the root is the directory above the subproject's. */
  lemma DefaultRootIsGrandparent(pyprojectPath: Path)
    requires pyprojectPath.absolute && Resolved(pyprojectPath)
    ensures RootDir(pyprojectPath, "../") == Parent(Parent(pyprojectPath))
  {
    var up := Parse("../");
    assert "../"[1..] == "./" && "./"[1..] == "/" && "/"[1..] == [];
    assert SplitSlash("/") == ["", ""];
    assert ['.'] + "" == "." && ['.'] + "." == "..";
    assert SplitSlash("./") == [".", ""];
    assert SplitSlash("../") == ["..", ""];
    assert up == Path(false, [".."]);
    var dir := Parent(pyprojectPath);
    assert Resolved(dir);
    UpIsParent(dir);
  }
}
