/**
 * Absolute POSIX paths as pathlib's PurePosixPath sees them: the list of
 * components below the root, so that `[]` is "/".
 */
module Paths {
  import opened PyValues
  import opened PyText

  type Path = seq<string>

  /** `p.name`: the last component, "" for the root. */
  function Name(p: Path): string {
    if p == [] then "" else p[|p| - 1]
  }

  /** `p.parent`: the root is its own parent. */
  function Parent(p: Path): Path {
    if p == [] then [] else p[..|p| - 1]
  }

  /** `a` is `b` or one of its ancestors. */
  predicate IsPrefix(a: Path, b: Path) {
    |a| <= |b| && b[..|a|] == a
  }

  /**
   * `PurePath(name).suffix`: from the last dot on, provided that dot is
   * neither the first nor the last character; "" otherwise.
   */
  function Suffix(name: string): (r: string)
    ensures r == [] || (r[0] == '.' && EndsWith(name, r) && |r| < |name|)
  {
    var i := LastIndexOf(name, '.');
    if 0 < i < |name| - 1 then name[i..] else ""
  }

  /** `s.split(sep)` */
  function Split(s: string, sep: char): (r: seq<string>)
    ensures r != []
    decreases |s|
  {
    var head := BeforeFirst(s, sep);
    if |head| == |s| then [s] else [head] + Split(s[|head| + 1..], sep)
  }

  /** The components pathlib keeps from `s`: empty and "." pieces vanish. */
  function Parts(pieces: seq<string>): seq<string> {
    if pieces == [] then []
    else if pieces[0] == "" || pieces[0] == "." then Parts(pieces[1..])
    else [pieces[0]] + Parts(pieces[1..])
  }

  /**
   * `base / s`: the pieces of `s` between slashes are appended, and a
   * leading slash makes `s` absolute, replacing `base`.
   */
  function Join(base: Path, s: string): Path {
    (if s != [] && s[0] == '/' then [] else base) + Parts(Split(s, '/'))
  }

  /** A string pathlib turns into exactly one new component. */
  predicate IsPlainName(s: string) {
    s != "" && s != "." && '/' !in s
  }

  /** Joining a plain name appends it as one component. */
  lemma JoinPlainName(base: Path, s: string)
    requires IsPlainName(s)
    ensures Join(base, s) == base + [s]
  {
    assert |BeforeFirst(s, '/')| == |s|;
    assert Parts([s]) == [s];
  }
}
