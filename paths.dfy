/** `toUnixPath` of webpackCompilation.js: the host's backslash separators become
    forward slashes. */
module Paths {

  /** The character `toUnixPath` writes in place of `c`. */
  function UnixChar(c: char): char
  {
    if c == '\\' then '/' else c
  }

  /** `filePath.replace(/\\/g, "/")`: every backslash, and nothing else, is rewritten. */
  function ToUnixPath(p: string): (r: string)
    ensures |r| == |p|
    ensures forall i :: 0 <= i < |p| ==> r[i] == UnixChar(p[i])
  {
    if p == [] then [] else [UnixChar(p[0])] + ToUnixPath(p[1..])
  }

  /** No backslash survives, and every other character stays where it was. */
  lemma NoBackslashLeft(p: string)
    ensures '\\' !in ToUnixPath(p)
    ensures forall i :: 0 <= i < |p| && p[i] != '\\' ==> ToUnixPath(p)[i] == p[i]
    ensures forall i :: 0 <= i < |p| && p[i] == '\\' ==> ToUnixPath(p)[i] == '/'
  {
  }

  /** A path is left unchanged exactly when it holds no backslash. */
  lemma ToUnixPathFixedIff(p: string)
    ensures ToUnixPath(p) == p <==> '\\' !in p
  {
  }

  /** Applying `toUnixPath` twice is the same as applying it once. */
  lemma ToUnixPathIdempotent(p: string)
    ensures ToUnixPath(ToUnixPath(p)) == ToUnixPath(p)
  {
  }
}
