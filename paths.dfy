/** Filesystem paths as strings, with the joining rule of Rust's `Path::join`. */
module Paths {

  type Path = string

  predicate IsAbsolute(p: Path) {
    |p| > 0 && p[0] == '/'
  }

  /** `base.join(p)`: an absolute `p` replaces `base`, an empty `base` yields `p`,
      otherwise a single separator is placed between the two. */
  function Join(base: Path, p: Path): Path {
    if IsAbsolute(p) then p
    else if base == [] then p
    else if base[|base| - 1] == '/' then base + p
    else base + "/" + p
  }

  /** An absolute path replaces the base; a relative one goes after a single separator; the
      joined path is never shorter than `p`, and never empty on a non-empty base. */
  lemma JoinShape(base: Path, p: Path)
    ensures IsAbsolute(p) ==> Join(base, p) == p
    ensures !IsAbsolute(p) && base != [] && base[|base| - 1] != '/' ==> Join(base, p) == base + "/" + p
    ensures |Join(base, p)| >= |p|
    ensures base != [] ==> Join(base, p) != []
  {
  }
}
