/** `pathlib.Path` values as far as the model needs them: a root (whatever string the Path was
    built from) followed by the segments appended with `/`. No normalisation is modelled. */
module Paths {

  datatype Path = Path(root: string, parts: seq<string>)

  /** An argument typed `Path | str`. */
  datatype PathArg = StrArg(s: string) | PathValue(p: Path)

  /** `Path(s)` for a string, the Path itself otherwise. */
  function ToPath(a: PathArg): Path {
    match a
    case StrArg(s) => Path(s, [])
    case PathValue(p) => p
  }

  /** `p / name`. */
  function Join(p: Path, name: string): Path {
    Path(p.root, p.parts + [name])
  }
}
