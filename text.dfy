/** String helpers shared by the modules: the JavaScript `startsWith`,
    `endsWith` and the `undefined`-aware rendering of a template literal. */
module Text {

  import opened Wrappers

  /** `s.startsWith(p)`. */
  predicate StartsWith(s: string, p: string) {
    |p| <= |s| && s[..|p|] == p
  }

  /** `s.endsWith(p)`. */
  predicate EndsWith(s: string, p: string) {
    |p| <= |s| && s[|s| - |p|..] == p
  }

  /** How a template literal renders a value that may be `undefined`. */
  function Rendered(v: Option<string>): string {
    match v
    case Some(s) => s
    case None => "undefined"
  }

  /** `path.join(dir, name)` and `${dir}/${name}`, without normalisation. */
  function PathJoin(dir: string, name: string): string {
    dir + "/" + name
  }
}
