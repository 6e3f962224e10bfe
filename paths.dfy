/** Lexical path cleaning as Go's filepath.Clean does it on Unix. */
module Paths {
  import opened Text

  /**
   * Drops empty and "." elements and lets ".." remove the element before it;
   * a ".." that has nothing to remove is kept in a relative path and dropped
   * at the root of an absolute one.
   */
  function Resolve(elems: seq<string>, rooted: bool, stack: seq<string>): seq<string>
    decreases |elems|
  {
    if elems == [] then stack
    else
      var e := elems[0];
      if e == "" || e == "." then Resolve(elems[1..], rooted, stack)
      else if e == ".." then
        if |stack| > 0 && stack[|stack| - 1] != ".." then Resolve(elems[1..], rooted, stack[..|stack| - 1])
        else if rooted then Resolve(elems[1..], rooted, stack)
        else Resolve(elems[1..], rooted, stack + [".."])
      else Resolve(elems[1..], rooted, stack + [e])
  }

  /** filepath.Clean: the shortest path naming the same file; "." when nothing is left. */
  function Clean(p: string): (r: string)
    ensures r != ""
  {
    if p == "" then "."
    else
      var rooted := p[0] == '/';
      var body := Join(Resolve(Split(p, '/'), rooted, []), "/");
      if rooted then "/" + body
      else if body == "" then "."
      else body
  }
}
