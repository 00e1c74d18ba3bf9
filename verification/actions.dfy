/**
  The value shape shared by the board server and every client transport:
  a coloured point at a coordinate, or (when `clear` is set) a command to
  wipe the whole board, whose coordinates and colour nobody reads.
 */
module Actions {

  /** One draw action, as carried by the push channel and the HTTP fallback alike. */
  datatype Action = Action(x: int, y: int, color: string, clear: bool)

  /** True iff no action of `s` is a clear command. */
  predicate NoClears(s: seq<Action>) {
    forall i :: 0 <= i < |s| ==> !s[i].clear
  }

  /** `p` is an initial segment of `s`. */
  predicate IsPrefix<T(==)>(p: seq<T>, s: seq<T>) {
    |p| <= |s| && s[..|p|] == p
  }
}
