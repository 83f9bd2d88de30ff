/** Small types and functions that several modules share. */
module Base {

  datatype Option<+T> = None | Some(value: T)

  function Min(a: nat, b: nat): nat { if a <= b then a else b }

  /** Pieces put together again. */
  function Concat<T>(pieces: seq<seq<T>>): seq<T>
    decreases pieces
  {
    if pieces == [] then [] else pieces[0] + Concat(pieces[1..])
  }
}
