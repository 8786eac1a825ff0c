/** Carrying a fact without its contents: a sealed predicate has the form
    `forall key :: key == K ==> ...`, and mentioning `Look(K)` opens it. */
module Seal {
  datatype Key = Structure | Sweeps | Streams | Slots | Paths | Pairs

  predicate Look(key: Key) {
    true
  }
}
