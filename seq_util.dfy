/** Sequence helpers shared by the route and track-message models. */
module SeqUtil {

  /** The concatenation of a list of pieces, in order. */
  function Flatten<T>(pieces: seq<seq<T>>): seq<T>
  {
    if pieces == [] then [] else pieces[0] + Flatten(pieces[1..])
  }

  /** Appending one piece at the end appends its elements at the end of the concatenation. */
  lemma {:induction false} FlattenAppend<T>(pieces: seq<seq<T>>, piece: seq<T>)
    ensures Flatten(pieces + [piece]) == Flatten(pieces) + piece
  {
    if pieces != [] {
      assert (pieces + [piece])[1..] == pieces[1..] + [piece];
      FlattenAppend(pieces[1..], piece);
    }
  }
}
