/** What several of the models use: a value that may be missing, and regrouping of
    concatenations. */
module Sequences {
  datatype Option<T> = None | Some(value: T)

  lemma Assoc<T>(a: seq<T>, b: seq<T>, c: seq<T>)
    ensures (a + b) + c == a + (b + c)
  {
  }

  /** The end of a queue `w + x` that is also `y + v`, behind what has left it. */
  lemma Regroup<T>(l: seq<T>, w: seq<T>, x: seq<T>, y: seq<T>, v: seq<T>)
    requires w + x == y + v
    ensures (l + w) + x == (l + y) + v
  {
    Assoc(l, w, x);
    Assoc(l, y, v);
  }
}
