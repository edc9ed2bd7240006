/** What several components share. */
module Common {

  datatype Option<+T> = None | Some(value: T)

  /** An interval of offsets or packet numbers; each component says whether `end` belongs to it. */
  datatype Interval = Interval(start: nat, end: nat)

  lemma Assoc<T>(a: seq<T>, b: seq<T>, c: seq<T>)
    ensures (a + b) + c == a + (b + c)
  {
  }
}
