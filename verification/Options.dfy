module Options {
  /** A value that may be absent: Go's nil pointer, nil timer or nil callback. */
  datatype Option<+T> = None | Some(value: T)

  /** How concatenation unfolds from the front. */
  lemma AppendUnfolds<T>(a: seq<T>, b: seq<T>)
    ensures a == [] ==> a + b == b
    ensures a != [] ==> a + b != [] && (a + b)[0] == a[0] && (a + b)[1..] == a[1..] + b
  {
  }
}
