/** Facts about finite collections that several modules use. */
module Collections {
  datatype Option<T> = None | Some(value: T)

  lemma NonEmpty(s: set<int>)
    requires s != {}
    ensures exists x :: x in s
  {
    assert (forall x :: x !in s) ==> s == {};
  }
}
