/** What every part of the model shares. */
module Basics {

  datatype Option<+T> = None | Some(value: T)

  lemma EmptyWithoutElements<T>(s: set<T>)
    requires forall x :: x !in s
    ensures s == {}
  {
    assert forall x :: x in s <==> x in {};
  }

  lemma SomeElement<T>(s: set<T>) returns (x: T)
    requires s != {}
    ensures x in s
  {
    if forall y :: y !in s { EmptyWithoutElements(s); }
    x :| x in s;
  }
}
