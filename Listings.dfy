/** The one domain entity: a vehicle listing as the scrapers emit it and the page shows it. */
module Listings {

  /** One listing. All five fields are present in every record, empty when the markup lacked them. */
  datatype Listing = Listing(title: string, price: string, link: string, location: string, image: string)

  /** Every listing of `cars` has `location == place`. */
  predicate AllLocated(cars: seq<Listing>, place: string)
  {
    forall i :: 0 <= i < |cars| ==> cars[i].location == place
  }

  /** `a` can be obtained from `b` by deleting elements, keeping the order of the rest. */
  predicate IsSubsequence<T(==)>(a: seq<T>, b: seq<T>)
    decreases |b|
  {
    a == [] || (b != [] && ((a[0] == b[0] && IsSubsequence(a[1..], b[1..])) || IsSubsequence(a, b[1..])))
  }

  lemma {:induction false} SubsequenceReflexive<T>(a: seq<T>)
    ensures IsSubsequence(a, a)
  {
    if a != [] {
      SubsequenceReflexive(a[1..]);
    }
  }
}
