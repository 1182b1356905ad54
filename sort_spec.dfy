/**
 * The order in which the metadata store returns a collection from
 * `find().sort(spec)`: rows are compared by a key, lexicographically over
 * (primary, secondary) field values; a descending field enters the key negated.
 */
module SortSpec {

  type Key = (int, int)

  /** Strict lexicographic order on keys. */
  predicate Less(a: Key, b: Key) {
    a.0 < b.0 || (a.0 == b.0 && a.1 < b.1)
  }

  /** Every row comes strictly before every later row. */
  predicate StrictlySorted<T>(xs: seq<T>, key: T -> Key) {
    forall i, j | 0 <= i < j < |xs| :: Less(key(xs[i]), key(xs[j]))
  }

  /** Places `x` in front of the first row whose key is larger than its own. */
  function Insert<T>(xs: seq<T>, x: T, key: T -> Key): seq<T> {
    if xs == [] || Less(key(x), key(xs[0])) then [x] + xs
    else [xs[0]] + Insert(xs[1..], x, key)
  }

  lemma {:induction false} InsertMembers<T>(xs: seq<T>, x: T, key: T -> Key)
    ensures |Insert(xs, x, key)| == |xs| + 1
    ensures forall y :: y in Insert(xs, x, key) <==> y in xs || y == x
    ensures forall i | 0 <= i < |Insert(xs, x, key)| :: Insert(xs, x, key)[i] in xs || Insert(xs, x, key)[i] == x
  {
    if xs != [] && !Less(key(x), key(xs[0])) {
      InsertMembers(xs[1..], x, key);
      assert xs == [xs[0]] + xs[1..];
    }
  }

  lemma {:induction false} InsertSorted<T>(xs: seq<T>, x: T, key: T -> Key)
    requires StrictlySorted(xs, key)
    requires forall y | y in xs :: key(y) != key(x)
    ensures StrictlySorted(Insert(xs, x, key), key)
  {
    if xs != [] && !Less(key(x), key(xs[0])) {
      var rest := Insert(xs[1..], x, key);
      InsertSorted(xs[1..], x, key);
      InsertMembers(xs[1..], x, key);
      assert Less(key(xs[0]), key(x));
      forall j | 0 < j < |[xs[0]] + rest|
        ensures Less(key(xs[0]), key(([xs[0]] + rest)[j]))
      {
        var y := rest[j - 1];
        assert y in rest;
        if y != x {
          assert y in xs[1..];
          var k :| 0 <= k < |xs[1..]| && xs[1..][k] == y;
          assert xs[k + 1] == y;
        }
      }
    }
  }

  /** A strictly sorted sequence is determined by the set of its elements. */
  lemma {:induction false} SortedUnique<T>(a: seq<T>, b: seq<T>, key: T -> Key)
    requires StrictlySorted(a, key) && StrictlySorted(b, key)
    requires forall x :: x in a <==> x in b
    ensures a == b
    decreases |a|
  {
    SameElementsEmpty(a, b);
    if a != [] {
      assert a[0] == b[0] by {
        assert a[0] in b && b[0] in a;
        var j :| 0 <= j < |b| && b[j] == a[0];
        var i :| 0 <= i < |a| && a[i] == b[0];
        assert j > 0 ==> Less(key(b[0]), key(a[0]));
        assert i > 0 ==> Less(key(a[0]), key(b[0]));
      }
      forall x
        ensures x in a[1..] <==> x in b[1..]
      {
        if x in a[1..] {
          var i :| 0 <= i < |a[1..]| && a[1..][i] == x;
          assert Less(key(a[0]), key(a[i + 1]));
          assert x in b;
          var j :| 0 <= j < |b| && b[j] == x;
          assert j != 0;
          assert b[1..][j - 1] == x;
        }
        if x in b[1..] {
          var j :| 0 <= j < |b[1..]| && b[1..][j] == x;
          assert Less(key(b[0]), key(b[j + 1]));
          assert x in a;
          var i :| 0 <= i < |a| && a[i] == x;
          assert i != 0;
          assert a[1..][i - 1] == x;
        }
      }
      SortedUnique(a[1..], b[1..], key);
      assert a == [a[0]] + a[1..];
      assert b == [b[0]] + b[1..];
    }
  }

  lemma SameElementsEmpty<T>(a: seq<T>, b: seq<T>)
    requires forall x :: x in a <==> x in b
    ensures a == [] <==> b == []
  {
    if a != [] {
      assert a[0] in b;
    }
    if b != [] {
      assert b[0] in a;
    }
  }

  /** `rows` holds exactly the rows of `stored`, each under its own id, in key order. */
  ghost predicate Listing<T>(rows: seq<T>, stored: map<nat, T>, idOf: T -> nat, key: T -> Key) {
    && StrictlySorted(rows, key)
    && (forall x | x in rows :: idOf(x) in stored && stored[idOf(x)] == x)
    && (forall id | id in stored :: stored[id] in rows)
  }

  /** Rows are stored under their own ids, and no two of them share a key. */
  ghost predicate Keyed<T>(stored: map<nat, T>, idOf: T -> nat, key: T -> Key) {
    && (forall id | id in stored :: idOf(stored[id]) == id)
    && (forall a, b | a in stored && b in stored && a != b :: key(stored[a]) != key(stored[b]))
  }

  /** The rows of `stored` outside `pending` are exactly those of `rows`, in key order. */
  ghost predicate PartialListing<T>(rows: seq<T>, stored: map<nat, T>, pending: set<nat>, idOf: T -> nat, key: T -> Key) {
    && pending <= stored.Keys
    && StrictlySorted(rows, key)
    && (forall x | x in rows :: idOf(x) in stored && idOf(x) !in pending && stored[idOf(x)] == x)
    && (forall id | id in stored && id !in pending :: stored[id] in rows)
    && |rows| == |stored.Keys - pending|
  }

  /** Moving one pending row into the listing keeps it a partial listing. */
  lemma InsertPending<T>(rows: seq<T>, stored: map<nat, T>, pending: set<nat>, id: nat, idOf: T -> nat, key: T -> Key)
    requires Keyed(stored, idOf, key)
    requires PartialListing(rows, stored, pending, idOf, key)
    requires id in pending
    ensures PartialListing(Insert(rows, stored[id], key), stored, pending - {id}, idOf, key)
  {
    var x := stored[id];
    forall y | y in rows
      ensures key(y) != key(x)
    {
      assert idOf(y) != id;
    }
    InsertSorted(rows, x, key);
    InsertMembers(rows, x, key);
    assert stored.Keys - (pending - {id}) == (stored.Keys - pending) + {id};
  }

  /** `find().sort(...)`: reads the stored rows one by one and places each in key order. */
  method SortedRows<T>(stored: map<nat, T>, idOf: T -> nat, key: T -> Key) returns (rows: seq<T>)
    requires Keyed(stored, idOf, key)
    ensures Listing(rows, stored, idOf, key)
    ensures |rows| == |stored|
  {
    var pending := stored.Keys;
    rows := [];
    while pending != {}
      invariant PartialListing(rows, stored, pending, idOf, key)
      decreases pending
    {
      var id :| id in pending;
      InsertPending(rows, stored, pending, id, idOf, key);
      rows := Insert(rows, stored[id], key);
      pending := pending - {id};
    }
    assert stored.Keys - pending == stored.Keys;
  }

  /** The listing of a store is unique. */
  lemma ListingUnique<T>(a: seq<T>, b: seq<T>, stored: map<nat, T>, idOf: T -> nat, key: T -> Key)
    requires Listing(a, stored, idOf, key) && Listing(b, stored, idOf, key)
    ensures a == b
  {
    SortedUnique(a, b, key);
  }
}
