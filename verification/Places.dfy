/** Flattening rows and keeping what is asked for: which places of the rows the result is made of, and in which order. */
module Places {

  function Flat<T>(rows: seq<seq<T>>): seq<T> {
    if rows == [] then [] else Flat(rows[..|rows| - 1]) + rows[|rows| - 1]
  }

  function Kept<T>(items: seq<T>, asked: T -> bool): seq<T> {
    if items == [] then []
    else Kept(items[..|items| - 1], asked) + (if asked(items[|items| - 1]) then [items[|items| - 1]] else [])
  }

  datatype Place = Place(row: nat, item: nat)

  predicate Before(a: Place, b: Place) {
    a.row < b.row || (a.row == b.row && a.item < b.item)
  }

  predicate IsPlace<T>(rows: seq<seq<T>>, a: Place) {
    a.row < |rows| && a.item < |rows[a.row]|
  }

  ghost predicate IsAt<T>(rows: seq<seq<T>>, a: Place, x: T) {
    IsPlace(rows, a) && rows[a.row][a.item] == x
  }

  /** `found` are the items at `places`. */
  ghost predicate Located<T>(rows: seq<seq<T>>, found: seq<T>, places: seq<Place>) {
    |places| == |found| && forall i :: 0 <= i < |places| ==> IsAt(rows, places[i], found[i])
  }

  predicate InOrder(places: seq<Place>) {
    forall i, j :: 0 <= i < j < |places| ==> Before(places[i], places[j])
  }

  /** `found` are the items at `places`, which are in order, and are all the places whose item is asked for. */
  ghost predicate AreTheAsked<T>(rows: seq<seq<T>>, asked: T -> bool, found: seq<T>, places: seq<Place>) {
    && Located(rows, found, places) && InOrder(places)
    && (forall x :: x in found ==> asked(x))
    && (forall a :: IsPlace(rows, a) && asked(rows[a.row][a.item]) ==> a in places)
  }

  function RowPlaces(row: nat, n: nat): seq<Place> {
    seq(n, i requires 0 <= i < n => Place(row, i))
  }

  /** Every place, in order. */
  function AllPlaces<T>(rows: seq<seq<T>>): seq<Place> {
    if rows == [] then [] else AllPlaces(rows[..|rows| - 1]) + RowPlaces(|rows| - 1, |rows[|rows| - 1]|)
  }

  lemma LocatedRow<T>(rows: seq<seq<T>>, row: seq<T>, found: seq<T>, places: seq<Place>)
    requires Located(rows, found, places)
    ensures Located(rows + [row], found + row, places + RowPlaces(|rows|, |row|))
  {
    var more := places + RowPlaces(|rows|, |row|);
    forall i | 0 <= i < |more|
      ensures IsAt(rows + [row], more[i], (found + row)[i])
    {
      if i < |places| {
        assert IsAt(rows, places[i], found[i]);
      } else {
        assert more[i] == Place(|rows|, i - |places|);
      }
    }
  }

  lemma {:induction false} FlatIsLocated<T>(rows: seq<seq<T>>)
    ensures Located(rows, Flat(rows), AllPlaces(rows))
    decreases |rows|
  {
    if rows != [] {
      var before, last := rows[..|rows| - 1], rows[|rows| - 1];
      FlatIsLocated(before);
      LocatedRow(before, last, Flat(before), AllPlaces(before));
      assert rows == before + [last];
    }
  }

  lemma {:induction false} AllPlacesInOrder<T>(rows: seq<seq<T>>)
    ensures InOrder(AllPlaces(rows))
    decreases |rows|
  {
    if rows != [] {
      var before, last := rows[..|rows| - 1], rows[|rows| - 1];
      AllPlacesInOrder(before);
      FlatIsLocated(before);
      assert forall i :: 0 <= i < |AllPlaces(before)| ==> IsAt(before, AllPlaces(before)[i], Flat(before)[i]);
    }
  }

  lemma {:induction false} EveryPlaceIsThere<T>(rows: seq<seq<T>>, a: Place)
    requires IsPlace(rows, a)
    ensures a in AllPlaces(rows)
    decreases |rows|
  {
    var before, last := rows[..|rows| - 1], rows[|rows| - 1];
    if a.row == |before| {
      assert RowPlaces(|before|, |last|)[a.item] == a;
    } else {
      EveryPlaceIsThere(before, a);
    }
  }

  /** `at` are the indexes, in order, of the items that are asked for, and `found` the items there. */
  ghost predicate AreIndexes<T>(items: seq<T>, asked: T -> bool, found: seq<T>, at: seq<nat>) {
    && |at| == |found|
    && (forall i :: 0 <= i < |at| ==> at[i] < |items| && found[i] == items[at[i]] && asked(found[i]))
    && (forall i, j :: 0 <= i < j < |at| ==> at[i] < at[j])
    && (forall k: nat :: k < |items| && asked(items[k]) ==> k in at)
  }

  lemma OneMoreIndex<T>(items: seq<T>, asked: T -> bool, x: T, found: seq<T>, at: seq<nat>)
    requires AreIndexes(items, asked, found, at)
    ensures asked(x) ==> AreIndexes(items + [x], asked, found + [x], at + [|items|])
    ensures !asked(x) ==> AreIndexes(items + [x], asked, found, at)
  {
    if asked(x) {
      var all, more := items + [x], at + [|items|];
      forall k: nat | k < |all| && asked(all[k])
        ensures k in more
      {
        if k == |items| {
          assert more[|at|] == k;
        } else {
          assert all[k] == items[k] && k in at;
        }
      }
    }
  }

  lemma {:induction false} KeptIndexes<T>(items: seq<T>, asked: T -> bool) returns (at: seq<nat>)
    ensures AreIndexes(items, asked, Kept(items, asked), at)
    decreases |items|
  {
    if items == [] {
      return [];
    }
    var before, last := items[..|items| - 1], items[|items| - 1];
    at := KeptIndexes(before, asked);
    OneMoreIndex(before, asked, last, Kept(before, asked), at);
    assert items == before + [last];
    if asked(last) {
      at := at + [|before|];
    }
  }

  function PlacesAt(all: seq<Place>, at: seq<nat>): seq<Place>
    requires forall i :: 0 <= i < |at| ==> at[i] < |all|
  {
    seq(|at|, i requires 0 <= i < |at| => all[at[i]])
  }

  lemma KeptAreComplete<T>(rows: seq<seq<T>>, asked: T -> bool, at: seq<nat>, a: Place)
    requires AreIndexes(Flat(rows), asked, Kept(Flat(rows), asked), at) && |AllPlaces(rows)| == |Flat(rows)|
    requires IsPlace(rows, a) && asked(rows[a.row][a.item])
    ensures a in PlacesAt(AllPlaces(rows), at)
  {
    EveryPlaceIsThere(rows, a);
    FlatIsLocated(rows);
    var k: nat :| k < |AllPlaces(rows)| && AllPlaces(rows)[k] == a;
    assert IsAt(rows, AllPlaces(rows)[k], Flat(rows)[k]);
    var i :| 0 <= i < |at| && at[i] == k;
    assert PlacesAt(AllPlaces(rows), at)[i] == a;
  }

  /** What is kept of the flattened rows: the asked items, in the order of the rows and in each row, as often as they are there. */
  lemma KeptPlaces<T>(rows: seq<seq<T>>, asked: T -> bool) returns (places: seq<Place>)
    ensures AreTheAsked(rows, asked, Kept(Flat(rows), asked), places)
  {
    FlatIsLocated(rows);
    AllPlacesInOrder(rows);
    var at := KeptIndexes(Flat(rows), asked);
    places := PlacesAt(AllPlaces(rows), at);
    assert Located(rows, Kept(Flat(rows), asked), places) by {
      assert forall i :: 0 <= i < |at| ==> IsAt(rows, AllPlaces(rows)[at[i]], Flat(rows)[at[i]]);
    }
    forall a | IsPlace(rows, a) && asked(rows[a.row][a.item])
      ensures a in places
    {
      KeptAreComplete(rows, asked, at, a);
    }
  }
}
