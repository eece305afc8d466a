/**
 * Records as values.  A record carries its id, the two timestamps the store
 * stamps on it and the rest of its JSON document.
 */
module Entries {
  import opened Wrappers

  /** A point in time, as produced by the clock; nothing in the model compares or computes with it. */
  datatype Time = Time(instant: int)

  /**
   * A record.  `data` stands for every field of the caller's type that the
   * store neither assigns nor stamps.
   */
  datatype Entry = Entry(id: string, created: Option<Time>, modified: Option<Time>, data: string) {

    /** The `AssignId` hook. */
    function AssignId(newId: string): Entry
    {
      this.(id := newId)
    }

    /** The `Created` hook. */
    function Created(at: Time): Entry
    {
      this.(created := Some(at))
    }

    /** The `Modified` hook. */
    function Modified(at: Time): Entry
    {
      this.(modified := Some(at))
    }
  }

  /** No id occurs twice in `s`. */
  predicate Distinct(s: seq<string>)
  {
    forall i, j :: 0 <= i < j < |s| ==> s[i] != s[j]
  }

  /**
   * Lists the elements of a set of ids in some order, each exactly once
   * (the order of Go's map iteration is not modelled).
   */
  method Enumerate(ids: set<string>) returns (r: seq<string>)
    ensures Distinct(r)
    ensures forall id :: id in r <==> id in ids
  {
    r := [];
    var rest := ids;
    while rest != {}
      invariant rest <= ids
      invariant Distinct(r)
      invariant forall id :: id in r <==> id in ids && id !in rest
      decreases rest
    {
      var id :| id in rest;
      r := r + [id];
      rest := rest - {id};
    }
  }

}
