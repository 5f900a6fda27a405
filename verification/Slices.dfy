/** Go slices of integers: a length within a backing array. */
module Slices {

  ghost predicate Nondecreasing(s: seq<int>) { forall i, j :: 0 <= i < j < |s| ==> s[i] <= s[j] }

  class Slice {
    var data: array<int>
    var len: nat

    ghost predicate Valid() reads this { len <= data.Length }

    ghost function Contents(): seq<int>
      reads this, data
      requires Valid()
    {
      data[..len]
    }

    constructor ()
      ensures Valid() && fresh(data) && Contents() == []
    {
      data, len := new int[0], 0;
    }

    method Append(x: int)
      requires Valid()
      modifies this, data
      ensures Valid() && Contents() == old(Contents()) + [x]
      ensures data == old(data) || fresh(data)
    {
      if len == data.Length {
        var grown := new int[2 * len + 1];
        forall i | 0 <= i < len { grown[i] := data[i]; }
        data := grown;
      }
      data[len] := x;
      len := len + 1;
    }

    method Clear()
      modifies this
      ensures Valid() && fresh(data) && Contents() == []
    {
      data, len := new int[0], 0;
    }
  }
}
