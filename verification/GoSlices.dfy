/** Go's slices: parts of arrays that other slices may share. */
module GoSlices {
  /** A window on an array. A function that is given one gets its own copy of the bounds, while
      the elements are shared. */
  datatype Slice<T> = Slice(elems: array<T>, from: nat, len: nat) {
    predicate Fits() { from + len <= elems.Length }

    function View(): seq<T>
      requires Fits()
      reads elems
    {
      elems[from..from + len]
    }

    /** append: in place behind the window if there is room, else into a new, larger array. */
    method Append(x: T) returns (s: Slice<T>)
      requires Fits()
      modifies elems
      ensures s.Fits() && s.View() == old(View()) + [x]
      ensures s.elems == elems || fresh(s.elems)
    {
      if from + len < elems.Length {
        elems[from + len] := x;
        return Slice(elems, from, len + 1);
      }
      var was := View();
      var capacity: nat :| capacity > len;
      var larger := new T[capacity](i => if 0 <= i < |was| then was[i] else x);
      assert larger[..len + 1] == was + [x];
      s := Slice(larger, 0, len + 1);
    }

    /** The last n elements, in the same array. */
    function Tail(n: nat): (s: Slice<T>)
      requires Fits() && n <= len
      reads elems
      ensures s.Fits() && s.elems == elems && s.View() == View()[len - n..]
    {
      Slice(elems, from + len - n, n)
    }
  }
}
