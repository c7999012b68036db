/** The vector-backed queue behind immediate and delta notifications. It is filled at `size`,
    read at `out`, and only emptied as a whole. */
module DeltaList {

  class DeltaList<P(0)> {
    var size: nat
    var out: nat
    var entries: seq<P>

    /** What is still to be read. */
    ghost var contents: seq<P>

    ghost predicate Valid()
      reads this
    {
      && out <= size <= |entries| && 0 < |entries|
      && contents == entries[out..size]
    }

    constructor ()
      ensures Valid() && contents == [] && out == 0
    {
      var blank: P := *;
      size, out := 0, 0;
      entries := seq(100, _ => blank);
      contents := [];
    }

    method Insert(p: P)
      requires Valid()
      modifies this
      ensures Valid() && out == old(out)
      ensures contents == old(contents) + [p]
    {
      if size == |entries| {
        var blank: P := *;
        entries := entries + seq(|entries|, _ => blank);
      }
      entries := entries[size := p];
      size := size + 1;
      contents := contents + [p];
    }

    method Get() returns (p: P)
      requires Valid() && contents != []
      modifies this
      ensures Valid() && out == old(out) + 1
      ensures p == old(contents)[0] && contents == old(contents)[1..]
    {
      p := entries[out];
      out := out + 1;
      contents := contents[1..];
    }

    method HasNext() returns (b: bool)
      requires Valid()
      ensures b <==> contents != []
    {
      b := out < size;
    }

    method Reset()
      requires Valid()
      modifies this
      ensures Valid() && contents == [] && out == 0
    {
      size, out := 0, 0;
      contents := [];
    }
  }
}
