/**
 * The growable array list of the C sources (src/arraylist.c and
 * chess/src/arraylist.c): a buffer of `cap` slots whose first `len`
 * slots are the contents, growing tenfold when an append finds it full.
 */
module ArrayList {

  /** The largest size_t. */
  const SIZE_MAX: int := 0xFFFF_FFFF_FFFF_FFFF

  /** alst_index_of's "not found" answer, (size_t) -1. */
  const NOT_FOUND: int := SIZE_MAX

  class AList<T(0,==)> {
    var len: nat
    var cap: nat
    var data: array<T>

    /** The buffer holds exactly `cap` slots, the contents fit in it, and it is never empty. */
    ghost predicate Valid()
      reads this
    {
      data.Length == cap && len <= cap && 0 < cap
    }

    /** The list's elements, in order. */
    function Contents(): seq<T>
      requires Valid()
      reads this, data
    {
      data[..len]
    }

    /**
     * alst_make of src/arraylist.c, with the buffer sized to the recorded
     * capacity: an empty list of capacity max(cap, 10).
     */
    constructor Make(cap: nat)
      ensures Valid() && fresh(data)
      ensures Contents() == []
      ensures this.cap == (if cap < 10 then 10 else cap)
    {
      var c := if cap < 10 then 10 else cap;
      len := 0;
      this.cap := c;
      data := new T[c];
    }

    /** alst_make of chess/src/arraylist.c: an empty list of capacity `cap`, 10 when 0 is asked for. */
    constructor MakeValue(cap: nat)
      ensures Valid() && fresh(data)
      ensures Contents() == []
      ensures this.cap == (if cap == 0 then 10 else cap)
    {
      var c := if cap == 0 then 10 else cap;
      len := 0;
      this.cap := c;
      data := new T[c];
    }

    /**
     * alst_put: overwrite element i. An index outside the contents makes
     * the process exit (`ok` false, nothing written).
     */
    method Put(i: nat, val: T) returns (ok: bool)
      requires Valid()
      modifies data
      ensures Valid()
      ensures ok <==> i < len
      ensures Contents() == if ok then old(Contents())[i := val] else old(Contents())
    {
      if !IndexAccepted(i, len) {
        return false;
      }
      data[i] := val;
      return true;
    }

    /**
     * alst_get: element i. An index outside the contents makes the process
     * exit (`ok` false; `val` is then never looked at).
     */
    method Get(i: nat) returns (ok: bool, val: T)
      requires Valid()
      ensures ok <==> i < |Contents()|
      ensures ok ==> val == Contents()[i]
    {
      if !IndexAccepted(i, len) {
        return false, data[0];
      }
      return true, data[i];
    }

    /** alst_append: add `val` at the end, first growing the buffer tenfold when it is full. */
    method Append(val: T)
      requires Valid()
      modifies this, data
      ensures Valid()
      ensures Contents() == old(Contents()) + [val]
      ensures old(len) < old(cap) ==> cap == old(cap) && data == old(data)
      ensures old(len) == old(cap) ==> cap == 10 * old(cap) && fresh(data)
    {
      if len == cap {
        cap := cap * 10;
        var previous := data;
        data := new T[cap];
        forall k | 0 <= k < len {
          data[k] := previous[k];
        }
      }
      data[len] := val;
      len := len + 1;
    }

    /** alst_index_of: the first index holding `val`, or NOT_FOUND. */
    method IndexOf(val: T) returns (r: int)
      requires Valid()
      requires len < SIZE_MAX
      ensures r == NOT_FOUND <==> val !in Contents()
      ensures r != NOT_FOUND ==> 0 <= r < |Contents()| && Contents()[r] == val && val !in Contents()[..r]
    {
      var i := 0;
      while i < len
        invariant 0 <= i <= len
        invariant val !in data[..i]
      {
        if data[i] == val {
          assert data[..i + 1] == data[..i] + [data[i]];
          return i;
        }
        assert data[..i + 1] == data[..i] + [data[i]];
        i := i + 1;
      }
      assert data[..i] == Contents();
      return NOT_FOUND;
    }
  }

  /** The bounds check of alst_put and alst_get, taken as meant: the index is inside the contents. */
  predicate IndexAccepted(i: nat, len: nat)
  {
    i < len
  }

  /**
   * The bounds check as written, `!(i > len - 1)` on size_t values, where
   * `len - 1` wraps around to SIZE_MAX when the list is empty.
   */
  function IndexAcceptedAsWritten(i: nat, len: nat): (ok: bool)
    requires i <= SIZE_MAX && len <= SIZE_MAX
  {
    !(i > (len - 1) % (SIZE_MAX + 1))
  }

  /** On a non-empty list the check as written is the intended one. */
  lemma IndexCheckAgreesWhenNonEmpty(i: nat, len: nat)
    requires i <= SIZE_MAX && 0 < len <= SIZE_MAX
    ensures IndexAcceptedAsWritten(i, len) == IndexAccepted(i, len)
  {
  }

  /** On an empty list the check as written accepts every index, though none is inside the contents. */
  lemma IndexCheckAcceptsAnyIndexWhenEmpty(i: nat)
    requires i <= SIZE_MAX
    ensures IndexAcceptedAsWritten(i, 0) && !IndexAccepted(i, 0)
  {
  }

  /**
   * alst_make of src/arraylist.c as written: the capacity it records and
   * the number of slots it allocates.
   */
  function MakeAsWritten(cap: nat): (r: (nat, nat))
    ensures r.0 >= 10 && r.0 >= cap && (r.0 == 10 || r.0 == cap) && r.1 == cap
  {
    (if cap < 10 then 10 else cap, cap)
  }

  /**
   * As written, a capacity under 10 leaves the buffer shorter than the
   * recorded capacity, so appends up to that capacity write past it.
   */
  lemma MakeAsWrittenUnderAllocates(cap: nat)
    requires cap < 10
    ensures MakeAsWritten(cap).1 < MakeAsWritten(cap).0
    ensures MakeAsWritten(cap).0 - MakeAsWritten(cap).1 == 10 - cap
  {
  }
}
