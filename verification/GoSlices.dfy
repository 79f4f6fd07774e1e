/**
 * Bounded histories kept in a Go slice: append in place or into a new backing array, then re-slice.
 * The lists handed out by GetHistory are windows into the same backing arrays.
 */
module GoSlices {

  /** A slice header: backing array, offset and length. Its capacity runs to the end of the backing array. */
  datatype Slice<T> = Slice(base: array<T>, off: nat, len: nat) {
    ghost predicate InBounds() {
      off + len <= base.Length
    }

    ghost function Items(): seq<T>
      requires InBounds()
      reads base
    {
      base[off..off + len]
    }
  }

  /** The last n entries, all of them when there are no more than n. */
  function Last<T>(s: seq<T>, n: nat): seq<T> {
    if |s| <= n then s else s[|s| - n..]
  }

  lemma LastIsSuffix<T>(s: seq<T>, n: nat)
    ensures var k := if |s| < n then |s| else n;
            |Last(s, n)| == k && s == s[..|s| - k] + Last(s, n)
  {
  }

  lemma LastOfLast<T>(s: seq<T>, m: nat, n: nat)
    ensures Last(Last(s, m), n) == Last(s, if m < n then m else n)
  {
  }

  lemma LastOfAppend<T>(s: seq<T>, x: T, n: nat)
    requires n > 0
    ensures Last(Last(s, n) + [x], n) == Last(s + [x], n)
  {
  }

  /** The end of a window into a longer sequence is a window. */
  lemma WindowEnd<T>(all: seq<T>, lo: nat, hi: nat, n: nat)
    requires lo <= hi <= |all|
    ensures Last(all[lo..hi], n) == if hi - lo <= n then all[lo..hi] else all[hi - n..hi]
  {
  }

  const BOUND: nat := 50

  class History<T(0)> {
    var backing: array<T>
    var off: nat
    var len: nat
    ghost var log: seq<T>                         // everything ever added
    ghost var handedOut: map<Slice<T>, seq<T>>    // every slice returned so far, with its contents at that time

    ghost var arrays: set<array<T>>               // their backing arrays

    ghost predicate Valid()
      reads this, backing, arrays
    {
      && off + len <= backing.Length
      && Contents() == Last(log, BOUND)
      && Intact()
    }

    /** Every slice handed out still shows what it showed, and ends before the next place to be written. */
    ghost predicate Intact()
      reads this`backing, this`off, this`len, this`handedOut, this`arrays, arrays
    {
      forall s | s in handedOut ::
        s.base in arrays && s.InBounds() && s.Items() == handedOut[s] && (s.base == backing ==> s.off + s.len <= off + len)
    }

    ghost function Contents(): seq<T>
      requires off + len <= backing.Length
      reads this`backing, this`off, this`len, backing
    {
      backing[off..off + len]
    }

    constructor ()
      ensures Valid() && log == [] && handedOut == map[]
      ensures fresh(backing)
    {
      backing := new T[0];
      off, len := 0, 0;
      log, handedOut, arrays := [], map[], {};
    }

    /** append, first part: without room, copy into a new array with any amount of spare room. */
    method MakeRoom(spare: nat)
      requires off + len <= backing.Length && Intact()
      modifies this`backing, this`off
      ensures off + len < backing.Length && Contents() == old(Contents())
      ensures Intact()
      ensures backing == old(backing) || fresh(backing)
    {
      if off + len < backing.Length {
        return;
      }
      var grown := new T[len + 1 + spare];
      forall i | 0 <= i < len {
        grown[i] := backing[off + i];
      }
      assert grown[0..len] == backing[off..off + len];
      backing, off := grown, 0;
    }

    /** append, second part: write in place. */
    method Put(x: T)
      requires off + len < backing.Length && Intact()
      modifies this`len, backing
      ensures off + len <= backing.Length && Contents() == old(Contents()) + [x]
      ensures Intact()
    {
      backing[off + len] := x;
      len := len + 1;
      assert forall s | s in handedOut :: s.base.Length >= s.off + s.len && s.Items() == old(s.Items());
    }

    /** Re-slice to the last fifty. */
    method Bound()
      requires off + len <= backing.Length && Intact()
      modifies this`off, this`len
      ensures off + len <= backing.Length && Contents() == Last(old(Contents()), BOUND)
      ensures Intact()
    {
      if len > BOUND {
        off, len := off + (len - BOUND), BOUND;
      }
    }

    /** AddToHistory of both owners: append, then keep the last fifty. */
    method AddToHistory(x: T, spare: nat)
      requires Valid()
      modifies this`backing, this`off, this`len, this`log, backing
      ensures Valid()
      ensures log == old(log) + [x]
      ensures backing == old(backing) || fresh(backing)
    {
      LastOfAppend(log, x, BOUND);
      log := log + [x];
      MakeRoom(spare);
      Put(x);
      Bound();
    }

    /** The last entries, as a window. */
    method Window(count: nat) returns (s: Slice<T>)
      requires off + len <= backing.Length
      ensures s.base == backing && s.InBounds() && s.off + s.len == off + len
      ensures s.Items() == Last(Contents(), count)
    {
      WindowEnd(backing[..], off, off + len, count);
      if count >= len {
        s := Slice(backing, off, len);
      } else {
        s := Slice(backing, off + (len - count), count);
      }
    }

    /** GetHistory of both owners. */
    method GetHistory(count: nat) returns (s: Slice<T>)
      requires Valid()
      modifies this`handedOut, this`arrays
      ensures Valid()
      ensures s.InBounds() && s.Items() == Last(log, if count < BOUND then count else BOUND)
      ensures handedOut == old(handedOut)[s := s.Items()]
    {
      LastOfLast(log, BOUND, count);
      s := Window(count);
      handedOut, arrays := handedOut[s := s.Items()], arrays + {backing};
    }
  }

  lemma OneMore<T>(start: seq<T>, later: seq<T>, i: nat)
    requires i < |later|
    ensures start + later[..i + 1] == start + later[..i] + [later[i]]
  {
  }

  /** Whatever is added after GetHistory returned, and however append grows, the returned slice keeps its contents. */
  method ReturnedSliceSurvives<T(0)>(h: History<T>, count: nat, later: seq<T>, spare: nat -> nat)
    returns (s: Slice<T>)
    requires h.Valid()
    modifies h, h.backing
    ensures h.Valid() && h.log == old(h.log) + later
    ensures s.InBounds() && s.Items() == Last(old(h.log), if count < BOUND then count else BOUND)
  {
    ghost var start := h.log;
    s := h.GetHistory(count);
    ghost var shown := s.Items();
    for i := 0 to |later|
      invariant h.Valid() && h.log == start + later[..i]
      invariant h.backing == old(h.backing) || fresh(h.backing)
      invariant s in h.handedOut && h.handedOut[s] == shown
    {
      OneMore(start, later, i);
      h.AddToHistory(later[i], spare(i));
    }
    assert later[..|later|] == later;
  }
}
