/**
 * Sizing of the per-group index bitmap built by `bitmapFrom`: a byte-aligned
 * number of bits that can hold every index named by the group's allocations
 * and at least the requested minimum.
 */
module Bitmaps {
  import opened Wrappers
  import opened Structs
  import opened Reconcile

  function Max(a: nat, b: nat): nat {
    if a < b then b else a
  }

  /** The nearest multiple of 8 at or above `n`. */
  function RoundUp8(n: nat): (r: nat)
    ensures r % 8 == 0 && n <= r < n + 8
  {
    if n % 8 == 0 then n else n + 8 - n % 8
  }

  /**
   * A bitmap of `size` bits serves the group: it is a whole positive number
   * of bytes, honours the requested minimum, and has a bit for every index.
   */
  ghost predicate Fits(size: nat, indices: set<nat>, minSize: nat) {
    && size > 0
    && size % 8 == 0
    && minSize <= size
    && forall i :: i in indices ==> i < size
  }

  /** `size` is the smallest size that serves the group. */
  ghost predicate IsBitmapSize(size: nat, indices: set<nat>, minSize: nat) {
    && Fits(size, indices, minSize)
    && forall k :: Fits(k, indices, minSize) ==> size <= k
  }

  /** The indices named by well-formed allocation names. */
  function Indices(allocs: AllocSet): set<nat> {
    set id | id in allocs && allocs[id].Index().Some? :: allocs[id].Index().value
  }

  /** The allocations whose names carry no readable index. */
  function Malformed(allocs: AllocSet): (ids: set<string>)
    ensures ids <= allocs.Keys
  {
    set id | id in allocs && allocs[id].Index().None?
  }

  /** The size for indices all below `bound`, at least `minSize`, and never zero. */
  function SizeFor(bound: nat, minSize: nat): nat {
    RoundUp8(Max(Max(bound, minSize), 1))
  }

  /** When `bound` is one past the highest index, `SizeFor` is the smallest serving size. */
  lemma SizeForIsBitmapSize(indices: set<nat>, bound: nat, minSize: nat)
    requires forall i :: i in indices ==> i < bound
    requires bound == 0 || bound - 1 in indices
    ensures IsBitmapSize(SizeFor(bound, minSize), indices, minSize)
  {
  }

  /** There is only one smallest serving size. */
  lemma BitmapSizeUnique(n1: nat, n2: nat, indices: set<nat>, minSize: nat)
    requires IsBitmapSize(n1, indices, minSize) && IsBitmapSize(n2, indices, minSize)
    ensures n1 == n2
  {
  }

  /** Asking for more (more indices, a larger minimum) never shrinks the size. */
  lemma BitmapSizeMonotonic(n1: nat, indices1: set<nat>, minSize1: nat,
                            n2: nat, indices2: set<nat>, minSize2: nat)
    requires IsBitmapSize(n1, indices1, minSize1) && IsBitmapSize(n2, indices2, minSize2)
    requires indices1 <= indices2 && minSize1 <= minSize2
    ensures n1 <= n2
  {
    assert Fits(n2, indices1, minSize1);
  }

  /**
   * The bitmap size for a group: fails with the IDs of the allocations whose
   * names are malformed, and otherwise returns the smallest serving size.
   */
  method BitmapFrom(allocs: AllocSet, minSize: nat) returns (r: Result<nat, set<string>>)
    ensures r.Failure? <==> Malformed(allocs) != {}
    ensures r.Failure? ==> r.error == Malformed(allocs)
    ensures r.Success? ==> IsBitmapSize(r.value, Indices(allocs), minSize)
  {
    var malformed := Malformed(allocs);
    if malformed != {} {
      return Failure(malformed);
    }
    assert forall id :: id in allocs ==> allocs[id].Index().Some? by {
      forall id | id in allocs
        ensures allocs[id].Index().Some?
      {
        assert allocs[id].Index().None? ==> id in malformed;
      }
    }
    var rest := allocs.Keys;
    var bound := 0;
    while rest != {}
      invariant rest <= allocs.Keys
      invariant forall id :: id in allocs && id !in rest ==> allocs[id].Index().value < bound
      invariant bound == 0 || exists id :: id in allocs && id !in rest && allocs[id].Index().value == bound - 1
      decreases rest
    {
      var id :| id in rest;
      var idx := allocs[id].Index().value;
      if bound < idx + 1 {
        bound := idx + 1;
      }
      rest := rest - {id};
    }
    var indices := Indices(allocs);
    assert forall i :: i in indices ==> i < bound;
    if bound != 0 {
      var id :| id in allocs && allocs[id].Index().value == bound - 1;
      assert bound - 1 in indices;
    }
    SizeForIsBitmapSize(indices, bound, minSize);
    return Success(SizeFor(bound, minSize));
  }

  // -----------------------------------------------------------------------
  // The regression test for an index above the requested minimum

  /** One allocation, `foo.bar[8]`, keyed "8". */
  function ScenarioInput(): AllocSet {
    map["8" := Allocation("", "foo", "bar", "foo.bar[8]", Pending, "", DesiredTransition(None), "")]
  }

  /** Index 8 needs 16 bits whether the minimum asked for is 1 or 8. */
  lemma BitmapFromScenario()
    ensures Malformed(ScenarioInput()) == {}
    ensures Indices(ScenarioInput()) == {8}
    ensures forall n :: IsBitmapSize(n, Indices(ScenarioInput()), 1) <==> n == 16
    ensures forall n :: IsBitmapSize(n, Indices(ScenarioInput()), 8) <==> n == 16
  {
    var a := ScenarioInput()["8"];
    assert a.name == AllocName("foo", "bar", 8);
    NameIndexOfAllocName("foo", "bar", 8);
    assert a.Index() == Some(8);
    assert Indices(ScenarioInput()) == {8};
    SizeForIsBitmapSize({8}, 9, 1);
    SizeForIsBitmapSize({8}, 9, 8);
    assert SizeFor(9, 1) == 16 && SizeFor(9, 8) == 16;
    forall n | IsBitmapSize(n, {8}, 1)
      ensures n == 16
    {
      BitmapSizeUnique(n, 16, {8}, 1);
    }
    forall n | IsBitmapSize(n, {8}, 8)
      ensures n == 16
    {
      BitmapSizeUnique(n, 16, {8}, 8);
    }
  }

  /** `BitmapFrom` on the table test's input returns a 16-bit size for either minimum size. */
  method BitmapFromScenarioRun() returns (r1: Result<nat, set<string>>, r8: Result<nat, set<string>>)
    ensures r1 == Success(16) && r8 == Success(16)
  {
    BitmapFromScenario();
    r1 := BitmapFrom(ScenarioInput(), 1);
    r8 := BitmapFrom(ScenarioInput(), 8);
  }
}
