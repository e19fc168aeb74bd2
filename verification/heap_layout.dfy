/** Placement of the render targets in one device-local heap. When the device
    supports virtual resources, nine textures are packed in a fixed order:
    a sizing loop accumulates the heap capacity and a binding loop places each
    texture at the running offset rounded up to the texture's alignment. The
    two shading-rate surfaces among them are created from a descriptor of
    their own that never asks for a virtual texture, yet they are sized into
    the heap and bound to it like the other seven. */
module HeapLayout {
  import opened Rounding
  import opened Wrappers

  /** The textures that live in the render-target heap. */
  datatype Texture =
    | HdrColor
    | MaterialIds
    | ResolvedColor
    | TemporalFeedback1
    | TemporalFeedback2
    | LdrColor
    | AmbientOcclusion
    | RateSurface
    | NasDataSurface

  /** The order in which both loops visit the textures. */
  const HeapTextures: seq<Texture> := [
    HdrColor, MaterialIds, ResolvedColor, TemporalFeedback1, TemporalFeedback2,
    LdrColor, AmbientOcclusion, RateSurface, NasDataSurface
  ]

  /** Whether a texture of the heap is created as a virtual resource on a
      device that supports them: the seven targets share the descriptor
      that carries the flag, the rate and NAS data surfaces do not. */
  predicate CreatedVirtual(t: Texture)
  {
    t != RateSurface && t != NasDataSurface
  }

  /** Exactly the first seven textures of the heap order are virtual. */
  lemma HeapTexturesVirtual()
    ensures forall i :: 0 <= i < |HeapTextures| ==> (CreatedVirtual(HeapTextures[i]) <==> i < 7)
  {
  }

  /** What the device reports for one texture. */
  datatype MemoryRequirements = MemoryRequirements(size: nat, alignment: nat)

  predicate ValidRequirements(reqs: seq<MemoryRequirements>)
  {
    forall i :: 0 <= i < |reqs| ==> reqs[i].alignment > 0
  }

  /** Reference definition: the running offset once the first `n` textures
      of `reqs` have been placed in order. */
  function EndAt(reqs: seq<MemoryRequirements>, n: nat): nat
    requires ValidRequirements(reqs) && n <= |reqs|
  {
    if n == 0 then 0
    else Align(EndAt(reqs, n - 1), reqs[n - 1].alignment) + reqs[n - 1].size
  }

  /** Reference definition: where texture `i` is placed. */
  function OffsetOf(reqs: seq<MemoryRequirements>, i: nat): nat
    requires ValidRequirements(reqs) && i < |reqs|
  {
    Align(EndAt(reqs, i), reqs[i].alignment)
  }

  /** The running offset never decreases as more textures are placed. */
  lemma {:induction false} EndMonotone(reqs: seq<MemoryRequirements>, i: nat, j: nat)
    requires ValidRequirements(reqs) && i <= j <= |reqs|
    ensures EndAt(reqs, i) <= EndAt(reqs, j)
    decreases j - i
  {
    if i < j {
      EndMonotone(reqs, i, j - 1);
    }
  }

  /** End of the texture placed just before position `i`, 0 for the first. */
  function PreviousEnd(reqs: seq<MemoryRequirements>, offsets: seq<nat>, i: nat): nat
    requires |offsets| == |reqs| && i <= |reqs|
  {
    if i == 0 then 0 else offsets[i - 1] + reqs[i - 1].size
  }

  /** Local characterisation of a packed layout: each texture starts at the
      end of its predecessor rounded up to its own alignment. */
  predicate Packed(reqs: seq<MemoryRequirements>, offsets: seq<nat>)
    requires ValidRequirements(reqs)
  {
    && |offsets| == |reqs|
    && forall i :: 0 <= i < |reqs| ==> offsets[i] == Align(PreviousEnd(reqs, offsets, i), reqs[i].alignment)
  }

  /** Texture ranges [offset, offset + size) appear in order and do not
      overlap. */
  predicate Disjoint(reqs: seq<MemoryRequirements>, offsets: seq<nat>)
    requires |offsets| == |reqs|
  {
    forall i, j :: 0 <= i < j < |reqs| ==> offsets[i] + reqs[i].size <= offsets[j]
  }

  /** Every texture is placed at a multiple of its alignment. */
  predicate AlignedOffsets(reqs: seq<MemoryRequirements>, offsets: seq<nat>)
    requires ValidRequirements(reqs) && |offsets| == |reqs|
  {
    forall i :: 0 <= i < |reqs| ==> offsets[i] % reqs[i].alignment == 0
  }

  /** A packed layout is aligned, ordered and non-overlapping, and it is the
      layout of the reference definition. */
  lemma PackedIsSound(reqs: seq<MemoryRequirements>, offsets: seq<nat>)
    requires ValidRequirements(reqs) && Packed(reqs, offsets)
    ensures AlignedOffsets(reqs, offsets)
    ensures Disjoint(reqs, offsets)
    ensures forall i :: 0 <= i < |reqs| ==> offsets[i] == OffsetOf(reqs, i)
  {
    PackedMatchesReference(reqs, offsets, |reqs|);
    forall i, j | 0 <= i < j < |reqs|
      ensures offsets[i] + reqs[i].size <= offsets[j]
    {
      ReferenceOrdered(reqs, i, j);
    }
  }

  /** In the reference placement, texture `i` ends before texture `j`
      starts whenever `i < j`. */
  lemma ReferenceOrdered(reqs: seq<MemoryRequirements>, i: nat, j: nat)
    requires ValidRequirements(reqs) && i < j < |reqs|
    ensures OffsetOf(reqs, i) + reqs[i].size <= OffsetOf(reqs, j)
  {
    EndMonotone(reqs, i + 1, j);
  }

  lemma {:induction false} PackedMatchesReference(reqs: seq<MemoryRequirements>, offsets: seq<nat>, n: nat)
    requires ValidRequirements(reqs) && Packed(reqs, offsets) && n <= |reqs|
    ensures forall i :: 0 <= i < n ==> offsets[i] == OffsetOf(reqs, i)
    ensures PreviousEnd(reqs, offsets, n) == EndAt(reqs, n)
  {
    if n > 0 {
      PackedMatchesReference(reqs, offsets, n - 1);
      var a := reqs[n - 1].alignment;
      assert offsets[n - 1] == Align(PreviousEnd(reqs, offsets, n - 1), a);
      assert offsets[n - 1] == Align(EndAt(reqs, n - 1), a);
    }
  }

  /** The sizing loop: the heap capacity is the running offset after all
      textures, and every texture's reference placement lies inside it. */
  method SizeHeap(reqs: seq<MemoryRequirements>) returns (heapSize: nat)
    requires ValidRequirements(reqs)
    ensures heapSize == EndAt(reqs, |reqs|)
    ensures forall i :: 0 <= i < |reqs| ==> OffsetOf(reqs, i) + reqs[i].size <= heapSize
  {
    heapSize := 0;
    var i := 0;
    while i < |reqs|
      invariant 0 <= i <= |reqs|
      invariant heapSize == EndAt(reqs, i)
    {
      heapSize := Align(heapSize, reqs[i].alignment);
      heapSize := heapSize + reqs[i].size;
      i := i + 1;
    }
    forall i | 0 <= i < |reqs|
      ensures OffsetOf(reqs, i) + reqs[i].size <= heapSize
    {
      EndMonotone(reqs, i + 1, |reqs|);
    }
  }

  /** The binding loop: the offsets it binds form a packed layout whose last
      range ends exactly at the capacity the sizing loop computed. */
  method BindTextures(reqs: seq<MemoryRequirements>) returns (offsets: seq<nat>)
    requires ValidRequirements(reqs)
    ensures Packed(reqs, offsets)
    ensures AlignedOffsets(reqs, offsets)
    ensures Disjoint(reqs, offsets)
    ensures |reqs| > 0 ==> offsets[|reqs| - 1] + reqs[|reqs| - 1].size == EndAt(reqs, |reqs|)
    ensures forall i :: 0 <= i < |reqs| ==> offsets[i] == OffsetOf(reqs, i)
  {
    offsets := [];
    var offset := 0;
    var i := 0;
    while i < |reqs|
      invariant 0 <= i <= |reqs| && |offsets| == i
      invariant offset == EndAt(reqs, i)
      invariant forall k :: 0 <= k < i ==> offsets[k] == OffsetOf(reqs, k)
    {
      offset := Align(offset, reqs[i].alignment);
      offsets := offsets + [offset];
      offset := offset + reqs[i].size;
      i := i + 1;
    }
    forall k | 0 <= k < |reqs|
      ensures offsets[k] == Align(PreviousEnd(reqs, offsets, k), reqs[k].alignment)
    {
    }
    PackedIsSound(reqs, offsets);
  }

  /** One texture bound into the heap. */
  datatype Binding = Binding(texture: Texture, offset: nat)

  /** The heap and the placements of its textures. */
  datatype Heap = Heap(capacity: nat, bindings: seq<Binding>)

  /** The offsets at which the bindings place their textures. */
  function BoundOffsets(bindings: seq<Binding>): seq<nat>
  {
    seq(|bindings|, i requires 0 <= i < |bindings| => bindings[i].offset)
  }

  /** Heap creation as the render targets perform it: only when the device
      supports virtual resources, with `reqs[i]` the requirements of
      `HeapTextures[i]`. Each texture is bound once, in order, aligned, inside
      the capacity and apart from the others, and the last one ends exactly
      at the capacity. The last two bindings are of textures that were not
      created virtual. */
  method CreateHeap(isVirtual: bool, reqs: seq<MemoryRequirements>) returns (heap: Option<Heap>)
    requires ValidRequirements(reqs) && |reqs| == |HeapTextures|
    ensures heap.Some? <==> isVirtual
    ensures heap.Some? ==>
      var h := heap.value;
      var offsets := BoundOffsets(h.bindings);
      && |h.bindings| == |HeapTextures|
      && (forall i :: 0 <= i < |h.bindings| ==> h.bindings[i].texture == HeapTextures[i])
      && (forall i :: 0 <= i < |h.bindings| ==> (CreatedVirtual(h.bindings[i].texture) <==> i < 7))
      && AlignedOffsets(reqs, offsets)
      && Disjoint(reqs, offsets)
      && (forall i :: 0 <= i < |reqs| ==> offsets[i] + reqs[i].size <= h.capacity)
      && offsets[8] + reqs[8].size == h.capacity
  {
    if !isVirtual {
      return None;
    }
    var capacity := SizeHeap(reqs);
    var offsets := BindTextures(reqs);
    var bindings := seq(|reqs|, i requires 0 <= i < |reqs| => Binding(HeapTextures[i], offsets[i]));
    HeapTexturesVirtual();
    assert BoundOffsets(bindings) == offsets;
    heap := Some(Heap(capacity, bindings));
  }
}
