// UBOVector: a CPU-side vector mirrored into a fixed-size OpenGL buffer laid
// out as an element count in the first `alignment` bytes followed by at most
// `maxCount` elements of `elementSize` bytes each.
//
// The buffer object's storage and the sub-data writes made to it are ghost
// state: they stand for what OpenGL holds, not for CPU memory.

module UboVector {
  import opened MathUtil

  /** GL_DYNAMIC_STORAGE_BIT: the buffer's contents may be updated with glNamedBufferSubData. */
  const DynamicStorageBit: bv32 := 0x0100

  /** sizeof(unsigned int): the size of the count header. */
  const HeaderSize: nat := 4

  /** One glNamedBufferSubData call. */
  datatype BufferWrite<T> =
    | HeaderWrite(count: nat)                       // at byte 0, sizeof(unsigned int) bytes
    | ElementsWrite(offset: nat, elements: seq<T>)  // elementSize bytes per element

  function WriteOffset<T>(w: BufferWrite<T>): nat {
    match w
    case HeaderWrite(_) => 0
    case ElementsWrite(offset, _) => offset
  }

  function WriteSize<T>(w: BufferWrite<T>, elementSize: nat): nat {
    match w
    case HeaderWrite(_) => HeaderSize
    case ElementsWrite(_, elements) => elementSize * |elements|
  }

  /** The number of elements update_opengl_data copies: min(count, maxCount). */
  function FlushedCount(count: nat, maxCount: nat): nat {
    if maxCount < count then maxCount else count
  }

  /**
   * The writes of one update_opengl_data: the count, truncated to unsigned
   * int and not clamped, then, unless either count is 0, the first
   * min(count, maxCount) elements right after the header.
   */
  function FlushWrites<T>(data: seq<T>, maxCount: nat, alignment: nat): seq<BufferWrite<T>> {
    var count := |data|;
    [HeaderWrite(count % 0x1_0000_0000)]
    + if maxCount > 0 && count > 0 then [ElementsWrite(alignment, data[..FlushedCount(count, maxCount)])] else []
  }

  /** What a reader of the buffer sees: the elements the header announces, as far as the capacity allows. */
  function ReadBack<T>(header: nat, elements: seq<T>, maxCount: nat): seq<T>
    requires FlushedCount(header, maxCount) <= |elements|
  {
    elements[..FlushedCount(header, maxCount)]
  }

  lemma MulMonotoneNat(a: nat, b: nat, c: nat)
    requires b <= c
    ensures a * b <= a * c
  {
  }

  /**
   * Every write of a flush lies inside storage of alignment + elementSize *
   * maxCount bytes when the header fits before the first element.
   */
  lemma FlushWithinStorage<T>(data: seq<T>, maxCount: nat, alignment: nat, elementSize: nat)
    requires alignment >= HeaderSize
    ensures forall w :: w in FlushWrites(data, maxCount, alignment) ==>
      WriteOffset(w) + WriteSize(w, elementSize) <= alignment + elementSize * maxCount
  {
    MulMonotoneNat(elementSize, FlushedCount(|data|, maxCount), maxCount);
  }

  /**
   * A flush always writes the full count into the header and copies exactly
   * the first min(count, maxCount) elements, and nothing else when the count
   * or the capacity is 0.
   */
  lemma FlushContents<T>(data: seq<T>, maxCount: nat, alignment: nat)
    ensures var ws := FlushWrites(data, maxCount, alignment);
      && ws[0] == HeaderWrite(|data| % 0x1_0000_0000)
      && (maxCount == 0 || |data| == 0 <==> |ws| == 1)
      && (|ws| == 2 ==> ws[1] == ElementsWrite(alignment, data[..FlushedCount(|data|, maxCount)]))
  {
  }

  /**
   * Reading back a flush returns the CPU data when it fits the capacity and
   * its first maxCount elements otherwise; past the capacity the header
   * announces more elements than were written.
   */
  lemma FlushReadBack<T>(data: seq<T>, maxCount: nat)
    requires |data| < 0x1_0000_0000
    ensures var written := data[..FlushedCount(|data|, maxCount)];
      && ReadBack(|data| % 0x1_0000_0000, written, maxCount) == (if |data| <= maxCount then data else data[..maxCount])
      && (|data| > maxCount ==> |data| % 0x1_0000_0000 > |written|)
  {
  }

  /** UBOVector<T, alignment>. */
  class UBOVector<T> {
    const alignment: nat
    const elementSize: nat
    /** The OpenGLObject part: buffer name, binding target and the cpu_only flag. */
    var handle: nat
    var target: nat
    var cpuOnly: bool
    var maxCount: nat
    var data: seq<T>
    var flags: bv32
    /** The byte size of the buffer object's storage. */
    ghost var storageBytes: nat
    /** Every sub-data write made to the buffer object, oldest first. */
    ghost var writes: seq<BufferWrite<T>>

    /**
     * The element size is a multiple of the alignment, the header fits in
     * front of the first element, the storage matches the capacity, and no
     * write has gone past the storage.
     */
    ghost predicate Valid()
      reads this
    {
      && alignment >= HeaderSize
      && elementSize % alignment == 0
      && storageBytes == alignment + elementSize * maxCount
      && forall w :: w in writes ==> WriteOffset(w) + WriteSize(w, elementSize) <= storageBytes
    }

    /** Creates the buffer object `handle` with room for the header and maxCount elements. */
    constructor (maxCount: nat, flags: bv32, target: nat, handle: nat, alignment: nat, elementSize: nat)
      requires alignment >= HeaderSize && elementSize % alignment == 0
      ensures Valid()
      ensures this.maxCount == maxCount && this.flags == flags && this.target == target && this.handle == handle
      ensures this.alignment == alignment && this.elementSize == elementSize && !cpuOnly
      ensures data == [] && writes == []
      ensures storageBytes == alignment + elementSize * maxCount
    {
      this.alignment := alignment;
      this.elementSize := elementSize;
      this.handle := handle;
      this.target := target;
      cpuOnly := false;
      this.maxCount := maxCount;
      data := [];
      this.flags := flags;
      storageBytes := alignment + elementSize * maxCount;
      writes := [];
    }

    /** Copies the count and the first min(count, maxCount) elements into the buffer object. */
    method UpdateOpenglData()
      requires Valid()
      requires flags & DynamicStorageBit == DynamicStorageBit
      modifies this
      ensures Valid()
      ensures writes == old(writes) + FlushWrites(data, maxCount, alignment)
      ensures data == old(data) && maxCount == old(maxCount) && handle == old(handle) && target == old(target)
      ensures cpuOnly == old(cpuOnly) && flags == old(flags) && storageBytes == old(storageBytes)
    {
      var count := |data|;
      writes := writes + [HeaderWrite(count % 0x1_0000_0000)];
      if maxCount > 0 && count > 0 {
        writes := writes + [ElementsWrite(alignment, data[..FlushedCount(count, maxCount)])];
      }
      FlushWithinStorage(data, maxCount, alignment, elementSize);
    }

    /** get_data(), read only. */
    function GetData(): (d: seq<T>)
      reads this
      ensures |d| == |data|
    {
      data
    }

    /** get_data().clear(): the CPU side only. */
    method DataClear()
      modifies this
      ensures data == [] && writes == old(writes) && maxCount == old(maxCount) && flags == old(flags)
      ensures handle == old(handle) && target == old(target) && cpuOnly == old(cpuOnly)
      ensures storageBytes == old(storageBytes)
    {
      data := [];
    }

    /** get_data().push_back(x): the CPU side only. */
    method DataPushBack(x: T)
      modifies this
      ensures data == old(data) + [x] && writes == old(writes) && maxCount == old(maxCount) && flags == old(flags)
      ensures handle == old(handle) && target == old(target) && cpuOnly == old(cpuOnly)
      ensures storageBytes == old(storageBytes)
    {
      data := data + [x];
    }

    /**
     * Move assignment: takes over the other vector's buffer object, target,
     * cpu_only flag, capacity, data and flags. The moved-from data is left
     * unspecified; the buffer object this vector held before is not released.
     */
    method MoveAssign(other: UBOVector<T>)
      requires other != this && other.Valid()
      requires other.alignment == alignment && other.elementSize == elementSize
      modifies this, other
      ensures Valid()
      ensures handle == old(other.handle) && target == old(other.target) && cpuOnly == old(other.cpuOnly)
      ensures maxCount == old(other.maxCount) && data == old(other.data) && flags == old(other.flags)
      ensures storageBytes == old(other.storageBytes) && writes == old(other.writes)
      ensures other.handle == old(other.handle) && other.target == old(other.target)
      ensures other.cpuOnly == old(other.cpuOnly) && other.maxCount == old(other.maxCount)
      ensures other.flags == old(other.flags) && other.storageBytes == old(other.storageBytes)
      ensures other.writes == old(other.writes)
    {
      handle := other.handle;
      target := other.target;
      cpuOnly := other.cpuOnly;
      maxCount := other.maxCount;
      data := other.data;
      other.data := [];
      flags := other.flags;
      storageBytes := other.storageBytes;
      writes := other.writes;
    }
  }
}
