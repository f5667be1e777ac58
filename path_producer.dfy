/** Source/GUI/PathProducer.cpp: the analyser keeps a mono window of the most
    recent samples. Every block pulled from the sample FIFO shifts the window
    forward by the block's size and writes the block into the freed tail; a copy
    of the window is then handed to the FFT data generator. The FIFO, the FFT and
    path generation are not part of this model: the pulled blocks are a sequence,
    and the windows handed on are recorded. */
module PathProducer {

  /** The number of samples taken from a block: its size, at most the window length. */
  function BlockSize(incoming: nat, windowLength: nat): (size: nat)
    ensures size <= incoming && size <= windowLength
    ensures size == incoming || size == windowLength
  {
    if incoming <= windowLength then incoming else windowLength
  }

  /** The window after one block: the oldest `size` samples leave at the front and
      the first `size` samples of the block arrive at the back. */
  function Slide(window: seq<real>, block: seq<real>): (r: seq<real>)
    ensures |r| == |window|
    ensures var size := BlockSize(|block|, |window|);
            (forall i :: 0 <= i < |window| - size ==> r[i] == window[i + size])
            && (forall j :: 0 <= j < size ==> r[|window| - size + j] == block[j])
  {
    var size := BlockSize(|block|, |window|);
    window[size..] + block[..size]
  }

  /** The window after a sequence of blocks, taken in order. */
  function SlideAll(window: seq<real>, blocks: seq<seq<real>>): (r: seq<real>)
    ensures |r| == |window|
  {
    if blocks == [] then window
    else Slide(SlideAll(window, blocks[..|blocks| - 1]), blocks[|blocks| - 1])
  }

  /** The windows handed to the FFT data generator, one after each block. */
  function Snapshots(window: seq<real>, blocks: seq<seq<real>>): (r: seq<seq<real>>)
    ensures |r| == |blocks|
  {
    if blocks == [] then []
    else Snapshots(window, blocks[..|blocks| - 1]) + [SlideAll(window, blocks)]
  }

  function Flatten(blocks: seq<seq<real>>): seq<real>
  {
    if blocks == [] then [] else Flatten(blocks[..|blocks| - 1]) + blocks[|blocks| - 1]
  }

  /** The last `n` elements of `s`. */
  function Last(n: nat, s: seq<real>): (r: seq<real>)
    requires n <= |s|
    ensures |r| == n
  {
    s[|s| - n..]
  }

  /** A block that fits drops its own length of samples from the front of the
      window and is appended whole. */
  lemma SlideFittingBlock(window: seq<real>, block: seq<real>)
    requires |block| <= |window|
    ensures Slide(window, block) == window[|block|..] + block
  {
    assert block[..|block|] == block;
  }

  /** Appending up to `n` samples moves the last-`n` view forward by that many. */
  lemma LastAppend(n: nat, x: seq<real>, b: seq<real>)
    requires |b| <= n <= |x|
    ensures Last(n, x + b) == Last(n, x)[|b|..] + b
  {
    var lhs := Last(n, x + b);
    var rhs := Last(n, x)[|b|..] + b;
    assert |lhs| == |rhs|;
    forall k | 0 <= k < n ensures lhs[k] == rhs[k] {
      if k < n - |b| {
        assert lhs[k] == x[|x| - n + |b| + k];
      } else {
        assert lhs[k] == b[k - (n - |b|)];
      }
    }
  }

  /** Blocks are consumed in order: as long as no block is longer than the window,
      the window always holds the last samples of the whole history, that is, of
      the initial window followed by every block in order. */
  lemma {:induction false} SlideAllKeepsLastSamples(window: seq<real>, blocks: seq<seq<real>>)
    requires forall k :: 0 <= k < |blocks| ==> |blocks[k]| <= |window|
    ensures SlideAll(window, blocks) == Last(|window|, window + Flatten(blocks))
  {
    if blocks != [] {
      var prefix := blocks[..|blocks| - 1];
      var b := blocks[|blocks| - 1];
      forall k | 0 <= k < |prefix| ensures |prefix[k]| <= |window| {
        assert prefix[k] == blocks[k];
      }
      SlideAllKeepsLastSamples(window, prefix);
      SlideFittingBlock(SlideAll(window, prefix), b);
      assert window + Flatten(blocks) == (window + Flatten(prefix)) + b;
      LastAppend(|window|, window + Flatten(prefix), b);
    }
  }

  /** A block exactly as long as the window replaces it entirely. */
  lemma SlideFullBlock(window: seq<real>, block: seq<real>)
    requires |block| == |window|
    ensures Slide(window, block) == block
  {
  }

  /** A block longer than the window (which the source asserts against in debug
      builds) leaves its FIRST samples in the window, not its most recent ones. */
  lemma SlideOversizeBlock(window: seq<real>, block: seq<real>)
    requires |block| > |window|
    ensures Slide(window, block) == block[..|window|]
  {
  }

  /** The std::copy of process: every sample moves `size` places towards the front;
      the last `size` places keep what they held. */
  method ShiftTowardsFront(monoBuffer: array<real>, size: nat)
    requires size <= monoBuffer.Length
    modifies monoBuffer
    ensures monoBuffer[..monoBuffer.Length - size] == old(monoBuffer[..])[size..]
    ensures monoBuffer[monoBuffer.Length - size..] == old(monoBuffer[..])[monoBuffer.Length - size..]
  {
    var n := monoBuffer.Length;
    var i := 0;
    while i < n - size
      invariant 0 <= i <= n - size
      invariant forall k :: 0 <= k < i ==> monoBuffer[k] == old(monoBuffer[k + size])
      invariant forall k :: i <= k < n ==> monoBuffer[k] == old(monoBuffer[k])
    {
      monoBuffer[i] := monoBuffer[i + size];
      i := i + 1;
    }
  }

  /** The copy of the block into the tail: the last `size` places receive the
      block's first `size` samples; the places before them keep what they held. */
  method CopyIntoTail(monoBuffer: array<real>, block: seq<real>, size: nat)
    requires size <= monoBuffer.Length && size <= |block|
    modifies monoBuffer
    ensures monoBuffer[..monoBuffer.Length - size] == old(monoBuffer[..monoBuffer.Length - size])
    ensures monoBuffer[monoBuffer.Length - size..] == block[..size]
  {
    var n := monoBuffer.Length;
    var j := 0;
    while j < size
      invariant 0 <= j <= size
      invariant forall k :: 0 <= k < n - size ==> monoBuffer[k] == old(monoBuffer[k])
      invariant forall k :: 0 <= k < j ==> monoBuffer[n - size + k] == block[k]
    {
      monoBuffer[n - size + j] := block[j];
      j := j + 1;
    }
  }

  /** One step of the loop: shift the window forward by `size` in place, then copy
      the block into the last `size` positions. */
  method ShiftAndAppend(monoBuffer: array<real>, block: seq<real>)
    modifies monoBuffer
    ensures monoBuffer[..] == Slide(old(monoBuffer[..]), block)
  {
    var n := monoBuffer.Length;
    var size := BlockSize(|block|, n);
    ShiftTowardsFront(monoBuffer, size);
    CopyIntoTail(monoBuffer, block, size);
    assert monoBuffer[..] == monoBuffer[..n - size] + monoBuffer[n - size..];
  }

  class PathProducer {
    const monoBuffer: array<real>
    /** The windows handed to the FFT data generator, oldest first. */
    var fftInput: seq<seq<real>>

    constructor (windowLength: nat)
      ensures monoBuffer.Length == windowLength && fresh(monoBuffer)
      ensures forall k :: 0 <= k < windowLength ==> monoBuffer[k] == 0.0
      ensures fftInput == []
    {
      monoBuffer := new real[windowLength](_ => 0.0);
      fftInput := [];
    }

    /** The first loop of process: every pulled block, in order, slides the window
        and the window is then handed on. */
    method Process(blocks: seq<seq<real>>)
      modifies monoBuffer, this`fftInput
      ensures monoBuffer[..] == SlideAll(old(monoBuffer[..]), blocks)
      ensures fftInput == old(fftInput) + Snapshots(old(monoBuffer[..]), blocks)
    {
      ghost var window := monoBuffer[..];
      var i := 0;
      while i < |blocks|
        invariant 0 <= i <= |blocks|
        invariant monoBuffer[..] == SlideAll(window, blocks[..i])
        invariant fftInput == old(fftInput) + Snapshots(window, blocks[..i])
      {
        ghost var done := blocks[..i + 1];
        assert done[..i] == blocks[..i] && done[i] == blocks[i];
        ShiftAndAppend(monoBuffer, blocks[i]);
        assert monoBuffer[..] == SlideAll(window, done);
        fftInput := fftInput + [monoBuffer[..]];
        assert fftInput == old(fftInput) + Snapshots(window, done);
        i := i + 1;
      }
      assert blocks[..i] == blocks;
    }
  }
}
