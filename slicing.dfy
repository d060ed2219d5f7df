/**
 * The ping-pong buffer slicer of the `createProcessor` handler (audioworker.js).
 *
 * The host hands over, for the input side and the output side, a list of ports,
 * each a list of per-channel backing sample arrays. For every slot `i` in
 * `[0, bufferCount)` the handler builds an input bus and an output bus whose
 * channels are zero-copy views `subarray(i*buflen, i*buflen + buflen)` of the
 * corresponding backing arrays. Views are modelled as index ranges over an
 * identified backing array; sample values are not modelled.
 */
module Slicing {

  /** One per-channel backing array handed over by the host: its identity and its length in samples. */
  datatype Backing = Backing(id: nat, length: nat)

  /** A zero-copy view onto the samples `[begin, end)` of the backing array with identity `backing`. */
  datatype View = View(backing: nat, begin: nat, end: nat)

  /** Backing arrays of one side: a list of ports, each a list of channels. */
  type Buffers = seq<seq<Backing>>

  /** A bus as the processor sees it: a list of ports, each a list of channel views. */
  type Bus = seq<seq<View>>

  /** One ping-pong slot: the buses handed to `process` for one render block. */
  datatype Slot = Slot(inbus: Bus, outbus: Bus)

  /**
   * The bus descriptor of a `createProcessor` message. A missing `bufferCount`
   * makes the slot loop run zero times, which `bufferCount == 0` stands for.
   */
  datatype BusLayout = BusLayout(bufferCount: nat, input: Buffers, output: Buffers)

  datatype Side = Input | Output

  function BuffersOf(layout: BusLayout, side: Side): Buffers {
    match side
    case Input => layout.input
    case Output => layout.output
  }

  function BusOf(slot: Slot, side: Side): Bus {
    match side
    case Input => slot.inbus
    case Output => slot.outbus
  }

  function Min(a: int, b: int): int { if a <= b then a else b }

  /**
   * `subarray(begin, end)` of a typed array, for non-negative bounds: both
   * bounds are clamped to the array's length and an end before the begin
   * yields an empty view.
   */
  function Subarray(b: Backing, begin: nat, end: nat): (v: View)
    ensures v.backing == b.id
    ensures v.begin <= v.end <= b.length
    ensures v.begin == Min(begin, b.length)
    ensures v.end == if Min(end, b.length) < v.begin then v.begin else Min(end, b.length)
    ensures begin <= end <= b.length ==> v == View(b.id, begin, end)
  {
    var lo := Min(begin, b.length);
    var hi := Min(end, b.length);
    View(b.id, lo, if hi < lo then lo else hi)
  }

  /** `bus` has the port and channel shape of `buffers`, and each channel is the `[begin, end)` view of its backing array. */
  ghost predicate IsBusSlice(bus: Bus, buffers: Buffers, begin: nat, end: nat) {
    && |bus| == |buffers|
    && forall p :: 0 <= p < |bus| ==>
         && |bus[p]| == |buffers[p]|
         && forall c :: 0 <= c < |bus[p]| ==> bus[p][c] == Subarray(buffers[p][c], begin, end)
  }

  /** `slots` is the ping-pong set of `layout` for blocks of `buflen` samples: slot `i` covers `[i*buflen, i*buflen + buflen)` on both sides. */
  ghost predicate IsPingPong(slots: seq<Slot>, layout: BusLayout, buflen: nat) {
    && |slots| == layout.bufferCount
    && forall i :: 0 <= i < |slots| ==>
         && IsBusSlice(slots[i].inbus, layout.input, i * buflen, i * buflen + buflen)
         && IsBusSlice(slots[i].outbus, layout.output, i * buflen, i * buflen + buflen)
  }

  /** The nested `createBus` helper: one view per port and channel, over `[sliceStart, sliceEnd)`. */
  method CreateBus(buffers: Buffers, sliceStart: nat, sliceEnd: nat) returns (ports: Bus)
    ensures IsBusSlice(ports, buffers, sliceStart, sliceEnd)
  {
    ports := [];
    var iport := 0;
    while iport < |buffers|
      invariant 0 <= iport <= |buffers|
      invariant |ports| == iport
      invariant forall p :: 0 <= p < iport ==>
                  && |ports[p]| == |buffers[p]|
                  && forall c :: 0 <= c < |ports[p]| ==> ports[p][c] == Subarray(buffers[p][c], sliceStart, sliceEnd)
    {
      var port := [];
      var channel := 0;
      while channel < |buffers[iport]|
        invariant 0 <= channel <= |buffers[iport]|
        invariant |port| == channel
        invariant forall c :: 0 <= c < channel ==> port[c] == Subarray(buffers[iport][c], sliceStart, sliceEnd)
      {
        port := port + [Subarray(buffers[iport][channel], sliceStart, sliceEnd)];
        channel := channel + 1;
      }
      ports := ports + [port];
      iport := iport + 1;
    }
  }

  /** The slot loop of `createProcessor`: `bufferCount` slots, slot `i` over `[i*buflen, i*buflen + buflen)`. */
  method BuildSlices(layout: BusLayout, buflen: nat) returns (pingpong: seq<Slot>)
    ensures IsPingPong(pingpong, layout, buflen)
  {
    pingpong := [];
    var i := 0;
    while i < layout.bufferCount
      invariant 0 <= i <= layout.bufferCount
      invariant |pingpong| == i
      invariant forall k :: 0 <= k < i ==>
                  && IsBusSlice(pingpong[k].inbus, layout.input, k * buflen, k * buflen + buflen)
                  && IsBusSlice(pingpong[k].outbus, layout.output, k * buflen, k * buflen + buflen)
    {
      var sliceStart := i * buflen;
      var sliceEnd := sliceStart + buflen;
      var inbus := CreateBus(layout.input, sliceStart, sliceEnd);
      var outbus := CreateBus(layout.output, sliceStart, sliceEnd);
      pingpong := pingpong + [Slot(inbus, outbus)];
      i := i + 1;
    }
  }

  lemma MulMonotone(a: nat, b: nat, k: nat)
    requires a <= b
    ensures a * k <= b * k
  {
  }

  /** Block `i` ends no later than block `j` begins, for `i < j`. */
  lemma BlockBefore(i: nat, j: nat, buflen: nat)
    requires i < j
    ensures i * buflen + buflen <= j * buflen
  {
    MulMonotone(i + 1, j, buflen);
    assert (i + 1) * buflen == i * buflen + buflen;
  }

  /** Block `i` of `count` blocks ends within the `count*buflen` samples they span. */
  lemma BlockWithin(i: nat, count: nat, buflen: nat)
    requires i < count
    ensures i * buflen + buflen <= count * buflen
  {
    MulMonotone(i + 1, count, buflen);
    assert (i + 1) * buflen == i * buflen + buflen;
  }

  /** The block `x / buflen` contains `x`, and lies below `count*buflen` when `x` does. */
  lemma BlockOf(x: nat, count: nat, buflen: nat)
    requires x < count * buflen
    ensures buflen > 0
    ensures x / buflen < count
    ensures (x / buflen) * buflen <= x < (x / buflen) * buflen + buflen
  {
    var i, r := x / buflen, x % buflen;
    assert x == i * buflen + r && 0 <= r < buflen;
    if count <= i {
      MulMonotone(count, i, buflen);
    }
  }

  /** Every slot view of a ping-pong set, on either side, is the clamped `[i*buflen, i*buflen + buflen)` view of its backing array. */
  lemma SlotView(slots: seq<Slot>, layout: BusLayout, buflen: nat, side: Side, i: nat, p: nat, c: nat)
    requires IsPingPong(slots, layout, buflen)
    requires i < |slots| && p < |BuffersOf(layout, side)| && c < |BuffersOf(layout, side)[p]|
    ensures p < |BusOf(slots[i], side)| && c < |BusOf(slots[i], side)[p]|
    ensures BusOf(slots[i], side)[p][c] == Subarray(BuffersOf(layout, side)[p][c], i * buflen, i * buflen + buflen)
  {
  }

  /**
   * When the backing array holds at least `bufferCount*buflen` samples, slot `i`'s
   * view is exactly `[i*buflen, i*buflen + buflen)`: it has length `buflen` and
   * ends within the `bufferCount*buflen` samples the ping-pong set spans.
   */
  lemma SlotViewExact(slots: seq<Slot>, layout: BusLayout, buflen: nat, side: Side, i: nat, p: nat, c: nat)
    requires IsPingPong(slots, layout, buflen)
    requires i < |slots| && p < |BuffersOf(layout, side)| && c < |BuffersOf(layout, side)[p]|
    requires layout.bufferCount * buflen <= BuffersOf(layout, side)[p][c].length
    ensures p < |BusOf(slots[i], side)| && c < |BusOf(slots[i], side)[p]|
    ensures BusOf(slots[i], side)[p][c] == View(BuffersOf(layout, side)[p][c].id, i * buflen, i * buflen + buflen)
    ensures BusOf(slots[i], side)[p][c].end - BusOf(slots[i], side)[p][c].begin == buflen
    ensures BusOf(slots[i], side)[p][c].end <= layout.bufferCount * buflen
  {
    SlotView(slots, layout, buflen, side, i, p, c);
    var b := BuffersOf(layout, side)[p][c];
    var begin, end := i * buflen, i * buflen + buflen;
    BlockWithin(i, layout.bufferCount, buflen);
    assert begin <= end <= b.length;
    assert Subarray(b, begin, end) == View(b.id, begin, end);
  }

  /**
   * Distinct slots never overlap: on every port and channel, slot `i`'s view
   * ends where slot `j`'s begins or earlier when `i < j`, whatever the length
   * of the backing array (clamping only shortens views).
   */
  lemma SlotsDisjoint(slots: seq<Slot>, layout: BusLayout, buflen: nat, side: Side, i: nat, j: nat, p: nat, c: nat)
    requires IsPingPong(slots, layout, buflen)
    requires i < j < |slots| && p < |BuffersOf(layout, side)| && c < |BuffersOf(layout, side)[p]|
    ensures p < |BusOf(slots[i], side)| && c < |BusOf(slots[i], side)[p]|
    ensures p < |BusOf(slots[j], side)| && c < |BusOf(slots[j], side)[p]|
    ensures BusOf(slots[i], side)[p][c].backing == BusOf(slots[j], side)[p][c].backing
    ensures BusOf(slots[i], side)[p][c].end <= BusOf(slots[j], side)[p][c].begin
  {
    SlotView(slots, layout, buflen, side, i, p, c);
    SlotView(slots, layout, buflen, side, j, p, c);
    var b := BuffersOf(layout, side)[p][c];
    var vi, vj := Subarray(b, i * buflen, i * buflen + buflen), Subarray(b, j * buflen, j * buflen + buflen);
    BlockBefore(i, j, buflen);
    assert vi.end == Min(i * buflen + buflen, b.length);
    assert vj.begin == Min(j * buflen, b.length);
  }

  /**
   * No gap: every sample index below `bufferCount*buflen` of a long enough
   * backing array lies in the view of slot `x / buflen`.
   */
  lemma SlotsCover(slots: seq<Slot>, layout: BusLayout, buflen: nat, side: Side, p: nat, c: nat, x: nat)
    requires IsPingPong(slots, layout, buflen)
    requires p < |BuffersOf(layout, side)| && c < |BuffersOf(layout, side)[p]|
    requires layout.bufferCount * buflen <= BuffersOf(layout, side)[p][c].length
    requires x < layout.bufferCount * buflen
    ensures buflen > 0 && x / buflen < |slots|
    ensures p < |BusOf(slots[x / buflen], side)| && c < |BusOf(slots[x / buflen], side)[p]|
    ensures BusOf(slots[x / buflen], side)[p][c].begin <= x < BusOf(slots[x / buflen], side)[p][c].end
  {
    BlockOf(x, layout.bufferCount, buflen);
    SlotViewExact(slots, layout, buflen, side, x / buflen, p, c);
  }

  /** Two 128-sample slots over one 256-sample input channel: slot 0 is `[0, 128)`, slot 1 is `[128, 256)`. */
  lemma TwoSlots(slots: seq<Slot>)
    requires IsPingPong(slots, BusLayout(2, [[Backing(1, 256)]], []), 128)
    ensures slots == [Slot([[View(1, 0, 128)]], []), Slot([[View(1, 128, 256)]], [])]
  {
    assert slots[0].inbus[0][0] == Subarray(Backing(1, 256), 0 * 128, 0 * 128 + 128) == View(1, 0, 128);
    assert slots[1].inbus[0][0] == Subarray(Backing(1, 256), 1 * 128, 1 * 128 + 128) == View(1, 128, 256);
    assert slots[0].inbus[0] == [View(1, 0, 128)];
    assert slots[1].inbus[0] == [View(1, 128, 256)];
    assert slots[0] == Slot([[View(1, 0, 128)]], []);
    assert slots[1] == Slot([[View(1, 128, 256)]], []);
  }
}
