/**
 * The example processing unit (example/audioprocessor.js): a tick counter that
 * reports liveness every 1000 `process` calls, a `resume` flag that a "stop"
 * message on the port latches to false, and a `process` that copies input
 * channel 0 into output channels 0 and 1 in place.
 */
module AudioProcessor {
  import opened Wrappers
  import AudioWorker

  /** A 32-bit float sample, kept as its bit pattern: the processor only copies samples. */
  type Sample = bv32

  const TicksPerNotice: int := 1000
  const AliveText := "audioprocessor is alive."
  const ByeText := "Bye Bye! from audioprocessor."

  /** Data of a message received on the port; only a string can be strictly equal to "stop". */
  datatype PortData = Text(s: string) | NonString

  /** One tick: the counter after the increment-and-reset, and whether the liveness notice is posted. */
  function Tick(ticks: int): (r: (int, bool))
    ensures r.1 <==> ticks + 1 == TicksPerNotice
    ensures r.1 ==> r.0 == 0
    ensures 0 <= ticks < TicksPerNotice ==> 0 <= r.0 < TicksPerNotice
  {
    var next := ticks + 1;
    if next == TicksPerNotice then (0, true) else (next, false)
  }

  /** The counter after `n` `process` calls starting from `ticks`. */
  function TicksAfter(ticks: int, n: nat): int
  {
    if n == 0 then ticks else Tick(TicksAfter(ticks, n - 1)).0
  }

  /** How many liveness notices `n` `process` calls starting from `ticks` post. */
  function AlivesAfter(ticks: int, n: nat): nat
  {
    if n == 0 then 0
    else AlivesAfter(ticks, n - 1) + if Tick(TicksAfter(ticks, n - 1)).1 then 1 else 0
  }

  /**
   * From a counter in `[0, 1000)`, `n` calls leave the counter at
   * `(ticks + n) % 1000` and post `(ticks + n) / 1000` liveness notices.
   */
  lemma {:induction false} TickCycle(ticks: int, n: nat)
    requires 0 <= ticks < TicksPerNotice
    ensures TicksAfter(ticks, n) == (ticks + n) % TicksPerNotice
    ensures AlivesAfter(ticks, n) == (ticks + n) / TicksPerNotice
  {
    if n > 0 {
      TickCycle(ticks, n - 1);
      var t := ticks + n - 1;
      assert t == TicksPerNotice * (t / TicksPerNotice) + t % TicksPerNotice;
      if t % TicksPerNotice + 1 == TicksPerNotice {
        assert t + 1 == TicksPerNotice * (t / TicksPerNotice + 1);
      } else {
        assert t + 1 == TicksPerNotice * (t / TicksPerNotice) + (t % TicksPerNotice + 1);
      }
    }
  }

  /** Exactly one liveness notice in any 1000 consecutive calls, wherever the counter stands. */
  lemma AliveOncePerCycle(ticks: int)
    requires 0 <= ticks < TicksPerNotice
    ensures AlivesAfter(ticks, 1000) == 1
    ensures TicksAfter(ticks, 1000) == ticks
  {
    TickCycle(ticks, 1000);
  }

  /** How often `x` occurs in `s`. */
  function Count(s: seq<string>, x: string): nat
  {
    if s == [] then 0 else Count(s[..|s| - 1], x) + if s[|s| - 1] == x then 1 else 0
  }

  /** Counting distributes over concatenation. */
  lemma {:induction false} CountAppend(s: seq<string>, t: seq<string>, x: string)
    ensures Count(s + t, x) == Count(s, x) + Count(t, x)
    decreases |t|
  {
    if t == [] {
      assert s + t == s;
    } else {
      assert (s + t)[..|s + t| - 1] == s + t[..|t| - 1];
      CountAppend(s, t[..|t| - 1], x);
    }
  }

  /**
   * `TypedArray.prototype.set(src, 0)`: the first `|src|` samples of `dst`
   * become `src`, the rest stay.
   */
  method SetAtStart(dst: array<Sample>, src: seq<Sample>)
    requires |src| <= dst.Length
    modifies dst
    ensures dst[..] == src + old(dst[..])[|src|..]
  {
    var k := 0;
    while k < |src|
      invariant 0 <= k <= |src|
      invariant dst[..k] == src[..k]
      invariant dst[k..] == old(dst[..])[k..]
    {
      dst[k] := src[k];
      assert dst[..k + 1] == src[..k + 1];
      k := k + 1;
    }
    assert dst[..] == dst[..k] + dst[k..];
  }

  class Processor {
    /** The port the base constructor took from `options._port`. */
    const port: Option<AudioWorker.PortId>
    var ticks: int
    var resume: bool
    /** Messages posted on the port, oldest first. */
    var posted: seq<string>
    /** `process` calls so far, and those made after `resume` fell. */
    ghost var calls: nat
    ghost var stoppedCalls: nat

    ghost predicate Valid()
      reads this
    {
      && ticks == TicksAfter(0, calls)
      && 0 <= ticks < TicksPerNotice
      && Count(posted, AliveText) == AlivesAfter(0, calls)
      && Count(posted, ByeText) == stoppedCalls
      && (resume ==> stoppedCalls == 0)
    }

    /**
     * `new Processor(options)`: the counter starts at 0, `resume` at true. The
     * constructor installs a handler on the injected port at once, so a
     * construction without `_port` throws and is not modelled.
     */
    constructor (options: AudioWorker.ProcessorOptions)
      requires options.port.Some?
      ensures Valid()
      ensures port == options.port
      ensures ticks == 0 && resume && posted == [] && calls == 0
    {
      port := options.port;
      ticks := 0;
      resume := true;
      posted := [];
      calls := 0;
      stoppedCalls := 0;
    }

    /** The port's `onmessage`: the string "stop" clears `resume`; nothing sets it again. */
    method OnMessage(data: PortData)
      requires Valid()
      modifies this`resume
      ensures Valid()
      ensures resume == (old(resume) && data != Text("stop"))
    {
      if data == Text("stop") {
        resume := false;
      }
    }

    /**
     * `process(inputs, outputs)`: one tick, the copy of input 0 channel 0 into
     * output 0 channels 0 and 1, a farewell while stopped, and `resume` returned.
     */
    method Process(inputs: seq<seq<array<Sample>>>, outputs: seq<seq<array<Sample>>>) returns (keep: bool)
      requires Valid()
      requires |inputs| > 0 && |inputs[0]| > 0 && |outputs| > 0 && |outputs[0]| > 1
      requires inputs[0][0].Length <= outputs[0][0].Length && inputs[0][0].Length <= outputs[0][1].Length
      modifies this`ticks, this`posted, this`calls, this`stoppedCalls, outputs[0][0], outputs[0][1]
      ensures Valid()
      ensures keep == resume && resume == old(resume)
      ensures calls == old(calls) + 1
      ensures ticks == Tick(old(ticks)).0
      ensures posted == old(posted) + (if Tick(old(ticks)).1 then [AliveText] else []) + (if resume then [] else [ByeText])
      ensures outputs[0][0][..] == old(inputs[0][0][..]) + old(outputs[0][0][..])[inputs[0][0].Length..]
      ensures outputs[0][1][..] == old(inputs[0][0][..]) + old(outputs[0][1][..])[inputs[0][0].Length..]
    {
      var inputChannel1 := inputs[0][0];
      var outputChannel1, outputChannel2 := outputs[0][0], outputs[0][1];
      Advance();
      CopyToBoth(inputChannel1, outputChannel1, outputChannel2);
      if !resume {
        Farewell();
      }
      keep := resume;
    }

    /** The counter step of `process`: increment, and at 1000 post the liveness notice and reset. */
    method Advance()
      requires Valid()
      modifies this`ticks, this`posted, this`calls
      ensures Valid()
      ensures calls == old(calls) + 1
      ensures ticks == Tick(old(ticks)).0
      ensures posted == old(posted) + if Tick(old(ticks)).1 then [AliveText] else []
    {
      ticks := ticks + 1;
      if ticks == TicksPerNotice {
        CountAppend(posted, [AliveText], AliveText);
        CountAppend(posted, [AliveText], ByeText);
        posted := posted + [AliveText];
        ticks := 0;
      }
      calls := calls + 1;
    }

    /** The farewell of a call made while stopped. */
    method Farewell()
      requires Valid() && !resume
      modifies this`posted, this`stoppedCalls
      ensures Valid()
      ensures posted == old(posted) + [ByeText]
    {
      CountAppend(posted, [ByeText], AliveText);
      CountAppend(posted, [ByeText], ByeText);
      posted := posted + [ByeText];
      stoppedCalls := stoppedCalls + 1;
    }
  }

  /** The two `set` calls of `process`: the input's samples head both outputs, whatever the arrays alias. */
  method CopyToBoth(input: array<Sample>, out1: array<Sample>, out2: array<Sample>)
    requires input.Length <= out1.Length && input.Length <= out2.Length
    modifies out1, out2
    ensures out1[..] == old(input[..]) + old(out1[..])[input.Length..]
    ensures out2[..] == old(input[..]) + old(out2[..])[input.Length..]
  {
    var src := input[..];
    SetAtStart(out1, src);
    ghost var mid := out1[..];
    SetAtStart(out2, src);
    if out1 == out2 {
      assert mid[|src|..] == old(out1[..])[|src|..];
    }
  }
}
