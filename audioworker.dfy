/**
 * The worker-side runtime of the AudioWorklet polyfill (audioworker.js): the
 * processor registry (`registerOnWorker`), the construction protocol
 * (`constructOnWorker`), the append-only processor table `AWGS.processors`
 * and the `onmessage` handlers `import`, `createProcessor` and `process`.
 *
 * Outbound `postMessage` calls are appended to an outbox; inbound messages are
 * method calls. User processor code is abstract: a processor class is known by
 * its name, its static `parameterDescriptors` and whether it extends the
 * AudioWorkletProcessor base; a call of its `process` is recorded, with the
 * buses it received, in an invocation log.
 */
module AudioWorker {
  import opened Wrappers
  import opened Slicing

  /** The host's identifier of the audio node a processor belongs to. */
  type NodeId = int

  /** A transferred MessagePort (`e.ports[0]`). */
  type PortId = nat

  /** One entry of a processor class's static `parameterDescriptors` list. */
  datatype ParamSpec = ParamSpec(name: string)

  /** A processor class handed to `registerProcessor`. */
  datatype Ctor = Ctor(className: string, parameterDescriptors: seq<ParamSpec>, extendsBase: bool)

  /**
   * The `options` object of a construction. `samplesPerBuffer` is read by the
   * `createProcessor` handler; `port` is the `_port` field that
   * `constructOnWorker` injects.
   */
  datatype ProcessorOptions = ProcessorOptions(samplesPerBuffer: Option<nat>, port: Option<PortId>)

  /** The object literal `{}` that stands in for missing options. */
  const EmptyOptions := ProcessorOptions(None, None)

  /**
   * An object built by `new ctor(options)`. `isProcessor` is the outcome of the
   * `instanceof AudioWorkletProcessor` test; `port` is what the base class's
   * constructor copied from `options._port`.
   */
  datatype Instance = Instance(className: string, port: Option<PortId>, options: ProcessorOptions, isProcessor: bool)

  datatype LifeState = Running | Error

  /** Messages the worker posts to the host. */
  datatype Msg =
    | Load(url: string)
    | Register(name: string, descriptor: seq<ParamSpec>)
    | State(node: NodeId, processor: Option<nat>, state: LifeState)

  /** The errors a construction throws. `NodeIdUnbound` is the ReferenceError the code as written raises. */
  datatype ConstructError = NotSupported | InvalidState | NodeIdUnbound

  /** What one construction produces: the processor or the thrown error, and the messages it posted. */
  datatype Construction = Construction(result: Result<Instance, ConstructError>, notices: seq<Msg>)

  /** An entry of `AWGS.processors`: the processor, tagged with its node and id, and its ping-pong slots. */
  datatype Entry = Entry(awp: Instance, node: NodeId, id: nat, slices: seq<Slot>)

  /** One call of a processor's `process`, with the buses of the slot it was given. */
  datatype Invocation = Invocation(processor: nat, index: nat, inbus: Bus, outbus: Bus)

  /** The `args` of a `createProcessor` message. */
  datatype CreateArgs = CreateArgs(name: string, node: NodeId, options: ProcessorOptions, bus: BusLayout, sampleRate: int)

  /** A `registerProcessor(name, ctor)` call made by a script. */
  datatype Registration = Registration(name: string, ctor: Ctor)

  /** Messages the host posts to the worker. Any other `type` matches no case of the switch. */
  datatype Inbound =
    | ImportMsg(url: string, script: seq<Registration>)
    | CreateProcessorMsg(args: CreateArgs, port: Option<PortId>)
    | ProcessMsg(processor: int, index: int)
    | OtherMsg(kind: string)

  /** How a `process` message ended: no such processor, dispatched, or a TypeError for a missing slot. */
  datatype Dispatch = Dropped | Dispatched | SlotMissing

  /** How a message handler ended: normally, or by throwing. */
  datatype Handled = Done | ConstructThrew(error: ConstructError) | SlotThrew

  // ---------------------------------------------------------------------
  // Construction

  /**
   * `new ctor(options)`: a subclass of the AudioWorkletProcessor base runs the
   * base constructor, which copies `options._port` into `port`; any other class
   * builds an object that fails the `instanceof` test.
   */
  function New(ctor: Ctor, options: ProcessorOptions): (inst: Instance)
    ensures inst.isProcessor <==> ctor.extendsBase
    ensures inst.isProcessor ==> inst.port == options.port
    ensures inst.className == ctor.className && inst.options == options
  {
    Instance(ctor.className, if ctor.extendsBase then options.port else None, options, ctor.extendsBase)
  }

  /**
   * `constructOnWorker(name, port, options)` with the node id threaded in: an
   * unregistered name posts an error notice and throws NotSupported; a class
   * whose instance fails the capability test posts an error notice and throws
   * InvalidState; otherwise the instance is returned, carrying the given port.
   */
  function ConstructOutcome(ctors: map<string, Ctor>, name: string, port: Option<PortId>,
                            options: Option<ProcessorOptions>, node: NodeId): (c: Construction)
    ensures c.result.Success? <==> name in ctors && ctors[name].extendsBase
    ensures c.result.Success? ==> c.notices == []
    ensures c.result.Success? ==> c.result.value.port == port && c.result.value.isProcessor
    ensures c.result.Success? ==> c.result.value.className == ctors[name].className
    ensures c.result.Success? ==> c.result.value.options == options.GetOr(EmptyOptions).(port := port)
    ensures c.result.Failure? ==> c.notices == [State(node, None, Error)]
    ensures c.result.Failure? ==> c.result.error == if name in ctors then InvalidState else NotSupported
  {
    if name in ctors then
      var opts := options.GetOr(EmptyOptions).(port := port);
      var processor := New(ctors[name], opts);
      if !processor.isProcessor then
        Construction(Failure(InvalidState), [State(node, None, Error)])
      else
        Construction(Success(processor), [])
    else
      Construction(Failure(NotSupported), [State(node, None, Error)])
  }

  /**
   * `constructOnWorker` as written: both error paths build their notice from
   * `nodeID`, an identifier bound nowhere, so they throw a ReferenceError
   * before anything is posted.
   */
  function ConstructAsWritten(ctors: map<string, Ctor>, name: string, port: Option<PortId>,
                              options: Option<ProcessorOptions>): (c: Construction)
    ensures c.notices == []
    ensures c.result.Success? <==> name in ctors && ctors[name].extendsBase
    ensures c.result.Failure? ==> c.result.error == NodeIdUnbound
  {
    if name in ctors then
      var opts := options.GetOr(EmptyOptions).(port := port);
      var processor := New(ctors[name], opts);
      if !processor.isProcessor then Construction(Failure(NodeIdUnbound), [])
      else Construction(Success(processor), [])
    else
      Construction(Failure(NodeIdUnbound), [])
  }

  /**
   * The two differ exactly on failure: as written, the host never hears of a
   * failed construction and the caller sees a ReferenceError instead of
   * NotSupported or InvalidState.
   */
  lemma UnboundNodeIdSilencesError(ctors: map<string, Ctor>, name: string, port: Option<PortId>,
                                   options: Option<ProcessorOptions>, node: NodeId)
    ensures ConstructAsWritten(ctors, name, port, options).result.Success?
        <==> ConstructOutcome(ctors, name, port, options, node).result.Success?
    ensures ConstructOutcome(ctors, name, port, options, node).result.Success? ==>
              ConstructAsWritten(ctors, name, port, options) == ConstructOutcome(ctors, name, port, options, node)
    ensures ConstructOutcome(ctors, name, port, options, node).result.Failure? ==>
              && ConstructAsWritten(ctors, name, port, options).notices == []
              && ConstructOutcome(ctors, name, port, options, node).notices == [State(node, None, Error)]
              && ConstructAsWritten(ctors, name, port, options).result.error
                 != ConstructOutcome(ctors, name, port, options, node).result.error
  {
  }

  // ---------------------------------------------------------------------
  // What the outbox records

  /** The `(name, descriptor)` payloads of the register notices in `msgs`, in order. */
  function Registrations(msgs: seq<Msg>): seq<(string, seq<ParamSpec>)>
  {
    if msgs == [] then []
    else
      var last := msgs[|msgs| - 1];
      Registrations(msgs[..|msgs| - 1]) + if last.Register? then [(last.name, last.descriptor)] else []
  }

  /** The `(node, processor)` payloads of the `running` notices in `msgs`, in order. */
  function Launches(msgs: seq<Msg>): seq<(NodeId, Option<nat>)>
  {
    if msgs == [] then []
    else
      var last := msgs[|msgs| - 1];
      Launches(msgs[..|msgs| - 1]) + if last.State? && last.state == Running then [(last.node, last.processor)] else []
  }

  lemma RegistrationsAppend(msgs: seq<Msg>, m: Msg)
    ensures Registrations(msgs + [m]) == Registrations(msgs) + if m.Register? then [(m.name, m.descriptor)] else []
  {
    assert (msgs + [m])[..|msgs|] == msgs;
  }

  lemma LaunchesAppend(msgs: seq<Msg>, m: Msg)
    ensures Launches(msgs + [m]) == Launches(msgs) + if m.State? && m.state == Running then [(m.node, m.processor)] else []
  {
    assert (msgs + [m])[..|msgs|] == msgs;
  }

  /** The names announced by register notices in `msgs`. */
  function Announced(msgs: seq<Msg>): set<string> {
    var r := Registrations(msgs);
    set k | 0 <= k < |r| :: r[k].0
  }

  /** Every registered name was announced exactly once, with the descriptor stored for it. */
  ghost predicate RegistryAnnounced(ctors: map<string, Ctor>, msgs: seq<Msg>) {
    var r := Registrations(msgs);
    && (forall k :: 0 <= k < |r| ==> r[k].0 in ctors && r[k].1 == ctors[r[k].0].parameterDescriptors)
    && (forall k, l :: 0 <= k < l < |r| ==> r[k].0 != r[l].0)
    && Announced(msgs) == ctors.Keys
  }

  /** Ids are dense: entry `k` of the table carries id `k`. */
  ghost predicate DenseIds(processors: seq<Entry>) {
    forall k :: 0 <= k < |processors| ==> processors[k].id == k
  }

  /** The `k`-th `running` notice announced entry `k`, with its node. */
  ghost predicate LaunchesMatch(processors: seq<Entry>, msgs: seq<Msg>) {
    var l := Launches(msgs);
    && |l| == |processors|
    && forall k :: 0 <= k < |l| ==> l[k] == (processors[k].node, Some(k))
  }

  /** Every recorded `process` call went to an existing entry with the buses of one of its slots. */
  ghost predicate InvocationsMatch(processors: seq<Entry>, invocations: seq<Invocation>) {
    forall k :: 0 <= k < |invocations| ==>
      var inv := invocations[k];
      && inv.processor < |processors|
      && inv.index < |processors[inv.processor].slices|
      && inv.inbus == processors[inv.processor].slices[inv.index].inbus
      && inv.outbus == processors[inv.processor].slices[inv.index].outbus
  }

  lemma {:induction false} RegistryAnnouncedExtend(ctors: map<string, Ctor>, msgs: seq<Msg>, name: string, ctor: Ctor)
    requires RegistryAnnounced(ctors, msgs) && name !in ctors
    ensures RegistryAnnounced(ctors[name := ctor], msgs + [Register(name, ctor.parameterDescriptors)])
  {
    var m := Register(name, ctor.parameterDescriptors);
    RegistrationsAppend(msgs, m);
    var r, r' := Registrations(msgs), Registrations(msgs + [m]);
    assert r' == r + [(name, ctor.parameterDescriptors)];
    var m' := msgs + [m];
    var ctors' := ctors[name := ctor];
    forall k | 0 <= k < |r'|
      ensures r'[k].0 in ctors' && r'[k].1 == ctors'[r'[k].0].parameterDescriptors
    {
      if k < |r| { assert r'[k] == r[k]; }
    }
    forall k, l | 0 <= k < l < |r'|
      ensures r'[k].0 != r'[l].0
    {
      assert r'[k] == r[k];
      if l == |r| {
        assert r[k].0 in Announced(msgs);
      } else {
        assert r'[l] == r[l];
      }
    }
    assert Announced(m') == Announced(msgs) + {name} by {
      forall n | n in Announced(m')
        ensures n in Announced(msgs) + {name}
      {
        var k :| 0 <= k < |r'| && r'[k].0 == n;
        if k < |r| { assert r'[k] == r[k]; }
      }
      forall n | n in Announced(msgs) + {name}
        ensures n in Announced(m')
      {
        if n == name {
          assert r'[|r|].0 == name;
        } else {
          var k :| 0 <= k < |r| && r[k].0 == n;
          assert r'[k] == r[k];
        }
      }
    }
  }

  /** Appending entry `e` with the next id and announcing it keeps the ids dense and the launches in step. */
  lemma LaunchExtend(processors: seq<Entry>, msgs: seq<Msg>, e: Entry)
    requires DenseIds(processors) && LaunchesMatch(processors, msgs) && e.id == |processors|
    ensures DenseIds(processors + [e])
    ensures LaunchesMatch(processors + [e], msgs + [State(e.node, Some(e.id), Running)])
  {
    LaunchesAppend(msgs, State(e.node, Some(e.id), Running));
  }

  /** Growing the table keeps every recorded call pointing at the same slot. */
  lemma InvocationsExtend(processors: seq<Entry>, invocations: seq<Invocation>, e: Entry)
    requires InvocationsMatch(processors, invocations)
    ensures InvocationsMatch(processors + [e], invocations)
  {
    forall k | 0 <= k < |invocations|
      ensures invocations[k].processor < |processors|
      ensures (processors + [e])[invocations[k].processor] == processors[invocations[k].processor]
    {
    }
  }

  lemma {:induction false} RegistryAnnouncedOther(ctors: map<string, Ctor>, msgs: seq<Msg>, m: Msg)
    requires RegistryAnnounced(ctors, msgs) && !m.Register?
    ensures RegistryAnnounced(ctors, msgs + [m])
  {
    RegistrationsAppend(msgs, m);
    assert Registrations(msgs + [m]) == Registrations(msgs);
  }

  /**
   * The registry and the register notices that result from running the
   * `registerProcessor` calls of `script` in order, starting from `ctors`.
   */
  function RegisterAll(ctors: map<string, Ctor>, script: seq<Registration>): (r: (map<string, Ctor>, seq<Msg>))
    decreases |script|
  {
    if script == [] then (ctors, [])
    else
      var prior := RegisterAll(ctors, script[..|script| - 1]);
      var reg := script[|script| - 1];
      if reg.name in prior.0 then prior
      else (prior.0[reg.name := reg.ctor], prior.1 + [Register(reg.name, reg.ctor.parameterDescriptors)])
  }

  /** The names that `script` registers. */
  function ScriptNames(script: seq<Registration>): set<string> {
    set k | 0 <= k < |script| :: script[k].name
  }

  /** Registration only adds names: the names registered afterwards are the earlier ones plus those of the script. */
  lemma {:induction false} RegisterAllKeys(ctors: map<string, Ctor>, script: seq<Registration>)
    ensures RegisterAll(ctors, script).0.Keys == ctors.Keys + ScriptNames(script)
  {
    if script != [] {
      var init := script[..|script| - 1];
      RegisterAllKeys(ctors, init);
      assert ScriptNames(script) == ScriptNames(init) + {script[|script| - 1].name} by {
        forall n | n in ScriptNames(script)
          ensures n in ScriptNames(init) + {script[|script| - 1].name}
        {
          var k :| 0 <= k < |script| && script[k].name == n;
          if k < |init| { assert init[k] == script[k]; }
        }
        forall n | n in ScriptNames(init)
          ensures n in ScriptNames(script)
        {
          var k :| 0 <= k < |init| && init[k].name == n;
          assert script[k] == init[k];
        }
      }
    }
  }

  /** Write-once: a name registered before the script keeps its class. */
  lemma {:induction false} RegisterAllKeeps(ctors: map<string, Ctor>, script: seq<Registration>, name: string)
    requires name in ctors
    ensures name in RegisterAll(ctors, script).0 && RegisterAll(ctors, script).0[name] == ctors[name]
  {
    if script != [] {
      RegisterAllKeeps(ctors, script[..|script| - 1], name);
    }
  }

  /** First registration wins: a new name ends up bound to the class of its first registration in the script. */
  lemma {:induction false} RegisterAllFirstWins(ctors: map<string, Ctor>, script: seq<Registration>, j: nat)
    requires j < |script| && script[j].name !in ctors
    requires forall k :: 0 <= k < j ==> script[k].name != script[j].name
    ensures script[j].name in RegisterAll(ctors, script).0
    ensures RegisterAll(ctors, script).0[script[j].name] == script[j].ctor
  {
    var init := script[..|script| - 1];
    if j == |script| - 1 {
      RegisterAllKeys(ctors, init);
    } else {
      assert init[j] == script[j];
      RegisterAllFirstWins(ctors, init, j);
    }
  }

  // ---------------------------------------------------------------------
  // The worker's global scope

  class WorkerScope {
    /** The registry: processor name to class; written once per name. */
    var ctors: map<string, Ctor>
    /** `AWGS.processors`: append-only. */
    var processors: seq<Entry>
    /** Messages posted to the host, oldest first. */
    var outbox: seq<Msg>
    /** Calls of processors' `process`, oldest first. */
    var invocations: seq<Invocation>
    /** `AudioWorkletGlobalScope.sampleRate`. */
    var sampleRate: int

    ghost predicate Valid()
      reads this
    {
      && RegistryAnnounced(ctors, outbox)
      && DenseIds(processors)
      && LaunchesMatch(processors, outbox)
      && InvocationsMatch(processors, invocations)
    }

    /** A fresh worker context: empty registry and table, nothing posted. */
    constructor ()
      ensures Valid()
      ensures ctors == map[] && processors == [] && outbox == [] && invocations == []
    {
      ctors := map[];
      processors := [];
      outbox := [];
      invocations := [];
      sampleRate := 0;
    }

    /** `registerOnWorker(name, ctor)`: the first registration of a name wins and is announced once. */
    method RegisterProcessor(name: string, ctor: Ctor)
      requires Valid()
      modifies this`ctors, this`outbox
      ensures Valid()
      ensures name in old(ctors) ==> ctors == old(ctors) && outbox == old(outbox)
      ensures name !in old(ctors) ==> ctors == old(ctors)[name := ctor]
      ensures name !in old(ctors) ==> outbox == old(outbox) + [Register(name, ctor.parameterDescriptors)]
    {
      if name !in ctors {
        var descriptor := ctor.parameterDescriptors;
        RegistryAnnouncedExtend(ctors, outbox, name, ctor);
        LaunchesAppend(outbox, Register(name, descriptor));
        ctors := ctors[name := ctor];
        outbox := outbox + [Register(name, descriptor)];
      }
    }

    /** `constructOnWorker(name, port, options)`, reporting errors for node `node`. */
    method Construct(name: string, port: Option<PortId>, options: Option<ProcessorOptions>, node: NodeId)
      returns (r: Result<Instance, ConstructError>)
      requires Valid()
      modifies this`outbox
      ensures Valid()
      ensures r == ConstructOutcome(ctors, name, port, options, node).result
      ensures outbox == old(outbox) + ConstructOutcome(ctors, name, port, options, node).notices
    {
      if name in ctors {
        var opts := options.GetOr(EmptyOptions);
        opts := opts.(port := port);
        var processor := New(ctors[name], opts);
        if !processor.isProcessor {
          Post(State(node, None, Error));
          return Failure(InvalidState);
        }
        return Success(processor);
      } else {
        Post(State(node, None, Error));
        return Failure(NotSupported);
      }
    }

    /** Posts a `load` or error notice, which announces neither a registration nor a processor. */
    method Post(m: Msg)
      requires Valid() && (m.Load? || (m.State? && m.state == Error))
      modifies this`outbox
      ensures Valid()
      ensures outbox == old(outbox) + [m]
    {
      RegistryAnnouncedOther(ctors, outbox, m);
      LaunchesAppend(outbox, m);
      outbox := outbox + [m];
    }

    /** The `import` handler: the script's `registerProcessor` calls run, then `load` is posted with the same url. */
    method Import(url: string, script: seq<Registration>)
      requires Valid()
      modifies this`ctors, this`outbox
      ensures Valid()
      ensures ctors == RegisterAll(old(ctors), script).0
      ensures outbox == old(outbox) + RegisterAll(old(ctors), script).1 + [Load(url)]
      ensures forall n :: n in old(ctors) ==> n in ctors && ctors[n] == old(ctors)[n]
    {
      var i := 0;
      while i < |script|
        invariant 0 <= i <= |script| && Valid()
        invariant ctors == RegisterAll(old(ctors), script[..i]).0
        invariant outbox == old(outbox) + RegisterAll(old(ctors), script[..i]).1
      {
        assert script[..i + 1][..i] == script[..i];
        RegisterProcessor(script[i].name, script[i].ctor);
        i := i + 1;
      }
      assert script[..i] == script;
      forall n | n in old(ctors)
        ensures n in ctors && ctors[n] == old(ctors)[n]
      {
        RegisterAllKeeps(old(ctors), script, n);
      }
      Post(Load(url));
    }

    /**
     * The `createProcessor` handler: build the ping-pong slots, set the sample
     * rate, construct; on success append an entry whose id is the table's
     * previous length and announce it as running.
     */
    method CreateProcessor(args: CreateArgs, port: Option<PortId>) returns (r: Result<nat, ConstructError>)
      requires Valid()
      modifies this`processors, this`outbox, this`sampleRate
      ensures Valid()
      ensures sampleRate == args.sampleRate
      ensures r.Success? <==> args.name in ctors && ctors[args.name].extendsBase
      ensures r.Success? ==>
                && r.value == |old(processors)|
                && |processors| == |old(processors)| + 1
                && processors[..r.value] == old(processors)
                && processors[r.value].awp == ConstructOutcome(ctors, args.name, port, Some(args.options), args.node).result.value
                && processors[r.value].node == args.node
                && processors[r.value].id == r.value
                && IsPingPong(processors[r.value].slices, args.bus, args.options.samplesPerBuffer.GetOr(0))
                && outbox == old(outbox) + [State(args.node, Some(r.value), Running)]
      ensures r.Failure? ==>
                && r.error == ConstructOutcome(ctors, args.name, port, Some(args.options), args.node).result.error
                && processors == old(processors)
                && outbox == old(outbox) + [State(args.node, None, Error)]
    {
      // A missing samplesPerBuffer makes every bound NaN, which subarray reads as 0.
      var buflen := args.options.samplesPerBuffer.GetOr(0);
      var pingpong := BuildSlices(args.bus, buflen);
      sampleRate := args.sampleRate;
      var processor := Construct(args.name, port, Some(args.options), args.node);
      if processor.Failure? {
        return Failure(processor.error);
      }
      var id := Launch(processor.value, args.node, pingpong);
      r := Success(id);
    }

    /** Appends an entry with the next id (`AWGS.processors.length`) and announces it as running. */
    method Launch(awp: Instance, node: NodeId, slices: seq<Slot>) returns (id: nat)
      requires Valid()
      modifies this`processors, this`outbox
      ensures Valid()
      ensures id == |old(processors)|
      ensures processors == old(processors) + [Entry(awp, node, id, slices)]
      ensures outbox == old(outbox) + [State(node, Some(id), Running)]
    {
      id := |processors|;
      var m := State(node, Some(id), Running);
      var e := Entry(awp, node, id, slices);
      RegistryAnnouncedOther(ctors, outbox, m);
      LaunchExtend(processors, outbox, e);
      InvocationsExtend(processors, invocations, e);
      processors := processors + [e];
      outbox := outbox + [m];
    }

    /**
     * The `process` handler: an id with no entry is dropped silently; a slot
     * index with no slot throws; otherwise the processor's `process` runs once
     * with that slot's buses. The table, registry and outbox are left alone.
     */
    method Process(processor: int, index: int) returns (d: Dispatch)
      requires Valid()
      modifies this`invocations
      ensures Valid()
      ensures d == Dropped <==> !(0 <= processor < |processors|)
      ensures d == SlotMissing <==> 0 <= processor < |processors| && !(0 <= index < |processors[processor].slices|)
      ensures d == Dispatched ==>
                && 0 <= processor < |processors| && 0 <= index < |processors[processor].slices|
                && invocations == old(invocations) + [Invocation(processor, index,
                     processors[processor].slices[index].inbus, processors[processor].slices[index].outbus)]
      ensures d != Dispatched ==> invocations == old(invocations)
    {
      if !(0 <= processor < |processors|) {
        return Dropped;
      }
      var entry := processors[processor];
      if !(0 <= index < |entry.slices|) {
        return SlotMissing;
      }
      var slice := entry.slices[index];
      invocations := invocations + [Invocation(processor, index, slice.inbus, slice.outbus)];
      d := Dispatched;
    }

    /**
     * `onmessage`: dispatch on the message type. Whatever the message, the
     * registry stays write-once and the table, the outbox and the invocation
     * log only grow. `import` runs the script's registrations and posts `load`;
     * `createProcessor` ends normally iff the construction succeeds, and then
     * announces the new id; `process` for an id with no entry does nothing; a
     * message of any other type changes nothing.
     */
    method OnMessage(msg: Inbound) returns (h: Handled)
      requires Valid()
      modifies this
      ensures Valid()
      ensures forall n :: n in old(ctors) ==> n in ctors && ctors[n] == old(ctors)[n]
      ensures old(processors) <= processors && old(outbox) <= outbox && old(invocations) <= invocations
      ensures msg.OtherMsg? ==> h == Done && unchanged(this)
      ensures msg.CreateProcessorMsg? && h.ConstructThrew? ==> processors == old(processors)
      ensures msg.ProcessMsg? ==> processors == old(processors) && outbox == old(outbox) && ctors == old(ctors)
      ensures h.SlotThrew? ==> invocations == old(invocations)
      ensures msg.ImportMsg? ==>
                && h == Done
                && ctors == RegisterAll(old(ctors), msg.script).0
                && outbox == old(outbox) + RegisterAll(old(ctors), msg.script).1 + [Load(msg.url)]
                && processors == old(processors) && invocations == old(invocations)
                && sampleRate == old(sampleRate)
      ensures msg.CreateProcessorMsg? ==>
                && ctors == old(ctors) && invocations == old(invocations)
                && sampleRate == msg.args.sampleRate
                && (h == Done <==> msg.args.name in ctors && ctors[msg.args.name].extendsBase)
      ensures msg.CreateProcessorMsg? && h == Done ==>
                && |processors| == |old(processors)| + 1
                && processors[..|old(processors)|] == old(processors)
                && processors[|old(processors)|] == Entry(
                     ConstructOutcome(ctors, msg.args.name, msg.port, Some(msg.args.options), msg.args.node).result.value,
                     msg.args.node, |old(processors)|, processors[|old(processors)|].slices)
                && IsPingPong(processors[|old(processors)|].slices, msg.args.bus, msg.args.options.samplesPerBuffer.GetOr(0))
                && outbox == old(outbox) + [State(msg.args.node, Some(|old(processors)|), Running)]
      ensures msg.CreateProcessorMsg? && h != Done ==>
                && h == ConstructThrew(ConstructOutcome(ctors, msg.args.name, msg.port, Some(msg.args.options), msg.args.node).result.error)
                && processors == old(processors)
                && outbox == old(outbox) + [State(msg.args.node, None, Error)]
      ensures msg.ProcessMsg? ==> (h == Done || h == SlotThrew) && sampleRate == old(sampleRate)
      ensures msg.ProcessMsg? && !(0 <= msg.processor < |processors|) ==>
                h == Done && invocations == old(invocations)
      ensures msg.ProcessMsg? && 0 <= msg.processor < |processors| ==>
                var slots := processors[msg.processor].slices;
                && (h == SlotThrew <==> !(0 <= msg.index < |slots|))
                && (0 <= msg.index < |slots| ==> invocations == old(invocations) + [Invocation(msg.processor, msg.index,
                      slots[msg.index].inbus, slots[msg.index].outbus)])
    {
      match msg
      case ImportMsg(url, script) =>
        Import(url, script);
        h := Done;
      case CreateProcessorMsg(args, port) =>
        var r := CreateProcessor(args, port);
        h := if r.Failure? then ConstructThrew(r.error) else Done;
      case ProcessMsg(processor, index) =>
        var d := Process(processor, index);
        h := if d == SlotMissing then SlotThrew else Done;
      case OtherMsg(_) =>
        h := Done;
    }
  }
}
