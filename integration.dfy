/** Whole-system facts: what the streaming step of the inference engine
    finds when it asks either interpreter adapter for the four views of the
    streaming interpreter, and what that does to NN_ProcessAudio. */
module Integration {
  import opened Machine
  import opened TflmApi
  import TflmStatic
  import TflmVirtual
  import opened VirtualArena
  import opened NnModel

  // ------------------------------------------------------------ static adapter

  /** The views run_streaming_inference obtains from the static adapter for
      a record: input 0, input 1, output 0 and output 1, each NULL unless the
      record is allocated. */
  function StaticPorts(rec: TflmStatic.Stub): (p: Ports)
    ensures !rec.tensorsAllocated ==> p == Ports(false, false, false, false)
    ensures rec.tensorsAllocated ==>
              && (p.inFeatures <==> rec.input0.Some?) && (p.inHidden <==> rec.input1.Some?)
              && (p.outLogits <==> rec.output0.Some?) && (p.outHidden <==> rec.output1.Some?)
  {
    if !rec.tensorsAllocated then Ports(false, false, false, false)
    else Ports(rec.input0.Some?, rec.input1.Some?, rec.output0.Some?, rec.output1.Some?)
  }

  /** The streaming interpreter the engine creates in its 20 KiB region and
      then allocates. */
  function StreamingRecord(model: nat, arena: array<u8>): (r: (TflmStatic.Stub, Status))
  {
    TflmStatic.Allocate(TflmStatic.NewStub(model, arena, STREAMING_ARENA_SIZE as u32))
  }

  /** The 20 KiB streaming arena passes the adapter's 1024-byte backbone
      test, so the streaming interpreter is laid out as a backbone: the
      allocation succeeds, yet the hidden-state input and output stay NULL. */
  lemma StreamingLaidOutAsBackbone(model: nat, arena: array<u8>)
    ensures var (rec, st) := StreamingRecord(model, arena);
            && rec.isBackbone && st == Ok && rec.tensorsAllocated
            && rec.input0 == Some(0) && rec.output0 == Some(2880)
            && rec.input1.None? && rec.output1.None?
            && StaticPorts(rec) == Ports(true, false, true, false)
  {
    var stub := TflmStatic.NewStub(model, arena, STREAMING_ARENA_SIZE as u32);
    assert stub.isBackbone;
    assert !TflmStatic.TooSmall(stub);
  }

  /** With the static adapter every streaming step fails at step 0, whatever
      the model computes, and the hidden state is kept. */
  lemma {:induction false} StaticStreamingRunFails(model: nat, arena: array<u8>, compute: StepFn,
                                                   features: Features, hidden: Hidden)
    ensures Run(StaticPorts(StreamingRecord(model, arena).0), compute, features, hidden)
              == Trace(hidden, [], [], false)
  {
    StreamingLaidOutAsBackbone(model, arena);
    StepsFailAtFirst(StaticPorts(StreamingRecord(model, arena).0), compute, features, hidden);
  }

  /** The streaming interpreter as the static adapter evidently means to
      create it: laid out by the model's kind, not by the region's size. */
  function CorrectedStreamingRecord(model: nat, arena: array<u8>): (r: (TflmStatic.Stub, Status))
  {
    TflmStatic.Allocate(TflmStatic.NewStubOfKind(model, arena, STREAMING_ARENA_SIZE as u32, false))
  }

  /** Laid out as a streaming model, the record has all four views: input,
      hidden-state input, output and hidden-state output, packed in that
      order. */
  lemma CorrectedStreamingLaidOut(model: nat, arena: array<u8>)
    ensures var (rec, st) := CorrectedStreamingRecord(model, arena);
            && !rec.isBackbone && st == Ok && rec.tensorsAllocated
            && rec.input0 == Some(0) && rec.input1 == Some(128)
            && rec.output0 == Some(384) && rec.output1 == Some(512)
            && StaticPorts(rec) == Ports(true, true, true, true)
  {
    var stub := TflmStatic.NewStubOfKind(model, arena, STREAMING_ARENA_SIZE as u32, false);
    assert !TflmStatic.TooSmall(stub);
  }

  /** With the corrected record every streaming step reaches the model, so
      the run succeeds, all 18 steps recorded, whenever the model does. */
  lemma {:induction false} CorrectedStreamingRunSucceeds(model: nat, arena: array<u8>, compute: StepFn,
                                                         features: Features, hidden: Hidden)
    requires forall f, h :: compute(f, h).Some?
    ensures var r := Run(StaticPorts(CorrectedStreamingRecord(model, arena).0), compute, features, hidden);
            r.ok && |r.logits| == TIME_FRAMES
  {
    CorrectedStreamingLaidOut(model, arena);
    RunSucceeds(compute, features, hidden);
  }

  /** The first two calls of run_streaming_inference on the static pool:
      the features view and the hidden-state view. */
  method StaticStreamingInputs(pool: TflmStatic.StaticPool, h: Option<nat>)
    returns (features: Option<nat>, hidden: Option<nat>)
    requires pool.Valid() && (h.Some? ==> h.value < TflmStatic.MAX_INTERPRETERS)
    ensures features.Some? == StaticPorts(if h.None? then TflmStatic.ZEROED else pool.interpreters[h.value]).inFeatures
    ensures hidden.Some? == StaticPorts(if h.None? then TflmStatic.ZEROED else pool.interpreters[h.value]).inHidden
  {
    features := pool.GetInputData(h, 0);
    hidden := pool.GetInputData(h, 1);
  }

  // ------------------------------------------------------------ virtual adapter

  /** The views run_streaming_inference obtains from the virtual adapter,
      each getter consulting the store as the previous one left it. */
  function VirtualPorts(d: Directory, rec: TflmVirtual.Interp): (p: Ports)
    requires Inv(d)
    ensures !p.inHidden && !p.outHidden
    ensures p.inFeatures <==> rec.tensorsAllocated && Get(d, rec.inputId).1.Some?
  {
    var (d1, in0) := TflmVirtual.View(d, rec, 0, rec.inputId);
    var (d2, in1) := TflmVirtual.View(d1, rec, 1, rec.inputId);
    var (d3, out0) := TflmVirtual.View(d2, rec, 0, rec.outputId);
    var (_, out1) := TflmVirtual.View(d3, rec, 1, rec.outputId);
    Ports(in0.Some?, in1.Some?, out0.Some?, out1.Some?)
  }

  /** With the virtual adapter the hidden-state view is always NULL, so every
      streaming step fails at step 0 as well. */
  lemma {:induction false} VirtualStreamingRunFails(d: Directory, rec: TflmVirtual.Interp, compute: StepFn,
                                                    features: Features, hidden: Hidden)
    requires Inv(d)
    ensures Run(VirtualPorts(d, rec), compute, features, hidden) == Trace(hidden, [], [], false)
  {
    StepsFailAtFirst(VirtualPorts(d, rec), compute, features, hidden);
  }

  /** The hand-written allocation of the backbone is tflm_allocate_tensors
      on a fresh store: it succeeds with the intermediates as ids 0, 1, 2,
      the input as 3 and the output as 4. */
  lemma AllocatedIsAllocate(d0: Directory, model: nat)
    requires Fresh(d0)
    ensures var r := TflmVirtual.Allocate(d0, TflmVirtual.NewInterp(model, 0));
            && r.2 == Ok && r.0 == BackboneAllocated(d0) && r.1.tensorsAllocated
            && r.1.inputId == 3 && r.1.outputId == 4 && r.1.intermediates == [0, 1, 2]
  {
  }

  /** The hand-written access sequence of the backbone trace is get_input
      followed by tflm_invoke on the allocated record, and that invoke
      reports OK. */
  lemma TraceIsInvoke(d0: Directory, model: nat)
    requires Fresh(d0)
    ensures var rec := TflmVirtual.Allocate(d0, TflmVirtual.NewInterp(model, 0)).1;
            var viewed := TflmVirtual.View(BackboneAllocated(d0), rec, 0, rec.inputId).0;
            TflmVirtual.Invoke(viewed, rec) == (BackboneInvokeTrace(d0), Ok)
  {
    AllocatedIsAllocate(d0, model);
    var rec := TflmVirtual.Allocate(d0, TflmVirtual.NewInterp(model, 0)).1;
    var g2 := TraceLoadsInput(d0);
    var g3 := TraceLoadsConv1(g2);
    var g5 := TraceEvictsConv1(g3);
    var g6 := TraceEvictsPool1(g5);
    var g4 := Get(g3, 1).0;
    assert TflmVirtual.LayersFrom(g2, [0, 1, 2], 0) == TflmVirtual.LayersFrom(g3, [0, 1, 2], 1);
    assert TflmVirtual.LayersFrom(g3, [0, 1, 2], 1) == TflmVirtual.LayersFrom(SetPinned(g4, 0, false), [0, 1, 2], 2);
    assert TflmVirtual.LayersFrom(SetPinned(g4, 0, false), [0, 1, 2], 2) == TflmVirtual.LayersFrom(SetPinned(g5, 1, false), [0, 1, 2], 3);
  }

  // ------------------------------------------------------------ the engine

  /** NN_ProcessAudio on the static adapter: it never succeeds, and a call
      past the guard still uses up a frame id. */
  method ProcessAudioOnStaticAdapter(engine: Engine, audioPresent: bool, decision: Option<Decision>,
                                     backbone: seq<nat> -> Option<Features>, historyAllocOk: bool,
                                     compute: StepFn, aggregate: (seq<Logits>, seq<Hidden>) -> Logits,
                                     model: nat, arena: array<u8>)
    returns (ok: bool, out: Option<Decision>)
    requires engine.Valid()
    modifies engine
    ensures engine.Valid() && !ok
    ensures old(engine.state) == Ready && audioPresent && decision.Some? ==>
              && out.Some? && out.value.frameId == old(engine.frameCounter)
              && engine.frameCounter == Inc32(old(engine.frameCounter))
              && engine.hidden == old(engine.hidden)
  {
    var ports := StaticPorts(StreamingRecord(model, arena).0);
    var env := Collaborators(backbone, historyAllocOk, ports, compute, aggregate);
    if engine.state == Ready && audioPresent && decision.Some? {
      var features := backbone(Residues(engine.dummySeed, SPECTROGRAM_VALUES));
      if features.Some? {
        StaticStreamingRunFails(model, arena, compute, features.value, engine.hidden.value);
      }
    }
    ok, out := engine.ProcessAudio(audioPresent, decision, env);
  }

  /** NN_ProcessAudio on the corrected static adapter: past the guard, with a
      backbone result and a history buffer, it succeeds whenever the model
      does, and the decision comes from the 18 recorded steps. */
  method ProcessAudioOnCorrectedStaticAdapter(engine: Engine, audioPresent: bool, decision: Option<Decision>,
                                              backbone: seq<nat> -> Option<Features>, historyAllocOk: bool,
                                              compute: StepFn, aggregate: (seq<Logits>, seq<Hidden>) -> Logits,
                                              model: nat, arena: array<u8>)
    returns (ok: bool, out: Option<Decision>)
    requires engine.Valid()
    requires forall f, h :: compute(f, h).Some?
    modifies engine
    ensures engine.Valid()
    ensures old(engine.state) == Ready && audioPresent && decision.Some? && historyAllocOk &&
            backbone(Residues(old(engine.dummySeed), SPECTROGRAM_VALUES)).Some? ==>
              && ok && out.Some? && out.value.frameId == old(engine.frameCounter)
              && engine.frameCounter == Inc32(old(engine.frameCounter))
  {
    var ports := StaticPorts(CorrectedStreamingRecord(model, arena).0);
    var env := Collaborators(backbone, historyAllocOk, ports, compute, aggregate);
    if engine.state == Ready && audioPresent && decision.Some? {
      var features := backbone(Residues(engine.dummySeed, SPECTROGRAM_VALUES));
      if features.Some? {
        CorrectedStreamingRunSucceeds(model, arena, compute, features.value, engine.hidden.value);
      }
    }
    ok, out := engine.ProcessAudio(audioPresent, decision, env);
  }

  /** NN_ProcessAudio on the virtual adapter, with the store as the streaming
      step finds it: the same outcome. */
  method ProcessAudioOnVirtualAdapter(engine: Engine, audioPresent: bool, decision: Option<Decision>,
                                      backbone: seq<nat> -> Option<Features>, historyAllocOk: bool,
                                      compute: StepFn, aggregate: (seq<Logits>, seq<Hidden>) -> Logits,
                                      d: Directory, rec: TflmVirtual.Interp)
    returns (ok: bool, out: Option<Decision>)
    requires engine.Valid() && Inv(d)
    modifies engine
    ensures engine.Valid() && !ok
    ensures old(engine.state) == Ready && audioPresent && decision.Some? ==>
              && out.Some? && out.value.frameId == old(engine.frameCounter)
              && engine.frameCounter == Inc32(old(engine.frameCounter))
              && engine.hidden == old(engine.hidden)
  {
    var env := Collaborators(backbone, historyAllocOk, VirtualPorts(d, rec), compute, aggregate);
    if engine.state == Ready && audioPresent && decision.Some? {
      var features := backbone(Residues(engine.dummySeed, SPECTROGRAM_VALUES));
      if features.Some? {
        VirtualStreamingRunFails(d, rec, compute, features.value, engine.hidden.value);
      }
    }
    ok, out := engine.ProcessAudio(audioPresent, decision, env);
  }
}
