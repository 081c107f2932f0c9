/** The streaming inference engine: the Uninitialized/Ready/Error life cycle,
    the partition of the external arena between the two interpreters, the
    frame counter and its integer timestamps, the 18-step loop that carries
    the recurrent hidden state through the streaming model, and the
    thresholded detection scan.

    Float values are modelled by the reals they denote. The work the engine
    hands to others is a parameter: the backbone (spectrogram in, features
    out, or failure), the streaming model once its inputs are filled (logits
    and new hidden state out, or failure), and the attention-weighted
    softmax over the step logits. What the engine itself checks before it
    calls the streaming model, the four views of the streaming interpreter,
    is modelled as the booleans of Ports. */
module NnModel {
  import opened Machine

  const NUM_CLASSES: nat := 35
  const BACKBONE_FEATURES: nat := 32
  const TIME_FRAMES: nat := 18
  const HIDDEN_DIM: nat := 64
  const INPUT_HEIGHT: nat := 40
  const INPUT_WIDTH: nat := 18
  const BACKBONE_ARENA_SIZE: nat := 40 * 1024
  const STREAMING_ARENA_SIZE: nat := 20 * 1024
  const MAX_DETECTIONS: nat := 2
  const SAMPLE_RATE: nat := 48000
  const FRAME_SIZE: nat := 1024
  /** The value of the float literal 0.7f, the float nearest 0.7. */
  const CONFIDENCE_THRESHOLD: real := 0.699999988079071044921875
  /** Whole milliseconds per frame: FRAME_SIZE * 1000 / SAMPLE_RATE, which
      truncates 21.33 to 21. */
  const FRAME_MS: nat := 21
  /** The seed the dummy generator starts from. */
  const INITIAL_SEED: u32 := 12345
  /** How many random values one spectrogram takes. */
  const SPECTROGRAM_VALUES: nat := INPUT_HEIGHT * INPUT_WIDTH

  datatype NnState = Uninitialized | Initialized | Ready | Error

  type Hidden = h: seq<real> | |h| == HIDDEN_DIM witness seq(64, _ => 0.0)
  type Logits = l: seq<real> | |l| == NUM_CLASSES witness seq(35, _ => 0.0)
  type Features = f: seq<real> | |f| == 576 witness seq(576, _ => 0.0)

  const ZERO_HIDDEN: Hidden := seq(64, _ => 0.0)

  datatype Detection = Detection(classId: u8, confidence: real, timestampMs: u32, valid: bool)
  datatype Decision = Decision(detections: seq<Detection>, numDetections: u8, frameId: u32)

  /** A detection and a decision after memset to zero. */
  const NO_DETECTION: Detection := Detection(0, 0.0, 0, false)
  const ZERO_DECISION: Decision := Decision([NO_DETECTION, NO_DETECTION], 0, 0)

  /** Which views of the streaming interpreter are non-NULL: input 0
      (features), input 1 (hidden state), output 0 (logits), output 1 (new
      hidden state). */
  datatype Ports = Ports(inFeatures: bool, inHidden: bool, outLogits: bool, outHidden: bool)

  /** The streaming model once its inputs are filled: invoke and read back,
      or fail. */
  type StepFn = (seq<real>, Hidden) -> Option<(Logits, Hidden)>

  /** What NN_ProcessAudio hands to others. */
  datatype Collaborators = Collaborators(
    backbone: seq<nat> -> Option<Features>,
    historyAllocOk: bool,
    ports: Ports,
    compute: StepFn,
    aggregate: (seq<Logits>, seq<Hidden>) -> Logits)

  // ------------------------------------------------------------ timestamps

  /** get_timestamp_ms: the frame counter times the frame length in whole
      milliseconds, in uint32 arithmetic. */
  function TimestampMs(counter: u32): (r: u32)
    ensures counter * 21 < U32_LIMIT ==> r == counter * 21
  {
    Wrap32(counter * 21)
  }

  /** Consecutive frames are 21 ms apart until the product wraps. */
  lemma TimestampStep(counter: u32)
    requires (counter + 1) * 21 < U32_LIMIT
    ensures TimestampMs(Inc32(counter)) == TimestampMs(counter) + 21
  {
  }

  // ------------------------------------------------------------ dummy generator

  /** One step of dummy_rand: the uint32 product and sum, masked to 31 bits. */
  function NextSeed(seed: u32): (r: u32)
    ensures r < 0x8000_0000
    ensures r == (seed * 1103515245 + 12345) % 0x8000_0000
  {
    var x := seed * 1103515245 + 12345;
    Mask31OfWrap(x);
    Wrap32(x) % 0x8000_0000
  }

  /** Masking to 31 bits after wrapping to 32 is masking the unwrapped value. */
  lemma Mask31OfWrap(x: int)
    ensures Wrap32(x) % 0x8000_0000 == x % 0x8000_0000
  {
    var q := x / U32_LIMIT;
    assert x == q * U32_LIMIT + Wrap32(x);
    assert x == (2 * q) * 0x8000_0000 + Wrap32(x);
  }

  /** Bitwise exclusive or of the low width bits of a and b: the low bit is
      the parity of the two low bits, the rest is the exclusive or of what
      is left. */
  function XorBits(a: nat, b: nat, width: nat): nat
    decreases width
  {
    if width == 0 then 0 else (a + b) % 2 + 2 * XorBits(a / 2, b / 2, width - 1)
  }

  /** `^` on two uint32 values: the exclusive or of their 32 bits, stored
      in a uint32. */
  function Xor32(a: u32, b: u32): u32
  {
    Wrap32(XorBits(a, b, 32))
  }

  /** The seed after n draws. */
  function SeedAfter(seed: u32, n: nat): (r: u32)
    ensures n > 0 ==> r < 0x8000_0000
    ensures n == 0 ==> r == seed
    decreases n
  {
    if n == 0 then seed else SeedAfter(NextSeed(seed), n - 1)
  }

  /** rand_val % 1000 for n draws from the given seed: the integer each
      spectrogram value is made from before it is scaled into [0, 1). */
  function Residues(seed: u32, n: nat): (r: seq<nat>)
    ensures |r| == n
    ensures forall k :: 0 <= k < n ==> r[k] < 1000
    decreases n
  {
    if n == 0 then [] else [NextSeed(seed) % 1000] + Residues(NextSeed(seed), n - 1)
  }

  /** One more draw moves one residue from the pending ones to the drawn ones. */
  lemma DrawStep(drawn: seq<nat>, seed: u32, m: nat)
    ensures drawn + Residues(seed, m + 1) == (drawn + [NextSeed(seed) % 1000]) + Residues(NextSeed(seed), m)
    ensures SeedAfter(seed, m + 1) == SeedAfter(NextSeed(seed), m)
  {
    assert Residues(seed, m + 1) == [NextSeed(seed) % 1000] + Residues(NextSeed(seed), m);
  }

  // ------------------------------------------------------------ streaming steps

  /** run_streaming_inference: NULL inputs fail before the model runs and
      NULL outputs fail after it. */
  function RunStreamingInference(ports: Ports, compute: StepFn, features: seq<real>, hidden: Hidden)
    : (r: Option<(Logits, Hidden)>)
    ensures !ports.inFeatures || !ports.inHidden || !ports.outLogits || !ports.outHidden ==> r.None?
    ensures ports.inFeatures && ports.inHidden && ports.outLogits && ports.outHidden ==> r == compute(features, hidden)
  {
    if !ports.inFeatures || !ports.inHidden then None
    else
      var result := compute(features, hidden);
      if !ports.outLogits || !ports.outHidden then None else result
  }

  /** Feature row t of the backbone output. */
  function Row(features: Features, t: nat): (r: seq<real>)
    requires t < TIME_FRAMES
    ensures |r| == BACKBONE_FEATURES
  {
    features[t * 32 .. t * 32 + 32]
  }

  /** Where a run of the step loop ends: the hidden state, the logits and
      the hidden state each step produced, and whether every step succeeded. */
  datatype Trace = Trace(hidden: Hidden, logits: seq<Logits>, hiddens: seq<Hidden>, ok: bool)

  /** The step loop of NN_ProcessAudio from step t on, the steps before t
      having produced logits and hiddens: feed row t and the current hidden
      state; on failure stop; otherwise record the step and carry its new
      hidden state to the next step. */
  function Steps(ports: Ports, compute: StepFn, features: Features, hidden: Hidden, t: nat,
                 logits: seq<Logits>, hiddens: seq<Hidden>): Trace
    requires t <= TIME_FRAMES
    decreases TIME_FRAMES - t
  {
    if t == TIME_FRAMES then Trace(hidden, logits, hiddens, true)
    else
      match RunStreamingInference(ports, compute, Row(features, t), hidden)
      case None => Trace(hidden, logits, hiddens, false)
      case Some(out) => Steps(ports, compute, features, out.1, t + 1, logits + [out.0], hiddens + [out.1])
  }

  /** The whole step loop, from step 0 and the given hidden state. */
  function Run(ports: Ports, compute: StepFn, features: Features, hidden: Hidden): Trace
  {
    Steps(ports, compute, features, hidden, 0, [], [])
  }

  /** What the steps before t left is kept; one logits vector and one hidden
      state are recorded per successful step, all 18 exactly when the run
      succeeds; the final hidden state is the last one recorded. */
  lemma {:induction false} StepsShape(ports: Ports, compute: StepFn, features: Features, hidden: Hidden, t: nat,
                                      logits: seq<Logits>, hiddens: seq<Hidden>)
    requires t <= TIME_FRAMES && |logits| == |hiddens| == t
    requires t > 0 ==> hiddens[t - 1] == hidden
    ensures var r := Steps(ports, compute, features, hidden, t, logits, hiddens);
            && logits <= r.logits && hiddens <= r.hiddens
            && |r.logits| == |r.hiddens| <= TIME_FRAMES
            && (r.ok <==> |r.logits| == TIME_FRAMES)
            && r.hidden == if r.hiddens == [] then hidden else r.hiddens[|r.hiddens| - 1]
    decreases TIME_FRAMES - t
  {
    if t < TIME_FRAMES {
      var out := RunStreamingInference(ports, compute, Row(features, t), hidden);
      if out.Some? {
        StepsShape(ports, compute, features, out.value.1, t + 1, logits + [out.value.0], hiddens + [out.value.1]);
      }
    }
  }

  /** The run's shape from step 0. */
  lemma RunShape(ports: Ports, compute: StepFn, features: Features, hidden: Hidden)
    ensures var r := Run(ports, compute, features, hidden);
            && |r.logits| == |r.hiddens| <= TIME_FRAMES
            && (r.ok <==> |r.logits| == TIME_FRAMES)
            && r.hidden == if r.hiddens == [] then hidden else r.hiddens[|r.hiddens| - 1]
  {
    StepsShape(ports, compute, features, hidden, 0, [], []);
  }

  /** Step k ran the model on feature row k and on the hidden state step
      k - 1 produced (the initial one for step 0), and recorded what it
      returned. */
  lemma {:induction false} StepsFeedRow(ports: Ports, compute: StepFn, features: Features, hidden: Hidden, t: nat,
                                        logits: seq<Logits>, hiddens: seq<Hidden>, k: nat)
    requires t <= TIME_FRAMES && |logits| == |hiddens| == t
    requires t > 0 ==> hiddens[t - 1] == hidden
    requires t <= k < |Steps(ports, compute, features, hidden, t, logits, hiddens).logits|
    ensures var r := Steps(ports, compute, features, hidden, t, logits, hiddens);
            k < TIME_FRAMES && k < |r.hiddens| &&
            RunStreamingInference(ports, compute, Row(features, k), if k == 0 then hidden else r.hiddens[k - 1])
              == Some((r.logits[k], r.hiddens[k]))
    decreases TIME_FRAMES - t
  {
    StepsShape(ports, compute, features, hidden, t, logits, hiddens);
    var out := RunStreamingInference(ports, compute, Row(features, t), hidden);
    assert t < TIME_FRAMES && out.Some?;
    var l, h := logits + [out.value.0], hiddens + [out.value.1];
    StepsShape(ports, compute, features, out.value.1, t + 1, l, h);
    if k > t {
      StepsFeedRow(ports, compute, features, out.value.1, t + 1, l, h, k);
    } else {
      var r := Steps(ports, compute, features, hidden, t, logits, hiddens);
      assert r.logits[t] == l[t] && r.hiddens[t] == h[t];
      assert t > 0 ==> r.hiddens[t - 1] == h[t - 1];
    }
  }

  /** A failed run stopped because the model failed on the row after its
      last successful step, fed with that step's hidden state. */
  lemma {:induction false} StepsStopAtFailure(ports: Ports, compute: StepFn, features: Features, hidden: Hidden, t: nat,
                                              logits: seq<Logits>, hiddens: seq<Hidden>)
    requires t <= TIME_FRAMES && |logits| == t
    ensures var r := Steps(ports, compute, features, hidden, t, logits, hiddens);
            !r.ok ==> |r.logits| < TIME_FRAMES &&
                      RunStreamingInference(ports, compute, Row(features, |r.logits|), r.hidden).None?
    decreases TIME_FRAMES - t
  {
    if t < TIME_FRAMES {
      var out := RunStreamingInference(ports, compute, Row(features, t), hidden);
      if out.Some? {
        StepsStopAtFailure(ports, compute, features, out.value.1, t + 1, logits + [out.value.0], hiddens + [out.value.1]);
      }
    }
  }

  /** When the model never reaches its inputs, the loop fails at step 0 and
      the hidden state is kept. */
  lemma StepsFailAtFirst(ports: Ports, compute: StepFn, features: Features, hidden: Hidden)
    requires !ports.inFeatures || !ports.inHidden || !ports.outLogits || !ports.outHidden
    ensures Run(ports, compute, features, hidden) == Trace(hidden, [], [], false)
  {
  }

  /** When every view is there and the model succeeds on every input, every
      step from t on succeeds. */
  lemma {:induction false} StepsSucceed(compute: StepFn, features: Features, hidden: Hidden, t: nat,
                                        logits: seq<Logits>, hiddens: seq<Hidden>)
    requires t <= TIME_FRAMES
    requires forall f, h :: compute(f, h).Some?
    ensures Steps(Ports(true, true, true, true), compute, features, hidden, t, logits, hiddens).ok
    decreases TIME_FRAMES - t
  {
    if t < TIME_FRAMES {
      var out := compute(Row(features, t), hidden);
      assert out.Some?;
      StepsSucceed(compute, features, out.value.1, t + 1, logits + [out.value.0], hiddens + [out.value.1]);
    }
  }

  /** ... and the whole run succeeds with all 18 steps recorded, the last
      hidden state carried out. */
  lemma RunSucceeds(compute: StepFn, features: Features, hidden: Hidden)
    requires forall f, h :: compute(f, h).Some?
    ensures var r := Run(Ports(true, true, true, true), compute, features, hidden);
            && r.ok && |r.logits| == |r.hiddens| == TIME_FRAMES && r.hidden == r.hiddens[TIME_FRAMES - 1]
  {
    StepsSucceed(compute, features, hidden, 0, [], []);
    RunShape(Ports(true, true, true, true), compute, features, hidden);
  }

  // ------------------------------------------------------------ decision

  /** The classes below n whose probability reaches the threshold, in
      class order. */
  function AboveUpTo(probs: seq<real>, n: nat): (r: seq<nat>)
    requires n <= |probs|
    ensures forall k :: 0 <= k < |r| ==> r[k] < n && probs[r[k]] >= CONFIDENCE_THRESHOLD
  {
    if n == 0 then []
    else AboveUpTo(probs, n - 1) + (if probs[n - 1] >= CONFIDENCE_THRESHOLD then [n - 1] else [])
  }

  predicate Ascending(s: seq<nat>)
  {
    forall k, j :: 0 <= k < j < |s| ==> s[k] < s[j]
  }

  /** The classes come out in strictly increasing order. */
  lemma {:induction false} AboveUpToAscending(probs: seq<real>, n: nat)
    requires n <= |probs|
    ensures Ascending(AboveUpTo(probs, n))
  {
    if n > 0 {
      AboveUpToAscending(probs, n - 1);
      var prev := AboveUpTo(probs, n - 1);
      var r := AboveUpTo(probs, n);
      assert r == prev + (if probs[n - 1] >= CONFIDENCE_THRESHOLD then [n - 1] else []);
      forall k, j | 0 <= k < j < |r|
        ensures r[k] < r[j]
      {
        if j < |prev| {
          assert r[k] == prev[k] && r[j] == prev[j];
          assert prev[k] < prev[j];
        } else {
          assert r[k] == prev[k] < n - 1 == r[j];
        }
      }
    }
  }

  /** No class that reaches the threshold is missed. */
  lemma {:induction false} AboveUpToComplete(probs: seq<real>, n: nat)
    requires n <= |probs|
    ensures forall i :: 0 <= i < n && probs[i] >= CONFIDENCE_THRESHOLD ==> i in AboveUpTo(probs, n)
  {
    if n > 0 {
      AboveUpToComplete(probs, n - 1);
      assert AboveUpTo(probs, n - 1) <= AboveUpTo(probs, n);
    }
  }

  /** The decision after finalize_decision has looked at the classes below
      n, starting from d: each class that reaches the threshold while fewer
      than two are recorded is written into the next free entry. */
  function Scan(probs: Logits, d: Decision, ts: u32, n: nat): (r: Decision)
    requires n <= NUM_CLASSES && |d.detections| == MAX_DETECTIONS && d.numDetections <= MAX_DETECTIONS
    ensures |r.detections| == MAX_DETECTIONS && d.numDetections <= r.numDetections <= MAX_DETECTIONS
    ensures r.frameId == d.frameId
  {
    if n == 0 then d
    else
      var prev := Scan(probs, d, ts, n - 1);
      if prev.numDetections < MAX_DETECTIONS && probs[n - 1] >= CONFIDENCE_THRESHOLD then
        prev.(detections := prev.detections[prev.numDetections := Detection(n - 1, probs[n - 1], ts, true)],
              numDetections := prev.numDetections + 1)
      else prev
  }

  /** Once two detections are recorded, looking at more classes changes nothing. */
  lemma {:induction false} ScanSaturated(probs: Logits, d: Decision, ts: u32, i: nat, j: nat)
    requires i <= j <= NUM_CLASSES && |d.detections| == MAX_DETECTIONS && d.numDetections <= MAX_DETECTIONS
    requires i == j || Scan(probs, d, ts, i).numDetections == MAX_DETECTIONS
    ensures Scan(probs, d, ts, j) == Scan(probs, d, ts, i)
    decreases j
  {
    if i < j {
      ScanSaturated(probs, d, ts, i, j - 1);
    }
  }

  /** Scanning from an empty decision records the first (at most two)
      classes that reach the threshold, each with its probability and the
      given time, and leaves the other entries alone. */
  lemma {:induction false} ScanRecordsAbove(probs: Logits, d: Decision, ts: u32, n: nat)
    requires n <= NUM_CLASSES && |d.detections| == MAX_DETECTIONS && d.numDetections == 0
    ensures var r := Scan(probs, d, ts, n);
            var above := AboveUpTo(probs, n);
            && r.numDetections == Min(MAX_DETECTIONS, |above|)
            && (forall k :: 0 <= k < r.numDetections ==>
                  r.detections[k] == Detection(above[k], probs[above[k]], ts, true))
            && (forall k :: r.numDetections <= k < MAX_DETECTIONS ==> r.detections[k] == d.detections[k])
  {
    if n > 0 {
      ScanRecordsAbove(probs, d, ts, n - 1);
      var before, prev := Scan(probs, d, ts, n - 1), AboveUpTo(probs, n - 1);
      var r, above := Scan(probs, d, ts, n), AboveUpTo(probs, n);
      assert above == prev + (if probs[n - 1] >= CONFIDENCE_THRESHOLD then [n - 1] else []);
      if before.numDetections < MAX_DETECTIONS && probs[n - 1] >= CONFIDENCE_THRESHOLD {
        assert |prev| == before.numDetections;
        forall k | 0 <= k < r.numDetections
          ensures r.detections[k] == Detection(above[k], probs[above[k]], ts, true)
        {
          if k < before.numDetections {
            assert above[k] == prev[k];
          }
        }
      } else {
        assert r == before;
        forall k | 0 <= k < r.numDetections
          ensures r.detections[k] == Detection(above[k], probs[above[k]], ts, true)
        {
          assert above[k] == prev[k];
        }
      }
    }
  }

  /** finalize_decision on the probabilities: the scan of all classes from
      d with its count reset. */
  function Decide(probs: Logits, d: Decision, ts: u32): (r: Decision)
    requires |d.detections| == MAX_DETECTIONS
    ensures |r.detections| == MAX_DETECTIONS && r.numDetections <= MAX_DETECTIONS && r.frameId == d.frameId
  {
    Scan(probs, d.(numDetections := 0), ts, NUM_CLASSES)
  }

  /** Every recorded detection is valid, carries the given time, names a
      class whose probability reaches the threshold and carries that
      probability; classes are recorded in increasing order and the entries
      past the count are those of d. */
  lemma DecideSound(probs: Logits, d: Decision, ts: u32)
    requires |d.detections| == MAX_DETECTIONS
    ensures var r := Decide(probs, d, ts);
            && (forall k :: 0 <= k < r.numDetections ==>
                  && r.detections[k].valid && r.detections[k].timestampMs == ts
                  && r.detections[k].classId < NUM_CLASSES
                  && r.detections[k].confidence == probs[r.detections[k].classId] >= CONFIDENCE_THRESHOLD)
            && (forall k, j :: 0 <= k < j < r.numDetections ==> r.detections[k].classId < r.detections[j].classId)
            && (forall k :: r.numDetections <= k < MAX_DETECTIONS ==> r.detections[k] == d.detections[k])
  {
    ScanRecordsAbove(probs, d.(numDetections := 0), ts, NUM_CLASSES);
    AboveUpToAscending(probs, NUM_CLASSES);
  }

  /** Fewer than two detections means no class reaching the threshold was
      left out; with two, none below the second one was. */
  lemma DecideComplete(probs: Logits, d: Decision, ts: u32)
    requires |d.detections| == MAX_DETECTIONS
    ensures var r := Decide(probs, d, ts);
            forall i :: 0 <= i < NUM_CLASSES && probs[i] >= CONFIDENCE_THRESHOLD &&
                        (r.numDetections < MAX_DETECTIONS || i <= r.detections[MAX_DETECTIONS - 1].classId) ==>
              exists k :: 0 <= k < r.numDetections && r.detections[k].classId == i
  {
    var r := Decide(probs, d, ts);
    var above := AboveUpTo(probs, NUM_CLASSES);
    ScanRecordsAbove(probs, d.(numDetections := 0), ts, NUM_CLASSES);
    AboveUpToAscending(probs, NUM_CLASSES);
    AboveUpToComplete(probs, NUM_CLASSES);
    forall i | 0 <= i < NUM_CLASSES && probs[i] >= CONFIDENCE_THRESHOLD &&
               (r.numDetections < MAX_DETECTIONS || i <= r.detections[MAX_DETECTIONS - 1].classId)
      ensures exists k :: 0 <= k < r.numDetections && r.detections[k].classId == i
    {
      var m :| 0 <= m < |above| && above[m] == i;
      if m < r.numDetections {
        assert r.detections[m].classId == i;
      } else {
        assert false;
      }
    }
  }

  /** The engine's globals. */
  class Engine {
    var state: NnState
    var frameCounter: u32
    /** g_gru_hidden_state; None while it is NULL. */
    var hidden: Option<Hidden>
    var dummySeed: u32
    var lastInferenceTimeUs: u32
    /** Where the two interpreter arenas start in the external buffer. */
    var backboneArena: Option<nat>
    var streamingArena: Option<nat>

    ghost predicate Valid()
      reads this
    {
      state == Ready ==> hidden.Some?
    }

    /** The statics at program start. */
    constructor ()
      ensures Valid() && state == Uninitialized && frameCounter == 0 && hidden.None?
      ensures dummySeed == INITIAL_SEED && lastInferenceTimeUs == 0
      ensures backboneArena.None? && streamingArena.None?
    {
      state := Uninitialized;
      frameCounter := 0;
      hidden := None;
      dummySeed := INITIAL_SEED;
      lastInferenceTimeUs := 0;
      backboneArena := None;
      streamingArena := None;
    }

    /** NN_Init. arenaInitOk is what TensorArena_Init reports, arenaBuffer and
        arenaSize what the arena reports next, mallocOk whether every
        working buffer was obtained and modelsOk whether initialize_models
        succeeded. Each failure after the state check leaves ERROR. */
    method Init(arenaInitOk: bool, arenaBuffer: Option<nat>, arenaSize: u32, mallocOk: bool, modelsOk: bool)
      returns (ok: bool)
      requires Valid()
      modifies this
      ensures Valid()
      ensures dummySeed == old(dummySeed) && lastInferenceTimeUs == old(lastInferenceTimeUs)
      ensures old(state) != Uninitialized ==> !ok && unchanged(this)
      ensures old(state) == Uninitialized ==>
                (ok <==> arenaInitOk && arenaBuffer.Some? && arenaSize >= BACKBONE_ARENA_SIZE + STREAMING_ARENA_SIZE
                         && mallocOk && modelsOk)
      ensures old(state) == Uninitialized && !ok ==> state == Error
      ensures ok ==>
                && state == Ready && frameCounter == 0 && hidden == Some(ZERO_HIDDEN)
                && backboneArena == arenaBuffer
                && streamingArena == Some(arenaBuffer.value + BACKBONE_ARENA_SIZE)
                && streamingArena.value + STREAMING_ARENA_SIZE <= arenaBuffer.value + arenaSize
    {
      if state != Uninitialized {
        return false;
      }
      if !arenaInitOk {
        state := Error;
        return false;
      }
      if arenaBuffer.None? || arenaSize < BACKBONE_ARENA_SIZE + STREAMING_ARENA_SIZE {
        state := Error;
        return false;
      }
      backboneArena := arenaBuffer;
      streamingArena := Some(arenaBuffer.value + BACKBONE_ARENA_SIZE);
      if !mallocOk {
        state := Error;
        return false;
      }
      hidden := Some(ZERO_HIDDEN);
      if !modelsOk {
        state := Error;
        return false;
      }
      hidden := Some(ZERO_HIDDEN);
      frameCounter := 0;
      state := Ready;
      return true;
    }

    /** NN_Deinit: the interpreters and models are handed back to the
        adapter and the engine returns to UNINITIALIZED. */
    method Deinit()
      modifies this
      ensures Valid() && state == Uninitialized
      ensures frameCounter == old(frameCounter) && hidden == old(hidden) && dummySeed == old(dummySeed)
      ensures backboneArena == old(backboneArena) && streamingArena == old(streamingArena)
      ensures lastInferenceTimeUs == old(lastInferenceTimeUs)
    {
      state := Uninitialized;
    }

    /** NN_ResetStreamState; the hidden-state buffer must exist. */
    method ResetStreamState()
      requires Valid() && hidden.Some?
      modifies this
      ensures Valid() && hidden == Some(ZERO_HIDDEN) && frameCounter == 0
      ensures state == old(state) && dummySeed == old(dummySeed) && lastInferenceTimeUs == old(lastInferenceTimeUs)
      ensures backboneArena == old(backboneArena) && streamingArena == old(streamingArena)
    {
      hidden := Some(ZERO_HIDDEN);
      frameCounter := 0;
    }

    /** dummy_rand. */
    method DummyRand() returns (r: u32)
      modifies this
      ensures dummySeed == NextSeed(old(dummySeed)) && r == dummySeed
      ensures state == old(state) && frameCounter == old(frameCounter) && hidden == old(hidden)
      ensures lastInferenceTimeUs == old(lastInferenceTimeUs)
      ensures backboneArena == old(backboneArena) && streamingArena == old(streamingArena)
    {
      dummySeed := NextSeed(dummySeed);
      r := dummySeed;
    }

    /** preprocess_audio_to_spectrogram: one draw per spectrogram value;
        the audio itself is not read. Returns the residues the values are
        made from. */
    method Preprocess() returns (values: seq<nat>)
      modifies this
      ensures values == Residues(old(dummySeed), SPECTROGRAM_VALUES)
      ensures dummySeed == SeedAfter(old(dummySeed), SPECTROGRAM_VALUES)
      ensures state == old(state) && frameCounter == old(frameCounter) && hidden == old(hidden)
      ensures lastInferenceTimeUs == old(lastInferenceTimeUs)
      ensures backboneArena == old(backboneArena) && streamingArena == old(streamingArena)
    {
      values := [];
      var i := 0;
      while i < SPECTROGRAM_VALUES
        invariant 0 <= i <= SPECTROGRAM_VALUES
        invariant values + Residues(dummySeed, SPECTROGRAM_VALUES - i) == Residues(old(dummySeed), SPECTROGRAM_VALUES)
        invariant SeedAfter(dummySeed, SPECTROGRAM_VALUES - i) == SeedAfter(old(dummySeed), SPECTROGRAM_VALUES)
        invariant state == old(state) && frameCounter == old(frameCounter) && hidden == old(hidden)
        invariant lastInferenceTimeUs == old(lastInferenceTimeUs)
        invariant backboneArena == old(backboneArena) && streamingArena == old(streamingArena)
      {
        DrawStep(values, dummySeed, SPECTROGRAM_VALUES - i - 1);
        var r := DummyRand();
        values := values + [r % 1000];
        i := i + 1;
      }
      assert values + [] == values;
    }

    /** The step loop of NN_ProcessAudio. */
    method StreamSteps(ports: Ports, compute: StepFn, features: Features)
      returns (logits: seq<Logits>, hiddens: seq<Hidden>, ok: bool)
      requires hidden.Some?
      modifies this
      ensures hidden.Some? && Run(ports, compute, features, old(hidden).value) == Trace(hidden.value, logits, hiddens, ok)
      ensures state == old(state) && frameCounter == old(frameCounter) && dummySeed == old(dummySeed)
      ensures lastInferenceTimeUs == old(lastInferenceTimeUs)
      ensures backboneArena == old(backboneArena) && streamingArena == old(streamingArena)
    {
      logits, hiddens := [], [];
      var t := 0;
      while t < TIME_FRAMES
        invariant 0 <= t <= TIME_FRAMES && hidden.Some?
        invariant Steps(ports, compute, features, hidden.value, t, logits, hiddens) == Run(ports, compute, features, old(hidden).value)
        invariant state == old(state) && frameCounter == old(frameCounter) && dummySeed == old(dummySeed)
        invariant lastInferenceTimeUs == old(lastInferenceTimeUs)
        invariant backboneArena == old(backboneArena) && streamingArena == old(streamingArena)
      {
        var out := RunStreamingInference(ports, compute, Row(features, t), hidden.value);
        if out.None? {
          return logits, hiddens, false;
        }
        logits := logits + [out.value.0];
        hiddens := hiddens + [out.value.1];
        hidden := Some(out.value.1);
        t := t + 1;
      }
      return logits, hiddens, true;
    }

    /** finalize_decision: scan the classes in order and record each one
        that reaches the threshold, until two are recorded. */
    method FinalizeDecision(probs: Logits, decision: Decision) returns (out: Decision)
      requires |decision.detections| == MAX_DETECTIONS
      ensures out == Decide(probs, decision, TimestampMs(frameCounter))
    {
      var start := decision.(numDetections := 0);
      var ts := TimestampMs(frameCounter);
      out := start;
      var i := 0;
      while i < NUM_CLASSES && out.numDetections < MAX_DETECTIONS as u8
        invariant 0 <= i <= NUM_CLASSES
        invariant out == Scan(probs, start, ts, i)
      {
        if probs[i] >= CONFIDENCE_THRESHOLD {
          out := out.(detections := out.detections[out.numDetections := Detection(i, probs[i], ts, true)],
                      numDetections := out.numDetections + 1);
        }
        i := i + 1;
      }
      ScanSaturated(probs, start, ts, i, NUM_CLASSES);
    }

    /** NN_ProcessAudio. audioPresent and decision say whether the two
        pointers are non-NULL. Past the guard the decision is zeroed and
        stamped with the frame counter, which is then incremented whatever
        happens next. */
    method ProcessAudio(audioPresent: bool, decision: Option<Decision>, env: Collaborators)
      returns (ok: bool, out: Option<Decision>)
      requires Valid()
      modifies this
      ensures Valid()
      ensures old(state) != Ready || !audioPresent || decision.None? ==> !ok && out == decision && unchanged(this)
      ensures old(state) == Ready && audioPresent && decision.Some? ==>
                && out.Some? && out.value.frameId == old(frameCounter)
                && frameCounter == Inc32(old(frameCounter))
                && state == old(state)
                && backboneArena == old(backboneArena) && streamingArena == old(streamingArena)
                && dummySeed == SeedAfter(old(dummySeed), SPECTROGRAM_VALUES)
      ensures old(state) == Ready && audioPresent && decision.Some? ==>
                var features := env.backbone(Residues(old(dummySeed), SPECTROGRAM_VALUES));
                var stamped := ZERO_DECISION.(frameId := old(frameCounter));
                && (features.None? || !env.historyAllocOk ==>
                      !ok && hidden == old(hidden) && out == Some(stamped)
                      && lastInferenceTimeUs == old(lastInferenceTimeUs))
                && (features.Some? && env.historyAllocOk ==>
                      var tr := Run(env.ports, env.compute, features.value, old(hidden).value);
                      && hidden == Some(tr.hidden)
                      && (ok <==> tr.ok)
                      && (!ok ==> out == Some(stamped) && lastInferenceTimeUs == old(lastInferenceTimeUs))
                      && (ok ==> out == Some(Decide(env.aggregate(tr.logits, tr.hiddens), stamped, TimestampMs(frameCounter)))
                                 && lastInferenceTimeUs == 0))
    {
      if state != Ready || !audioPresent || decision.None? {
        return false, decision;
      }
      var d := ZERO_DECISION.(frameId := frameCounter);
      frameCounter := Inc32(frameCounter);
      out := Some(d);
      var startTime := TimestampMs(frameCounter);
      var values := Preprocess();
      var features := env.backbone(values);
      if features.None? {
        return false, out;
      }
      if !env.historyAllocOk {
        return false, out;
      }
      var logits, hiddens, stepsOk := StreamSteps(env.ports, env.compute, features.value);
      if !stepsOk {
        return false, out;
      }
      var probs := env.aggregate(logits, hiddens);
      d := FinalizeDecision(probs, d);
      out := Some(d);
      lastInferenceTimeUs := Wrap32(Wrap32(TimestampMs(frameCounter) - startTime) * 1000);
      return true, out;
    }

    /** One batch of the performance sequence: n calls of NN_ProcessAudio on
        the same audio, each consuming one frame id. */
    method RunCycles(n: nat, env: Collaborators)
      requires Valid() && state == Ready
      modifies this
      ensures Valid() && state == Ready
      ensures frameCounter == Wrap32(old(frameCounter) as int + n)
    {
      var i := 0;
      while i < n
        invariant 0 <= i <= n
        invariant Valid() && state == Ready && frameCounter == Wrap32(old(frameCounter) as int + i)
      {
        var _, _ := ProcessAudio(true, Some(ZERO_DECISION), env);
        Inc32OfWrap(old(frameCounter) as int + i);
        i := i + 1;
      }
    }

    /** The three batches of NN_runPerformanceTestSequence: 10, 100 and
        1000 cycles. */
    method RunBatches(env: Collaborators)
      requires Valid() && state == Ready
      modifies this
      ensures Valid() && state == Ready
      ensures frameCounter == Wrap32(old(frameCounter) as int + 1110)
    {
      ghost var c0 := frameCounter;
      RunCycles(10, env);
      RunCycles(100, env);
      WrapAdd(c0 as int + 10, 100);
      RunCycles(1000, env);
      WrapAdd(c0 as int + 110, 1000);
    }

    /** The reseed at the start of NN_runPerformanceTestSequence: the
        current timestamp, exclusive-or 0xDEADBEEF. */
    method SeedFromClock()
      modifies this
      ensures dummySeed == Xor32(TimestampMs(frameCounter), 0xDEADBEEF)
      ensures state == old(state) && frameCounter == old(frameCounter) && hidden == old(hidden)
      ensures lastInferenceTimeUs == old(lastInferenceTimeUs)
      ensures backboneArena == old(backboneArena) && streamingArena == old(streamingArena)
    {
      dummySeed := Xor32(TimestampMs(frameCounter), 0xDEADBEEF);
    }

    /** NN_runPerformanceTestSequence: reseed the generator from the clock,
        run the three batches, then stop the engine by entering ERROR. */
    method PerformanceTestSequence(audioPresent: bool, env: Collaborators)
      requires Valid()
      modifies this
      ensures Valid()
      ensures old(state) != Ready || !audioPresent ==> unchanged(this)
      ensures old(state) == Ready && audioPresent ==>
                state == Error && frameCounter == Wrap32(old(frameCounter) as int + 1110)
    {
      if state != Ready || !audioPresent {
        return;
      }
      SeedFromClock();
      RunBatches(env);
      state := Error;
    }
  }
}
