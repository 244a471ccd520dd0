/**
  The ADSR envelope of the synthesis engine: a five-state machine
  OFF -> ATTACK -> DECAY -> SUSTAIN -> RELEASE -> OFF that shapes an
  instrument's amplitude one sample at a time.

  The pure functions (Transition, Sample, Run, FallThrough) are the
  specification; the class Envelope is the object the engine mutates in
  place, and each of its methods is proved to follow those functions.
 */
module Envelope {

  /** The envelope states, in the order of their enum values 0..4. */
  datatype EnvelopeState = Off | Attack | Decay | Sustain | Release

  /** The parameter ids the envelope registers with its parameter registry. */
  datatype Parameter = AttackTime | DecayTime | SustainLevel | ReleaseTime

  /** Enum value of a state. */
  function Ordinal(s: EnvelopeState): (n: nat)
    ensures n < 5
  {
    match s
    case Off => 0
    case Attack => 1
    case Decay => 2
    case Sustain => 3
    case Release => 4
  }

  /** The state whose enum value is n (the static_cast back from an int). */
  function StateOf(n: nat): (s: EnvelopeState)
    requires n < 5
    ensures Ordinal(s) == n
  {
    if n == 0 then Off
    else if n == 1 then Attack
    else if n == 2 then Decay
    else if n == 3 then Sustain
    else Release
  }

  /** The state after one transition: the enum value plus one, modulo 5. */
  function NextState(s: EnvelopeState): (t: EnvelopeState)
    ensures Ordinal(t) == (Ordinal(s) + 1) % 5
  {
    StateOf((Ordinal(s) + 1) % 5)
  }

  /** OFF and SUSTAIN last indefinitely; the other three are timed. */
  predicate IsTimed(s: EnvelopeState)
    ensures IsTimed(s) <==> s == Attack || s == Decay || s == Release
  {
    s != Off && s != Sustain
  }

  /** The state-value slot a parameter update writes first. */
  function SlotOf(p: Parameter): (k: nat)
    ensures 1 <= k < 5
  {
    match p
    case AttackTime => Ordinal(Attack)
    case DecayTime => Ordinal(Decay)
    case SustainLevel => Ordinal(Sustain)
    case ReleaseTime => Ordinal(Release)
  }

  function Min(a: real, b: real): (m: real)
    ensures m <= a && m <= b && (m == a || m == b)
  {
    if a <= b then a else b
  }

  /**
    Length of a timed segment in samples: the configured time in seconds
    times the sample rate, converted to an unsigned integer (truncated).
    A negative product has no defined conversion and is taken as 0.
   */
  function SegmentLength(seconds: real, sampleRate: nat): (n: nat)
    ensures 0.0 <= seconds * sampleRate as real ==>
              n as real <= seconds * sampleRate as real < n as real + 1.0
    ensures seconds * sampleRate as real < 0.0 ==> n == 0
  {
    var t := seconds * sampleRate as real;
    if t < 0.0 then 0 else t.Floor
  }

  /** The fields one sample of the envelope reads and writes. */
  datatype Fields = Fields(
    state: EnvelopeState,
    currentStateIndex: nat,   // samples spent in the current state
    nextStateIndex: nat,      // length of the current state in samples (0 when indefinite)
    envelopeValue: real,
    multiplier: real)

  /**
    What the envelope is configured with: the per-state values (a time in
    seconds for the timed states, the level for SUSTAIN, the start level
    for OFF), the sample rate, and the per-sample multiplier computed from
    a start level, an end level and a length in samples.
   */
  datatype Settings = Settings(
    stateValue: seq<real>,
    sampleRate: nat,
    multiplierOf: (real, real, nat) -> real)
  {
    predicate Valid() { |stateValue| == 5 }
  }

  /** The counter never runs past the segment length (or past 1 after a transition). */
  predicate CounterInRange(f: Fields)
  {
    f.currentStateIndex <= f.nextStateIndex || f.currentStateIndex <= 1
  }

  /**
    The level a timed segment moves towards: full scale for ATTACK, the
    sustain level for DECAY and the OFF slot's value for RELEASE.
   */
  function Target(s: EnvelopeState, sv: seq<real>): (m: real)
    requires |sv| == 5
  {
    match s
    case Attack => 1.0
    case Decay => sv[Ordinal(Sustain)]
    case _ => sv[Ordinal(Off)]
  }

  /**
    The shared transition routine: advance to the next state, reset the
    counter, compute the new segment length, and set the entry value and
    multiplier of the new state.
   */
  function Transition(f: Fields, cfg: Settings): (g: Fields)
    requires cfg.Valid()
    ensures g.state == NextState(f.state)
    ensures g.currentStateIndex == 0
    ensures IsTimed(g.state) ==> g.nextStateIndex == SegmentLength(cfg.stateValue[Ordinal(g.state)], cfg.sampleRate)
    ensures !IsTimed(g.state) ==> g.nextStateIndex == 0
    ensures g.state == Off ==> g.envelopeValue == 0.0
    ensures g.state == Attack ==> g.envelopeValue == cfg.stateValue[Ordinal(Off)]
    ensures g.state == Decay ==> g.envelopeValue == 1.0
    ensures g.state == Sustain ==> g.envelopeValue == cfg.stateValue[Ordinal(Sustain)]
    ensures g.state == Release ==> g.envelopeValue == f.envelopeValue
    ensures !IsTimed(g.state) ==> g.multiplier == f.multiplier
    ensures IsTimed(g.state) ==> g.multiplier == cfg.multiplierOf(g.envelopeValue, Target(g.state, cfg.stateValue), g.nextStateIndex)
  {
    var s := NextState(f.state);
    var len := if IsTimed(s) then SegmentLength(cfg.stateValue[Ordinal(s)], cfg.sampleRate) else 0;
    var sv := cfg.stateValue;
    match s
    case Off => Fields(s, 0, len, 0.0, f.multiplier)
    case Attack => Fields(s, 0, len, sv[Ordinal(Off)], cfg.multiplierOf(sv[Ordinal(Off)], 1.0, len))
    case Decay => Fields(s, 0, len, 1.0, cfg.multiplierOf(1.0, sv[Ordinal(Sustain)], len))
    case Sustain => Fields(s, 0, len, sv[Ordinal(Sustain)], f.multiplier)
    case Release => Fields(s, 0, len, f.envelopeValue, cfg.multiplierOf(f.envelopeValue, sv[Ordinal(Off)], len))
  }

  /**
    One call of getSample: the fields afterwards and the sample returned.
    An inactive envelope passes 1.0 through; an indefinite state holds;
    a timed state first transitions if its segment is over, then counts
    the sample and applies the multiplier. The output is capped at 1.0.
   */
  function Sample(f: Fields, active: bool, cfg: Settings): (r: (Fields, real))
    requires cfg.Valid()
    ensures r.1 <= 1.0
    ensures !active ==> r == (f, 1.0)
    ensures active && !IsTimed(f.state) ==> r.0 == f
    ensures active && IsTimed(f.state) && f.currentStateIndex >= f.nextStateIndex ==>
              r.0.state == NextState(f.state) && r.0.currentStateIndex == 1
    ensures active && IsTimed(f.state) && f.currentStateIndex < f.nextStateIndex ==>
              r.0.state == f.state && r.0.currentStateIndex == f.currentStateIndex + 1
    ensures CounterInRange(f) ==> CounterInRange(r.0)
  {
    if !active then (f, 1.0)
    else if IsTimed(f.state) then
      var g := if f.currentStateIndex >= f.nextStateIndex then Transition(f, cfg) else f;
      var h := g.(currentStateIndex := g.currentStateIndex + 1,
                  envelopeValue := g.envelopeValue * g.multiplier);
      (h, Min(1.0, h.envelopeValue))
    else (f, Min(1.0, f.envelopeValue))
  }

  /** n consecutive calls of getSample: the final fields and the samples returned, in order. */
  function Run(f: Fields, active: bool, cfg: Settings, n: nat): (r: (Fields, seq<real>))
    requires cfg.Valid()
    ensures |r.1| == n
    decreases n
  {
    if n == 0 then (f, [])
    else
      var (g, x) := Sample(f, active, cfg);
      var (h, xs) := Run(g, active, cfg, n - 1);
      (h, [x] + xs)
  }

  /**
    parameterUpdate as written: the cases of its switch have no break, so
    an update writes its own slot and falls through into every later case.
    Slot OFF is never written.
   */
  function FallThrough(sv: seq<real>, p: Parameter, v: real): (r: seq<real>)
    requires |sv| == 5
    ensures |r| == 5
    ensures forall k :: 0 <= k < 5 && k < SlotOf(p) ==> r[k] == sv[k]
    ensures forall k :: SlotOf(p) <= k < 5 ==> r[k] == v
    decreases 4 - SlotOf(p)
  {
    match p
    case AttackTime => FallThrough(sv[Ordinal(Attack) := v], DecayTime, v)
    case DecayTime => FallThrough(sv[Ordinal(Decay) := v], SustainLevel, v)
    case SustainLevel => FallThrough(sv[Ordinal(Sustain) := v], ReleaseTime, v)
    case ReleaseTime => sv[Ordinal(Release) := v]
  }


  /** m raised to the k-th power: the factor k samples of a segment apply. */
  function Power(m: real, k: nat): (p: real)
    decreases k
  {
    if k == 0 then 1.0 else m * Power(m, k - 1)
  }

  /** The cycle OFF -> ATTACK -> DECAY -> SUSTAIN -> RELEASE -> OFF. */
  lemma CyclicOrder()
    ensures NextState(Off) == Attack && NextState(Attack) == Decay && NextState(Decay) == Sustain
    ensures NextState(Sustain) == Release && NextState(Release) == Off
    ensures forall s :: NextState(NextState(NextState(NextState(NextState(s))))) == s
  {
    assert StateOf(0) == Off && StateOf(1) == Attack && StateOf(2) == Decay;
    assert StateOf(3) == Sustain && StateOf(4) == Release;
  }

  /** Every sample of every run is at most 1.0, and a run of n calls yields n samples. */
  lemma {:induction false} RunNeverExceedsOne(f: Fields, active: bool, cfg: Settings, n: nat)
    requires cfg.Valid()
    ensures |Run(f, active, cfg, n).1| == n
    ensures forall i :: 0 <= i < n ==> Run(f, active, cfg, n).1[i] <= 1.0
    decreases n
  {
    if n > 0 {
      RunNeverExceedsOne(Sample(f, active, cfg).0, active, cfg, n - 1);
    }
  }

  /** An inactive envelope passes 1.0 through on every call and never changes. */
  lemma {:induction false} InactiveRunPassesThrough(f: Fields, cfg: Settings, n: nat)
    requires cfg.Valid()
    ensures Run(f, false, cfg, n).0 == f
    ensures |Run(f, false, cfg, n).1| == n
    ensures forall i :: 0 <= i < n ==> Run(f, false, cfg, n).1[i] == 1.0
    decreases n
  {
    if n > 0 {
      InactiveRunPassesThrough(f, cfg, n - 1);
    }
  }

  /** In OFF or SUSTAIN nothing advances: every call returns the same capped value. */
  lemma {:induction false} IndefiniteStateHolds(f: Fields, cfg: Settings, n: nat)
    requires cfg.Valid() && !IsTimed(f.state)
    ensures Run(f, true, cfg, n).0 == f
    ensures |Run(f, true, cfg, n).1| == n
    ensures forall i :: 0 <= i < n ==> Run(f, true, cfg, n).1[i] == Min(1.0, f.envelopeValue)
    decreases n
  {
    if n > 0 {
      IndefiniteStateHolds(f, cfg, n - 1);
    }
  }

  /**
    Inside a timed segment each call counts one sample and multiplies the
    value by the segment's multiplier: k calls that stay within the
    segment leave the state, its length and its multiplier alone.
   */
  lemma {:induction false} SegmentCountsDown(f: Fields, cfg: Settings, k: nat)
    requires cfg.Valid() && IsTimed(f.state)
    requires f.currentStateIndex + k <= f.nextStateIndex
    ensures Run(f, true, cfg, k).0 ==
      f.(currentStateIndex := f.currentStateIndex + k,
         envelopeValue := f.envelopeValue * Power(f.multiplier, k))
    decreases k
  {
    if k > 0 {
      var g := Sample(f, true, cfg).0;
      assert g == f.(currentStateIndex := f.currentStateIndex + 1,
                     envelopeValue := f.envelopeValue * f.multiplier);
      SegmentCountsDown(g, cfg, k - 1);
      calc {
        g.envelopeValue * Power(f.multiplier, k - 1);
        f.envelopeValue * f.multiplier * Power(f.multiplier, k - 1);
        f.envelopeValue * (f.multiplier * Power(f.multiplier, k - 1));
        f.envelopeValue * Power(f.multiplier, k);
      }
    }
  }

  /**
    Timed states always end: from counter c in a segment of length L,
    L - c calls reach the end of the segment (none when c is already past
    L) and one more call moves to the next state, with the counter at 1.
   */
  lemma SegmentEnds(f: Fields, cfg: Settings)
    requires cfg.Valid() && IsTimed(f.state)
    ensures var k := if f.currentStateIndex <= f.nextStateIndex then f.nextStateIndex - f.currentStateIndex else 0;
      && Run(f, true, cfg, k).0.state == f.state
      && Run(f, true, cfg, k + 1).0.state == NextState(f.state)
      && Run(f, true, cfg, k + 1).0.currentStateIndex == 1
  {
    var k := if f.currentStateIndex <= f.nextStateIndex then f.nextStateIndex - f.currentStateIndex else 0;
    if f.currentStateIndex <= f.nextStateIndex {
      SegmentCountsDown(f, cfg, k);
    }
    RunSplit(f, true, cfg, k);
  }

  /** A run of k + 1 calls is a run of k calls followed by one more call. */
  lemma {:induction false} RunSplit(f: Fields, active: bool, cfg: Settings, k: nat)
    requires cfg.Valid()
    ensures Run(f, active, cfg, k + 1).0 == Sample(Run(f, active, cfg, k).0, active, cfg).0
    decreases k
  {
    if k > 0 {
      RunSplit(Sample(f, active, cfg).0, active, cfg, k - 1);
    }
  }

  /**
    The envelope object. The ParameterManager's stored values and range
    clamping are not part of this model: an update is given the value the
    registry holds for the parameter.
   */
  class Envelope {
    var state: EnvelopeState
    var currentStateIndex: nat
    var nextStateIndex: nat
    var envelopeValue: real
    var multiplier: real
    var active: bool
    const stateValue: array<real>
    const sampleRate: nat
    const multiplierOf: (real, real, nat) -> real

    ghost predicate Valid()
      reads this
    {
      stateValue.Length == 5 && CounterInRange(Snapshot())
    }

    /** The fields the transition routine reads and writes, as one value. */
    function Snapshot(): (f: Fields)
      reads this
    {
      Fields(state, currentStateIndex, nextStateIndex, envelopeValue, multiplier)
    }

    /** The configuration the transition routine reads, as one value. */
    function Config(): (c: Settings)
      reads this, stateValue
    {
      Settings(stateValue[..], sampleRate, multiplierOf)
    }

    /**
      A fresh envelope, OFF with zeroed counters. The initial values of the
      fields are declared in Envelope.hpp, which is not part of this model.
     */
    constructor (sampleRate: nat, multiplierOf: (real, real, nat) -> real, initialValues: seq<real>, active: bool)
      requires |initialValues| == 5
      ensures Valid() && fresh(stateValue)
      ensures Snapshot() == Fields(Off, 0, 0, 0.0, 1.0)
      ensures stateValue[..] == initialValues
      ensures this.sampleRate == sampleRate && this.multiplierOf == multiplierOf && this.active == active
    {
      state, currentStateIndex, nextStateIndex := Off, 0, 0;
      envelopeValue, multiplier := 0.0, 1.0;
      this.sampleRate, this.multiplierOf, this.active := sampleRate, multiplierOf, active;
      stateValue := new real[5](i requires 0 <= i < 5 => initialValues[i]);
    }

    /** Whether the current state is one of the timed ones. */
    predicate StateIsTimed()
      reads this
      ensures StateIsTimed() <==> state == Attack || state == Decay || state == Release
    {
      IsTimed(state)
    }

    /** updateState: one step of the state machine. */
    method UpdateState()
      requires stateValue.Length == 5
      modifies this
      ensures Valid()
      ensures Snapshot() == Transition(old(Snapshot()), Config())
      ensures state == NextState(old(state)) && currentStateIndex == 0
      ensures active == old(active)
    {
      state := StateOf((Ordinal(state) + 1) % 5);
      currentStateIndex := 0;
      nextStateIndex := if StateIsTimed() then SegmentLength(stateValue[Ordinal(state)], sampleRate) else 0;
      match state
      case Off =>
        envelopeValue := 0.0;
      case Attack =>
        envelopeValue := stateValue[Ordinal(Off)];
        multiplier := multiplierOf(envelopeValue, 1.0, nextStateIndex);
      case Decay =>
        envelopeValue := 1.0;
        multiplier := multiplierOf(envelopeValue, stateValue[Ordinal(Sustain)], nextStateIndex);
      case Sustain =>
        envelopeValue := stateValue[Ordinal(Sustain)];
      case Release =>
        multiplier := multiplierOf(envelopeValue, stateValue[Ordinal(Off)], nextStateIndex);
    }

    /** getSample: produce the next sample of the envelope. */
    method GetSample() returns (x: real)
      requires Valid()
      modifies this
      ensures Valid()
      ensures (Snapshot(), x) == Sample(old(Snapshot()), active, Config())
      ensures x <= 1.0
      ensures active == old(active)
      ensures !active ==> x == 1.0 && Snapshot() == old(Snapshot())
      ensures active && !IsTimed(old(state)) ==> Snapshot() == old(Snapshot())
      ensures active && IsTimed(old(state)) && old(currentStateIndex) >= old(nextStateIndex) ==>
                state == NextState(old(state)) && currentStateIndex == 1
      ensures active && IsTimed(old(state)) && old(currentStateIndex) < old(nextStateIndex) ==>
                state == old(state) && currentStateIndex == old(currentStateIndex) + 1
    {
      ghost var f, cfg := Snapshot(), Config();
      if !active {
        return 1.0;
      }
      if StateIsTimed() {
        if currentStateIndex >= nextStateIndex {
          UpdateState();
        }
        ghost var g := Snapshot();
        assert g == if f.currentStateIndex >= f.nextStateIndex then Transition(f, cfg) else f;
        currentStateIndex := currentStateIndex + 1;
        envelopeValue := envelopeValue * multiplier;
        assert Snapshot() == g.(currentStateIndex := g.currentStateIndex + 1,
                                envelopeValue := g.envelopeValue * g.multiplier);
        assert Sample(f, active, cfg).0 == Snapshot();
      } else {
        assert Sample(f, active, cfg).0 == Snapshot();
      }
      x := Min(1.0, envelopeValue);
    }

    /** start: whatever the current state, enter ATTACK through the transition routine. */
    method Start()
      requires stateValue.Length == 5
      modifies this
      ensures Valid()
      ensures Snapshot() == Transition(old(Snapshot()).(state := Off), Config())
      ensures state == Attack && currentStateIndex == 0
      ensures active == old(active)
    {
      state := Off;
      UpdateState();
    }

    /** stop: whatever the current state, enter RELEASE through the transition routine. */
    method Stop()
      requires stateValue.Length == 5
      modifies this
      ensures Valid()
      ensures Snapshot() == Transition(old(Snapshot()).(state := Sustain), Config())
      ensures state == Release && currentStateIndex == 0
      ensures active == old(active)
    {
      state := Sustain;
      UpdateState();
    }

    /**
      parameterUpdate(id), called by the registry after it stored value v
      for parameter p. The cases fall through: every slot from p's own to
      RELEASE receives v.
     */
    method ParameterUpdate(p: Parameter, v: real)
      requires Valid()
      modifies stateValue
      ensures Valid()
      ensures stateValue[..] == FallThrough(old(stateValue[..]), p, v)
    {
      match p
      case AttackTime =>
        stateValue[Ordinal(Attack)] := v;
        stateValue[Ordinal(Decay)] := v;
        stateValue[Ordinal(Sustain)] := v;
        stateValue[Ordinal(Release)] := v;
      case DecayTime =>
        stateValue[Ordinal(Decay)] := v;
        stateValue[Ordinal(Sustain)] := v;
        stateValue[Ordinal(Release)] := v;
      case SustainLevel =>
        stateValue[Ordinal(Sustain)] := v;
        stateValue[Ordinal(Release)] := v;
      case ReleaseTime =>
        stateValue[Ordinal(Release)] := v;
    }

    method SetAttackTime(attackTime: real)
      requires Valid()
      modifies stateValue
      ensures Valid()
      ensures stateValue[..] == FallThrough(old(stateValue[..]), AttackTime, attackTime)
    {
      ParameterUpdate(AttackTime, attackTime);
    }

    method SetDecayTime(decayTime: real)
      requires Valid()
      modifies stateValue
      ensures Valid()
      ensures stateValue[..] == FallThrough(old(stateValue[..]), DecayTime, decayTime)
    {
      ParameterUpdate(DecayTime, decayTime);
    }

    /** setReleaseTime as written: it sets the DECAY parameter, not RELEASE. */
    method SetReleaseTime(releaseTime: real)
      requires Valid()
      modifies stateValue
      ensures Valid()
      ensures stateValue[..] == FallThrough(old(stateValue[..]), DecayTime, releaseTime)
    {
      ParameterUpdate(DecayTime, releaseTime);
    }

    method SetSustainLevel(level: real)
      requires Valid()
      modifies stateValue
      ensures Valid()
      ensures stateValue[..] == FallThrough(old(stateValue[..]), SustainLevel, level)
    {
      ParameterUpdate(SustainLevel, level);
    }

    /**
      setEnvelope: attack, decay, sustain, release, in that order. Because
      of the fall-through and of setReleaseTime writing DECAY, only the
      attack time survives in its own slot: DECAY, SUSTAIN and RELEASE all
      end up holding the release time.
     */
    method SetEnvelope(attackTime: real, decayTime: real, sustainLevel: real, releaseTime: real)
      requires Valid()
      modifies stateValue
      ensures Valid()
      ensures stateValue[..] == old(stateValue[..])[1 := attackTime][2 := releaseTime][3 := releaseTime][4 := releaseTime]
    {
      SetAttackTime(attackTime);
      SetDecayTime(decayTime);
      SetSustainLevel(sustainLevel);
      SetReleaseTime(releaseTime);
    }
  }
}
