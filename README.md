# TSAL synthesis engine: envelope state machine and channel routing

This project models two stateful parts of the TSAL real-time synthesis engine
and proves properties of them in Dafny.

- **The ADSR envelope** (`envelope.dfy`, module `Envelope`). It is a five-state
  machine OFF → ATTACK → DECAY → SUSTAIN → RELEASE → OFF. It shapes an
  instrument's amplitude one sample at a time. The class `Envelope` holds the
  fields the engine mutates in place: the state, the elapsed-sample counter,
  the segment length, the envelope value, the multiplier, and the array of
  per-state values. Each method is proved to follow a pure specification
  function: `Transition` for `updateState`, `Sample` for `getSample`, and
  `FallThrough` for `parameterUpdate`. Lemmas about those functions, and about
  `Run` (n consecutive `getSample` calls), give the properties: the cyclic
  order, the entry values, the counter reset, the output bound, that an
  indefinite state holds, and that a timed segment always ends.
- **The channel routing graph** (`channel.dfy`, module `Channel`). A `Channel`
  holds three groups as sequences: routed instruments, routed channels, and
  the effect chain. It also holds a nullable link to its parent channel.
  `Linked(world)` states the routing invariant over a set of channels: a
  listed channel points back to the channel listing it, so it is listed under
  at most one parent, and no channel is listed under itself. `AddChannel`,
  `RemoveChannel`, `SetParentChannel` and `Destroy` are proved to preserve it.

The model follows the code as written, including where it departs from what an ADSR envelope is usually taken to do:

- `parameterUpdate` has no `break`, so an update writes its own slot and every
  later slot.
- `setReleaseTime` sets the DECAY parameter, so `SetEnvelope` leaves the
  release time in the DECAY, SUSTAIN and RELEASE slots.
- RELEASE aims at the OFF slot's value, not at a fixed level near 0.
- ATTACK starts from the OFF slot's value. No parameter update ever writes
  that slot.
- In a timed state `getSample` applies the multiplier even on the call that
  transitions, and it uses the multiplier of the new state. When the new state
  is SUSTAIN, that is the old DECAY multiplier.

State enum values are taken as OFF=0, ATTACK=1, DECAY=2, SUSTAIN=3, RELEASE=4.
The `% 5` step in `updateState` and the comments in `start` and `stop` imply
this order.

## Model

| member | source | states |
|---|---|---|
| Envelope.Ordinal | src/Envelope.cpp:11 | the enum value of every state lies in 0..4 |
| Envelope.StateOf | src/Envelope.cpp:11 | casting an enum value 0..4 back gives the state with that value |
| Envelope.NextState | src/Envelope.cpp:11 | the next state's enum value is the current one plus 1, modulo 5 |
| Envelope.IsTimed | src/Envelope.cpp:97-99 | exactly ATTACK, DECAY and RELEASE are timed; OFF and SUSTAIN last indefinitely |
| Envelope.Min | src/Envelope.cpp:53 | the cap is at most both of its arguments and equal to one of them |
| Envelope.SlotOf | src/Envelope.cpp:152-163 | each parameter's own case writes one of slots 1..4, never slot OFF |
| Envelope.SegmentLength | src/Envelope.cpp:14 | the segment length is time × sample rate truncated to an unsigned integer: at most the product and within 1 of it |
| Envelope.FallThrough | src/Envelope.cpp:152-163 | an update falls through: every slot from the parameter's own up to RELEASE gets the value, and the slots before it, OFF included, are kept |
| Envelope.Transition | src/Envelope.cpp:10-34 | a transition enters the next state with counter 0. The length is time × rate for timed states and 0 for OFF/SUSTAIN. The entry value is 0 for OFF, slot OFF for ATTACK, 1.0 for DECAY and the sustain level for SUSTAIN; RELEASE keeps the current value. OFF and SUSTAIN keep the multiplier; a timed state's multiplier is computed from its entry value to its target (1.0, the sustain level, slot OFF) over its length |
| Envelope.Sample | src/Envelope.cpp:41-54 | one call returns at most 1.0. Inactive: returns 1.0 and changes nothing. OFF/SUSTAIN: nothing changes. Timed with counter ≥ length: exactly one transition, counter ends at 1. Otherwise the state is kept and the counter grows by 1. The counter stays within the segment length (or at 1) |
| Envelope.Run | src/Envelope.cpp:41-54 | n calls return n samples |
| Envelope.CyclicOrder | src/Envelope.cpp:11 | the states cycle OFF → ATTACK → DECAY → SUSTAIN → RELEASE → OFF, and five transitions return to the start |
| Envelope.RunNeverExceedsOne | src/Envelope.cpp:41-54 | every sample of every sequence of getSample calls is at most 1.0 |
| Envelope.InactiveRunPassesThrough | src/Envelope.cpp:42-44 | an inactive envelope returns exactly 1.0 on every call and never changes |
| Envelope.IndefiniteStateHolds | src/Envelope.cpp:45-53 | in OFF or SUSTAIN, any number of calls changes no field and returns the capped value each time |
| Envelope.SegmentCountsDown | src/Envelope.cpp:45-50 | inside a timed segment, k calls add k to the counter, multiply the value by multiplier^k, and keep the state |
| Envelope.RunSplit | src/Envelope.cpp:41-54 | k + 1 calls are k calls followed by one more |
| Envelope.SegmentEnds | src/Envelope.cpp:45-50 | a timed state always ends: after length − counter calls (none if the counter is already past the length) it is still in its state, and one more call moves it to the next state with counter 1 |
| Envelope.Envelope.StateIsTimed | src/Envelope.cpp:97-99 | true exactly when the current state is ATTACK, DECAY or RELEASE |
| Envelope.Envelope.UpdateState | src/Envelope.cpp:10-34 | the new fields are `Transition` of the old ones: the next state mod 5, with the counter at 0 |
| Envelope.Envelope.GetSample | src/Envelope.cpp:41-54 | follows `Sample` and returns at most 1.0. When inactive it returns 1.0 and changes nothing. In OFF/SUSTAIN nothing changes. In a timed state with counter ≥ length it makes exactly one transition and ends with counter 1; otherwise the state is kept and the counter grows by 1 |
| Envelope.Envelope.Start | src/Envelope.cpp:75-79 | whatever the prior state, ends in ATTACK with counter 0 by the transition from OFF |
| Envelope.Envelope.Stop | src/Envelope.cpp:85-88 | whatever the prior state, ends in RELEASE with counter 0 by the transition from SUSTAIN |
| Envelope.Envelope.ParameterUpdate | src/Envelope.cpp:152-163 | the state-value array becomes `FallThrough` of the old one |
| Envelope.Envelope.SetAttackTime | src/Envelope.cpp:121-123 | writes the attack time into slots ATTACK through RELEASE |
| Envelope.Envelope.SetDecayTime | src/Envelope.cpp:130-132 | writes the decay time into slots DECAY through RELEASE |
| Envelope.Envelope.SetReleaseTime | src/Envelope.cpp:139-141 | updates the DECAY parameter: writes the release time into slots DECAY through RELEASE |
| Envelope.Envelope.SetSustainLevel | src/Envelope.cpp:148-150 | writes the level into slots SUSTAIN and RELEASE |
| Envelope.Envelope.SetEnvelope | src/Envelope.cpp:109-114 | applies attack, decay, sustain, release in order. Slot ATTACK ends with the attack time, and DECAY, SUSTAIN and RELEASE end with the release time |
| Channel.Without | src/Channel.cpp:48-50 | removing an item leaves it absent. Removing an absent item changes nothing |
| Channel.WithoutMembers | src/Channel.cpp:48-50 | after a removal the group holds exactly the members other than the removed one |
| Channel.WithoutCounts | src/Channel.cpp:48-50 | a removal deletes every copy of the item and keeps every copy of every other member (multisets) |
| Channel.WithoutKeepsOrder | src/Channel.cpp:48-50 | a removal keeps the survivors in their order: removing from a concatenation removes from each part |
| Channel.SumOfAppend | src/Channel.cpp:57-60 | appending members to a group adds exactly their samples to the group's sum |
| Channel.CountIsMultiplicity | src/Channel.cpp:67-69 | the occurrence count used by the sum lemmas is the multiset multiplicity |
| Channel.CopiesIsProduct | src/Channel.cpp:67-69 | the total of n copies of a sample is n times the sample |
| Channel.SumOfWithout | src/Channel.cpp:67-69 | a removal takes exactly the removed member's sample, once per copy, out of the group's sum |
| Channel.SumOfWithoutAll | src/Channel.cpp:88-90 | the same, for every choice of per-member samples at once |
| Channel.SumOfAppendOne | src/Channel.cpp:57-60 | appending one member adds exactly its sample to the group's sum, for every choice of samples |
| Channel.MoveToEndSum | src/Channel.cpp:76-81 | re-adding a channel already in the group leaves its sample in the sum exactly once: its old copies leave and one is appended |
| Channel.Instrument.SetParentChannel | include/Instrument.hpp:25 | only the instrument's link and its old parent's routed instruments may change. The old parent, if any, drops the instrument, and its group's sum loses the instrument's sample once per copy; then the link is set |
| Channel.Effect.SetParentChannel | src/Channel.cpp:40 | the effect's link becomes the given channel; nothing else of it changes |
| Channel.Channel.constructor | src/Channel.cpp:6-9 | a new channel has no parent and empty groups, and it routes the instrument group then the channel group into the chain's input |
| Channel.Channel.ChainInput | src/Channel.cpp:6-9 | for a channel as constructed, the chain's input is the sum of every routed instrument's sample plus every routed channel's sample |
| Channel.Channel.GetOutput | src/Channel.cpp:27-32 | 0.0 whenever the channel is inactive; otherwise the effect chain's output times the amplitude |
| Channel.Channel.RemoveChannel | src/Channel.cpp:88-90 | only the routed channels change (the frame is that one field): the channel is taken out and the group's sum loses its sample once per copy. Its link is not reset. Preserves `Linked` |
| Channel.Channel.RemoveInstrument | src/Channel.cpp:67-69 | only the routed instruments change: the instrument is taken out and the group's sum loses its sample once per copy. Its link is not reset |
| Channel.Channel.RemoveEffect | src/Channel.cpp:48-50 | only the effect chain changes: the effect is taken out. Its link is not reset |
| Channel.Channel.SetParentChannel | src/Channel.cpp:16-20 | only this channel's link and the old parent's routed channels may change. The old parent, if any, drops this channel, and its group's sum loses this channel's sample; then the link is set. Preserves `Linked` |
| Channel.Channel.AddChannel | src/Channel.cpp:76-81 | only this channel's routed channels, the added channel's link and its old parent's routed channels may change. Adding a channel to itself changes none of them. Otherwise the channel leaves its old parent's group, links to this one and is appended; the group's sum gains its sample (after losing the copies it already held, if this was the old parent). `Linked` is preserved |
| Channel.Channel.AddInstrument | src/Channel.cpp:57-60 | only this channel's routed instruments, the instrument's link and its old parent's routed instruments may change. The instrument leaves its old parent's group, links to this channel and is appended; the group's sum gains its sample (after losing the copies it already held, if this was the old parent). Re-adding an instrument of this channel, or adding one not yet listed, leaves it listed exactly once |
| Channel.Channel.AddEffect | src/Channel.cpp:39-42 | only the effect chain and the effect's link change: it is linked to this channel and appended to the end of the chain |
| Channel.Channel.Destroy | src/Channel.cpp:11-14 | only the parent's routed channels may change: a channel with a parent is removed from them and their sum loses its sample. It is then listed nowhere in a linked world, and the rest stays linked. Its own fields and its children are untouched |
| Channel.AtMostOneParent | src/Channel.cpp:16-20 | in a linked world a channel is listed under at most one parent, and that parent is its link |
| Channel.Outputs | src/Channel.cpp:27-32 | the outputs of several channels are each channel's `getOutput` |
| Channel.InactiveChannelsAreSilent | src/Channel.cpp:27-32 | any number of inactive channels sum to 0.0, whatever their effect chains produce |

## Left out

- `calculateMultiplier` (src/Envelope.cpp:67-69) uses logarithms in floating point and may divide by a zero length. It is kept opaque: a function `multiplierOf(start, end, length)` that is fixed when the envelope is built.
- Doubles are modelled as exact reals. The value bound holds because of the explicit cap at 1.0, not because of any floating-point reasoning.
- The ParameterManager is not part of this model. That covers range clamping, the stored values, `getParameter`, and the rule that the hook fires only when a value changes. `ParameterUpdate` is given the value the registry holds.
- Envelope.Envelope.SetAttackTime: modelled as if the value were in range and different from the stored one, so the hook always fires with the value passed.
- Envelope.Envelope.SetDecayTime: the same assumption as SetAttackTime.
- Envelope.Envelope.SetReleaseTime: the same assumption as SetAttackTime.
- Envelope.Envelope.SetSustainLevel: the same assumption as SetAttackTime.
- Envelope.Envelope.SetEnvelope: the same assumption for each of its four updates. With change detection, an update whose value equals the stored one would write nothing.
- Envelope.Envelope.constructor: the initial field values are declared in Envelope.hpp, which is not part of this model. The constructor picks OFF, zero counters, value 0, multiplier 1, and the per-state values it is given.
- The counters are modelled as unbounded naturals, not 32-bit unsigned. `CounterInRange` shows that the counter never passes the segment length (or 1), so it cannot wrap. A time × rate product of 2^32 or more, or of −1 or less, has no defined conversion; the model takes a negative product as 0. A product between −1 and 0 truncates to 0, which is what the model gives.
- RoutingGroup and EffectChain are not part of this model. Removing takes out every occurrence of the item. Adding appends, and an item is not checked for being present already. The effect chain's output is an input to `GetOutput`.
- Channel.Instrument.SetParentChannel: Instrument.cpp is not part of this model; only the declaration of the override in include/Instrument.hpp is. The override is modelled on the channel's own (src/Channel.cpp:16-20): detach from the old parent's routed instruments, then set the link. The effect's `setParentChannel` is modelled as a plain assignment of the link.
- `Channel::setMixer` (src/Channel.cpp:22-25): the mixer pointers are not modelled.
- Rendering through child channels and instruments is not modelled; `Outputs` takes each chain's output as given. Cycles longer than a self-loop (A under B, B under A) are not rejected by the code and are not excluded here.
- Channel.Channel.Destroy: freeing the object is not modelled. A child whose parent is destroyed keeps a dangling link.
- Mixer (RtAudio device and stream handling, the sample callback), Sequencer (threads, mutex and condition variable), Oscillator (transcendental floating point) and the bubble-sort demo are outside this model.
- Concurrent `add`/`remove` against `getOutput` on the audio thread is not modelled; the model is single-threaded.
