/**
  The channel routing graph: a Channel mixes a group of routed
  instruments and a group of routed child channels into its effect chain,
  and keeps a non-owning link to the channel it is routed into.

  A group is modelled as the sequence of its members in insertion order;
  adding appends, removing takes the member out if it is there.
 */
module Channel {

  /** s with every occurrence of x taken out, the rest kept in order. */
  function Without<T(==)>(s: seq<T>, x: T): (r: seq<T>)
    ensures x !in r
    ensures x !in s ==> r == s
    decreases |s|
  {
    if s == [] then []
    else if s[0] == x then Without(s[1..], x)
    else [s[0]] + Without(s[1..], x)
  }

  /** What survives a removal: exactly the members other than x. */
  lemma {:induction false} WithoutMembers<T>(s: seq<T>, x: T)
    ensures forall y :: y in Without(s, x) <==> y in s && y != x
    decreases |s|
  {
    if s != [] {
      WithoutMembers(s[1..], x);
      assert forall y :: y in s <==> y == s[0] || y in s[1..];
    }
  }

  /** Removal deletes every copy of x and keeps every copy of everything else. */
  lemma {:induction false} WithoutCounts<T>(s: seq<T>, x: T)
    ensures multiset(Without(s, x)) == multiset(s)[x := 0]
    decreases |s|
  {
    if s != [] {
      assert s == [s[0]] + s[1..];
      WithoutCounts(s[1..], x);
    }
  }

  /**
    Removal keeps the order of what remains: taking x out of a concatenation
    takes it out of each part, so the survivors stay in their places
    relative to each other.
   */
  lemma {:induction false} WithoutKeepsOrder<T>(s: seq<T>, t: seq<T>, x: T)
    ensures Without(s + t, x) == Without(s, x) + Without(t, x)
    decreases |s|
  {
    if s != [] {
      assert (s + t)[0] == s[0] && (s + t)[1..] == s[1..] + t;
      WithoutKeepsOrder(s[1..], t, x);
      if s[0] == x {
        calc {
          Without(s + t, x);
          Without(s[1..] + t, x);
          Without(s[1..], x) + Without(t, x);
          Without(s, x) + Without(t, x);
        }
      } else {
        calc {
          Without(s + t, x);
          [s[0]] + Without(s[1..] + t, x);
          [s[0]] + (Without(s[1..], x) + Without(t, x));
          ([s[0]] + Without(s[1..], x)) + Without(t, x);
          Without(s, x) + Without(t, x);
        }
      }
    } else {
      assert s + t == t;
    }
  }

  /** The sum of one sample per member of a group. */
  function SumOf<T>(items: seq<T>, sample: T -> real): (total: real)
    decreases |items|
  {
    if items == [] then 0.0 else sample(items[0]) + SumOf(items[1..], sample)
  }

  /** Appending members to a group adds exactly their samples to its sum. */
  lemma {:induction false} SumOfAppend<T>(s: seq<T>, t: seq<T>, sample: T -> real)
    ensures SumOf(s + t, sample) == SumOf(s, sample) + SumOf(t, sample)
    decreases |s|
  {
    if s != [] {
      assert (s + t)[0] == s[0] && (s + t)[1..] == s[1..] + t;
      SumOfAppend(s[1..], t, sample);
    } else {
      assert s + t == t;
    }
  }

  /** The number of occurrences of x in s. */
  function Count<T(==)>(s: seq<T>, x: T): (n: nat)
    decreases |s|
  {
    if s == [] then 0 else (if s[0] == x then 1 else 0) + Count(s[1..], x)
  }

  /** Count agrees with the multiplicity of x in the multiset of s. */
  lemma {:induction false} CountIsMultiplicity<T>(s: seq<T>, x: T)
    ensures Count(s, x) == multiset(s)[x]
    decreases |s|
  {
    if s != [] {
      assert s == [s[0]] + s[1..];
      CountIsMultiplicity(s[1..], x);
    }
  }

  /** The total of n samples of value v. */
  function Copies(n: nat, v: real): (total: real)
    decreases n
  {
    if n == 0 then 0.0 else v + Copies(n - 1, v)
  }

  /** n samples of value v total n times v. */
  lemma {:induction false} CopiesIsProduct(n: nat, v: real)
    ensures Copies(n, v) == n as real * v
    decreases n
  {
    if n > 0 {
      CopiesIsProduct(n - 1, v);
      assert n as real * v == (n - 1) as real * v + v;
    }
  }

  /** Removing a member from a group takes exactly its samples (one per occurrence) out of the sum. */
  lemma {:induction false} SumOfWithout<T>(s: seq<T>, x: T, sample: T -> real)
    ensures SumOf(Without(s, x), sample) == SumOf(s, sample) - Copies(Count(s, x), sample(x))
    decreases |s|
  {
    if s != [] {
      SumOfWithout(s[1..], x, sample);
      if s[0] != x {
        assert ([s[0]] + Without(s[1..], x))[1..] == Without(s[1..], x);
      }
    }
  }

  /** SumOfWithout for every choice of samples at once. */
  lemma SumOfWithoutAll<T>(s: seq<T>, x: T)
    ensures forall sample: T -> real ::
              SumOf(Without(s, x), sample) == SumOf(s, sample) - Copies(Count(s, x), sample(x))
  {
    forall sample: T -> real
      ensures SumOf(Without(s, x), sample) == SumOf(s, sample) - Copies(Count(s, x), sample(x))
    {
      SumOfWithout(s, x, sample);
    }
  }

  /** SumOfAppend for one member and every choice of samples at once. */
  lemma SumOfAppendOne<T>(s: seq<T>, x: T)
    ensures forall sample: T -> real :: SumOf(s + [x], sample) == SumOf(s, sample) + sample(x)
  {
    forall sample: T -> real
      ensures SumOf(s + [x], sample) == SumOf(s, sample) + sample(x)
    {
      SumOfAppend(s, [x], sample);
    }
  }

  /**
    Routing a member again into a group that already holds it: its old
    copies leave, one copy is appended, so the sum holds its sample once.
   */
  lemma MoveToEndSum<T>(s: seq<T>, x: T, sample: T -> real)
    ensures SumOf(Without(s, x) + [x], sample) == SumOf(s, sample) - Copies(Count(s, x), sample(x)) + sample(x)
  {
    SumOfAppend(Without(s, x), [x], sample);
    SumOfWithout(s, x, sample);
  }

  /** The two groups a channel sums into the input of its effect chain. */
  datatype Group = RoutedInstruments | RoutedChannels

  /** An instrument: only its link to the channel it is routed into is modelled. */
  class Instrument {
    var parentChannel: Channel?

    constructor ()
      ensures parentChannel == null
    {
      parentChannel := null;
    }

    /**
      setParentChannel, modelled on the channel's own override: detach from
      the current parent, if any, by removing this instrument from its routed
      instruments, then link to the new one. The old parent's sum loses this
      instrument's sample once per copy; nothing else of it changes.
     */
    method SetParentChannel(channel: Channel?)
      modifies this`parentChannel, (if parentChannel != null then {parentChannel} else {})`routedInstruments
      ensures parentChannel == channel
      ensures old(parentChannel) != null ==>
                old(parentChannel).routedInstruments == Without(old(parentChannel.routedInstruments), this)
      ensures old(parentChannel) != null ==> forall fi: Instrument -> real ::
                SumOf(old(parentChannel).routedInstruments, fi)
                == SumOf(old(parentChannel.routedInstruments), fi) - Copies(Count(old(parentChannel.routedInstruments), this), fi(this))
    {
      if parentChannel != null {
        parentChannel.RemoveInstrument(this);
      }
      parentChannel := channel;
    }
  }

  /** An effect: only its link to the channel whose chain holds it is modelled. */
  class Effect {
    var parentChannel: Channel?

    constructor ()
      ensures parentChannel == null
    {
      parentChannel := null;
    }

    method SetParentChannel(channel: Channel?)
      modifies this`parentChannel
      ensures parentChannel == channel
    {
      parentChannel := channel;
    }
  }

  class Channel {
    var active: bool
    var amp: real
    var parentChannel: Channel?
    var routedInstruments: seq<Instrument>
    var routedChannels: seq<Channel>
    var effectChain: seq<Effect>
    /** The groups summed, in this order, into the input of the effect chain. */
    const channelIn: seq<Group>

    /** A new channel: no parent, empty groups, both groups routed into the chain's input. */
    constructor (active: bool, amp: real)
      ensures parentChannel == null
      ensures routedInstruments == [] && routedChannels == [] && effectChain == []
      ensures channelIn == [RoutedInstruments, RoutedChannels]
      ensures this.active == active && this.amp == amp
    {
      this.active, this.amp := active, amp;
      parentChannel := null;
      routedInstruments, routedChannels, effectChain := [], [], [];
      channelIn := [RoutedInstruments, RoutedChannels];
    }

    /** The channel as built by its constructor: both groups feed the chain's input. */
    predicate RoutesBothGroups()
    {
      channelIn == [RoutedInstruments, RoutedChannels]
    }

    /**
      The input of the effect chain for one sample, given the sample each
      routed instrument and each routed channel produces: every group routed
      into the chain's input contributes the samples of its members.
     */
    function ChainInput(instrumentSample: Instrument -> real, channelSample: Channel -> real): (r: real)
      reads this
      ensures RoutesBothGroups() ==>
                r == SumOf(routedInstruments, instrumentSample) + SumOf(routedChannels, channelSample)
    {
      var a, b := SumOf(routedInstruments, instrumentSample), SumOf(routedChannels, channelSample);
      assert [RoutedInstruments, RoutedChannels][1..] == [RoutedChannels];
      assert [RoutedChannels][1..] == [];
      GroupsSum(channelIn, a, b)
    }

    /**
      getOutput, given what the effect chain produces for this sample (the
      effect chain itself is not part of this model): silence when the
      channel is inactive, whatever its children do, and otherwise the chain's
      output scaled by the channel's amplitude.
     */
    function GetOutput(chainOutput: real): (r: real)
      reads this
      ensures !active ==> r == 0.0
      ensures active ==> r == chainOutput * amp
    {
      if !active then 0.0 else chainOutput * amp
    }

    /**
      remove(Channel): take the channel out of the routed channels; nothing
      else changes, the group's sum loses the channel's sample once per copy,
      and a linked world stays linked.
     */
    method RemoveChannel(channel: Channel, ghost world: set<Channel>)
      modifies this`routedChannels
      ensures routedChannels == Without(old(routedChannels), channel)
      ensures routedInstruments == old(routedInstruments) && effectChain == old(effectChain)
      ensures parentChannel == old(parentChannel) && active == old(active) && amp == old(amp)
      ensures forall fc: Channel -> real ::
                SumOf(routedChannels, fc) == SumOf(old(routedChannels), fc) - Copies(Count(old(routedChannels), channel), fc(channel))
      ensures old(Linked(world)) ==> Linked(world)
    {
      SumOfWithoutAll(routedChannels, channel);
      WithoutMembers(routedChannels, channel);
      routedChannels := Without(routedChannels, channel);
      if old(Linked(world)) {
        forall p, c | p in world && c in p.routedChannels
          ensures c in world && c.parentChannel == p && c != p
        {
          assert c in old(p.routedChannels);
        }
      }
    }

    /**
      remove(Instrument): take the instrument out of the routed instruments;
      its link is not reset, and the group's sum loses its sample once per copy.
     */
    method RemoveInstrument(instrument: Instrument)
      modifies this`routedInstruments
      ensures routedInstruments == Without(old(routedInstruments), instrument)
      ensures routedChannels == old(routedChannels) && effectChain == old(effectChain)
      ensures parentChannel == old(parentChannel) && active == old(active) && amp == old(amp)
      ensures forall fi: Instrument -> real ::
                SumOf(routedInstruments, fi) == SumOf(old(routedInstruments), fi) - Copies(Count(old(routedInstruments), instrument), fi(instrument))
    {
      SumOfWithoutAll(routedInstruments, instrument);
      routedInstruments := Without(routedInstruments, instrument);
    }

    /** remove(Effect): take the effect out of the chain; its link is not reset. */
    method RemoveEffect(effect: Effect)
      modifies this`effectChain
      ensures effectChain == Without(old(effectChain), effect)
      ensures routedInstruments == old(routedInstruments) && routedChannels == old(routedChannels)
      ensures parentChannel == old(parentChannel) && active == old(active) && amp == old(amp)
    {
      effectChain := Without(effectChain, effect);
    }

    /**
      setParentChannel: detach from the current parent, if any, by removing
      this channel from its routed channels, then link to the new one.
     */
    method SetParentChannel(channel: Channel?, ghost world: set<Channel>)
      modifies this`parentChannel, (if parentChannel != null then {parentChannel} else {})`routedChannels
      ensures parentChannel == channel
      ensures old(parentChannel) != null ==>
                old(parentChannel).routedChannels == Without(old(parentChannel.routedChannels), this)
      ensures old(parentChannel) != this ==> routedChannels == old(routedChannels)
      ensures routedInstruments == old(routedInstruments) && effectChain == old(effectChain)
      ensures active == old(active) && amp == old(amp)
      ensures old(parentChannel) != null ==>
                && old(parentChannel).routedInstruments == old(parentChannel.routedInstruments)
                && old(parentChannel).effectChain == old(parentChannel.effectChain)
                && old(parentChannel).active == old(parentChannel.active)
                && old(parentChannel).amp == old(parentChannel.amp)
                && (old(parentChannel) != this ==> old(parentChannel).parentChannel == old(parentChannel.parentChannel))
      ensures old(parentChannel) != null ==> forall fc: Channel -> real ::
                SumOf(old(parentChannel).routedChannels, fc)
                == SumOf(old(parentChannel.routedChannels), fc) - Copies(Count(old(parentChannel.routedChannels), this), fc(this))
      ensures old(Linked(world)) && this in world ==> Linked(world)
    {
      if parentChannel != null {
        parentChannel.RemoveChannel(this, world);
        WithoutMembers(old(parentChannel.routedChannels), this);
      }
      parentChannel := channel;
      if old(Linked(world)) && this in world {
        forall p, c | p in world && c in p.routedChannels
          ensures c in world && c.parentChannel == p && c != p
        {
          if p != old(parentChannel) {
            assert p.routedChannels == old(p.routedChannels);
          }
          assert c in old(p.routedChannels) && c != this;
        }
      }
    }

    /**
      add(Channel): route another channel into this one. Routing a channel
      into itself is refused and changes nothing; otherwise the channel is
      detached from its old parent, linked to this one, and appended, so the
      group's sum gains its sample (after losing the copies it already held).
     */
    method AddChannel(channel: Channel, ghost world: set<Channel>)
      modifies this`routedChannels, channel`parentChannel
      modifies (if channel.parentChannel != null then {channel.parentChannel} else {})`routedChannels
      ensures channel == this ==> routedChannels == old(routedChannels) && parentChannel == old(parentChannel)
      ensures channel == this && old(parentChannel) != null ==>
                old(parentChannel).routedChannels == old(parentChannel.routedChannels)
      ensures channel != this ==> channel.parentChannel == this
      ensures channel != this ==>
                routedChannels == (if old(channel.parentChannel) == this
                                   then Without(old(routedChannels), channel)
                                   else old(routedChannels)) + [channel]
      ensures channel != this && old(channel.parentChannel) != null && old(channel.parentChannel) != this ==>
                old(channel.parentChannel).routedChannels == Without(old(channel.parentChannel.routedChannels), channel)
      ensures routedInstruments == old(routedInstruments) && effectChain == old(effectChain)
      ensures active == old(active) && amp == old(amp)
      ensures channel != this ==> parentChannel == old(parentChannel)
      ensures channel != this ==>
                && channel.routedInstruments == old(channel.routedInstruments)
                && channel.effectChain == old(channel.effectChain)
                && channel.active == old(channel.active) && channel.amp == old(channel.amp)
      ensures channel != this ==> forall fc: Channel -> real ::
                SumOf(routedChannels, fc)
                == SumOf(old(routedChannels), fc)
                   - (if old(channel.parentChannel) == this then Copies(Count(old(routedChannels), channel), fc(channel)) else 0.0)
                   + fc(channel)
      ensures old(Linked(world)) && this in world && channel in world ==> Linked(world)
    {
      if channel != this {
        channel.SetParentChannel(this, world);
        label detached:
        SumOfAppendOne(routedChannels, channel);
        routedChannels := routedChannels + [channel];
        if old(Linked(world)) && this in world && channel in world {
          forall p, c | p in world && c in p.routedChannels
            ensures c in world && c.parentChannel == p && c != p
          {
            if c != channel {
              assert c in old@detached(p.routedChannels);
            }
          }
        }
      }
    }

    /**
      add(Instrument): detach the instrument from its old parent and link it
      to this channel, then append it to the routed instruments. If this
      channel was its parent, its old copies leave first, so it is listed
      once; the group's sum gains its sample (after losing those copies).
     */
    method AddInstrument(instrument: Instrument)
      modifies this`routedInstruments, instrument`parentChannel
      modifies (if instrument.parentChannel != null then {instrument.parentChannel} else {})`routedInstruments
      ensures instrument.parentChannel == this
      ensures routedInstruments == (if old(instrument.parentChannel) == this
                                    then Without(old(routedInstruments), instrument)
                                    else old(routedInstruments)) + [instrument]
      ensures old(instrument.parentChannel) != null && old(instrument.parentChannel) != this ==>
                old(instrument.parentChannel).routedInstruments
                == Without(old(instrument.parentChannel.routedInstruments), instrument)
      ensures old(instrument.parentChannel) == this || instrument !in old(routedInstruments) ==>
                Count(routedInstruments, instrument) == 1
      ensures routedChannels == old(routedChannels) && effectChain == old(effectChain)
      ensures parentChannel == old(parentChannel) && active == old(active) && amp == old(amp)
      ensures forall fi: Instrument -> real ::
                SumOf(routedInstruments, fi)
                == SumOf(old(routedInstruments), fi)
                   - (if old(instrument.parentChannel) == this
                      then Copies(Count(old(routedInstruments), instrument), fi(instrument)) else 0.0)
                   + fi(instrument)
    {
      instrument.SetParentChannel(this);
      SumOfAppendOne(routedInstruments, instrument);
      routedInstruments := routedInstruments + [instrument];
      CountIsMultiplicity(routedInstruments, instrument);
    }

    /** add(Effect): link the effect to this channel, then append it to the end of the chain. */
    method AddEffect(effect: Effect)
      modifies this`effectChain, effect`parentChannel
      ensures effect.parentChannel == this
      ensures effectChain == old(effectChain) + [effect]
      ensures routedInstruments == old(routedInstruments) && routedChannels == old(routedChannels)
      ensures parentChannel == old(parentChannel) && active == old(active) && amp == old(amp)
    {
      effect.SetParentChannel(this);
      effectChain := effectChain + [effect];
    }

    /**
      The destructor: a channel with a parent removes itself from the
      parent's routed channels. Its own groups and its children's links are
      left as they are.
     */
    method Destroy(ghost world: set<Channel>)
      modifies (if parentChannel != null then {parentChannel} else {})`routedChannels
      ensures parentChannel != null ==>
                parentChannel.routedChannels == Without(old(parentChannel.routedChannels), this)
      ensures parentChannel == old(parentChannel) && routedInstruments == old(routedInstruments)
      ensures effectChain == old(effectChain) && active == old(active) && amp == old(amp)
      ensures parentChannel != null ==>
                && parentChannel.routedInstruments == old(parentChannel.routedInstruments)
                && parentChannel.effectChain == old(parentChannel.effectChain)
                && parentChannel.parentChannel == old(parentChannel.parentChannel)
                && parentChannel.active == old(parentChannel.active) && parentChannel.amp == old(parentChannel.amp)
      ensures forall c :: c in old(routedChannels) ==> c.parentChannel == old(c.parentChannel)
      ensures parentChannel != null ==> forall fc: Channel -> real ::
                SumOf(parentChannel.routedChannels, fc)
                == SumOf(old(parentChannel.routedChannels), fc) - Copies(Count(old(parentChannel.routedChannels), this), fc(this))
      ensures old(Linked(world)) ==> forall p :: p in world ==> this !in p.routedChannels
      ensures old(Linked(world)) ==> Linked(world - {this})
    {
      if parentChannel != null {
        parentChannel.RemoveChannel(this, world);
        WithoutMembers(old(parentChannel.routedChannels), this);
      }
      if old(Linked(world)) {
        forall p | p in world
          ensures this !in p.routedChannels
        {
          if p != parentChannel {
            assert p.routedChannels == old(p.routedChannels);
          }
        }
        forall p, c | p in world - {this} && c in p.routedChannels
          ensures c in world - {this} && c.parentChannel == p && c != p
        {
          assert c in old(p.routedChannels);
        }
      }
    }
  }

  /** The sum over the listed groups, given the total of each group's samples. */
  function GroupsSum(groups: seq<Group>, instrumentTotal: real, channelTotal: real): (total: real)
    decreases |groups|
  {
    if groups == [] then 0.0
    else
      (match groups[0]
       case RoutedInstruments => instrumentTotal
       case RoutedChannels => channelTotal)
      + GroupsSum(groups[1..], instrumentTotal, channelTotal)
  }

  /**
    The routing invariant over a set of channels: a channel listed under p
    has p as its parent (so it is listed under at most one parent), and no
    channel is listed under itself.
   */
  ghost predicate Linked(world: set<Channel>)
    reads world
  {
    && (forall p, c :: p in world && c in p.routedChannels ==> c in world)
    && (forall p, c :: p in world && c in p.routedChannels ==> c.parentChannel == p && c != p)
  }

  /** A channel listed under two parents of a linked world has one parent only. */
  lemma AtMostOneParent(world: set<Channel>, p: Channel, q: Channel, c: Channel)
    requires Linked(world) && p in world && q in world
    requires c in p.routedChannels && c in q.routedChannels
    ensures p == q && c.parentChannel == p
  {
    assert c.parentChannel == p;
    assert c.parentChannel == q;
  }

  /** The outputs of a sequence of channels, each given what its effect chain produces. */
  function Outputs(channels: seq<Channel>, chainOutputs: seq<real>): (r: seq<real>)
    requires |channels| == |chainOutputs|
    reads channels
    ensures |r| == |channels|
    ensures forall i :: 0 <= i < |r| ==> r[i] == channels[i].GetOutput(chainOutputs[i])
    decreases |channels|
  {
    if channels == [] then []
    else [channels[0].GetOutput(chainOutputs[0])] + Outputs(channels[1..], chainOutputs[1..])
  }

  /** Summing any number of inactive channels gives silence, whatever their effect chains produce. */
  lemma {:induction false} InactiveChannelsAreSilent(channels: seq<Channel>, chainOutputs: seq<real>)
    requires |channels| == |chainOutputs|
    requires forall i :: 0 <= i < |channels| ==> !channels[i].active
    ensures SumOf(Outputs(channels, chainOutputs), (x: real) => x) == 0.0
    decreases |channels|
  {
    if channels != [] {
      InactiveChannelsAreSilent(channels[1..], chainOutputs[1..]);
    }
  }
}
