/**
 * The layer membership of a three.js object. The library keeps it as a
 * 32-bit mask, one bit per channel; here it is the set of channels whose
 * bit is set. `toggle` flips one bit (a symmetric difference with one
 * channel) and `test` asks whether two masks share a channel.
 */
module Layers {

  /** A channel number: one bit of the 32-bit mask. */
  type Channel = c: nat | c < 32

  /** The channel that marks an object as a bloom member (`BLOOM_SCENE`). */
  const BloomScene: Channel := 1

  /** The channels whose bit is set in an object's mask. */
  type Layers = set<Channel>

  /** A new object belongs to channel 0 only (mask 1). */
  const Default: Layers := {0}

  /** `layers.set(channel)`: the mask becomes that one bit. */
  function Set(channel: Channel): (r: Layers)
    ensures channel in r && |r| == 1
  {
    {channel}
  }

  /** `layers.toggle(channel)`: the mask XOR that one bit. */
  function Toggle(l: Layers, channel: Channel): (r: Layers)
    ensures channel in r <==> channel !in l
    ensures r - {channel} == l - {channel}
  {
    if channel in l then l - {channel} else l + {channel}
  }

  /** `layers.test(other)`: the two masks have a bit in common. */
  predicate Test(l: Layers, other: Layers): (r: bool)
    ensures r <==> exists c :: c in l && c in other
  {
    SharedChannel(l, other);
    l * other != {}
  }

  /** Two masks intersect exactly when some channel is in both. */
  lemma SharedChannel(l: Layers, other: Layers)
    ensures l * other != {} <==> exists c :: c in l && c in other
  {
    if l * other != {} {
      var c :| c in l * other;
    } else {
      forall c | c in l ensures c !in other {
        assert c !in l * other;
      }
    }
  }

  /** The layer set the compositor tests objects against (`bloomLayer`). */
  const BloomLayer: Layers := Set(BloomScene)

  /** An object is on the bloom layer exactly when its bloom bit is set. */
  predicate OnBloomLayer(l: Layers)
  {
    Test(BloomLayer, l)
  }

  /** Testing against the bloom layer is membership of the bloom channel. */
  lemma OnBloomLayerIsBloomBit(l: Layers)
    ensures OnBloomLayer(l) <==> BloomScene in l
  {
    if BloomScene in l {
      assert BloomScene in BloomLayer * l;
    }
  }

  /** Toggling the bloom bit flips bloom-layer membership. */
  lemma ToggleFlipsBloom(l: Layers)
    ensures OnBloomLayer(Toggle(l, BloomScene)) == !OnBloomLayer(l)
  {
    OnBloomLayerIsBloomBit(l);
    OnBloomLayerIsBloomBit(Toggle(l, BloomScene));
  }

  /** Toggling the same channel twice restores the mask. */
  lemma ToggleTwice(l: Layers, channel: Channel)
    ensures Toggle(Toggle(l, channel), channel) == l
  {
  }
}
