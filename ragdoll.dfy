/**
 * The ragdoll mod (RagdollRedemption2.cs): once per tick it reads the
 * player's health and, when the health fell by at least 20 since the
 * previous tick, knocks the player over. The difference is taken in 32-bit
 * C# `int` arithmetic, which wraps around on overflow.
 */
module Ragdoll {

  const RagdollDamageThreshold: int := 20
  const TwoTo31: int := 0x8000_0000
  const TwoTo32: int := 0x1_0000_0000

  /** The request the mod sends: SET_PED_TO_RAGDOLL with both durations 5000 ms and ragdoll type 0. */
  datatype RagdollCall = SetPedToRagdoll(timeMin: int, timeMax: int, ragdollType: int)

  const KnockOver: RagdollCall := SetPedToRagdoll(5000, 5000, 0)

  predicate IsInt32(v: int) {
    -TwoTo31 <= v < TwoTo31
  }

  /** `v` reduced to a C# `int` as unchecked arithmetic does: the value congruent to `v` modulo 2^32 in the Int32 range. */
  function WrapInt32(v: int): (r: int)
    ensures IsInt32(r)
    ensures IsInt32(v) ==> r == v
    ensures (v - r) % TwoTo32 == 0
  {
    (v + TwoTo31) % TwoTo32 - TwoTo31
  }

  /** The test `_previousPlayerHealth - currentPlayerHealth >= RagdollDamageThreshold`, with the Int32 subtraction. */
  predicate ShouldRagdoll(previousPlayerHealth: int, currentPlayerHealth: int) {
    WrapInt32(previousPlayerHealth - currentPlayerHealth) >= RagdollDamageThreshold
  }

  /**
   * For health values the game reports (not negative), the subtraction
   * cannot overflow, and the player is knocked over exactly when the health
   * fell by 20 or more; so health that stays the same or rises never
   * knocks the player over.
   */
  lemma RagdollOnDrop(previousPlayerHealth: int, currentPlayerHealth: int)
    requires 0 <= previousPlayerHealth < TwoTo31 && 0 <= currentPlayerHealth < TwoTo31
    ensures ShouldRagdoll(previousPlayerHealth, currentPlayerHealth) <==> previousPlayerHealth - currentPlayerHealth >= RagdollDamageThreshold
    ensures currentPlayerHealth >= previousPlayerHealth ==> !ShouldRagdoll(previousPlayerHealth, currentPlayerHealth)
  {
  }

  /**
   * On the first tick the stored health is the field's default 0, so the
   * player is knocked over only when the health read is -20 or less, and
   * not for the lowest Int32, where `0 - health` overflows to itself.
   */
  lemma FirstTick(currentPlayerHealth: int)
    requires IsInt32(currentPlayerHealth)
    ensures ShouldRagdoll(0, currentPlayerHealth) <==> -TwoTo31 < currentPlayerHealth <= -RagdollDamageThreshold
  {
    if currentPlayerHealth == -TwoTo31 {
      assert WrapInt32(TwoTo31) == -TwoTo31;
    }
  }

  /**
   * Outside the health values the game reports, the wrap-around shows: from
   * the lowest Int32 to a health almost as high, the health rises, yet the
   * difference wraps to a positive 100 and the player is knocked over.
   */
  lemma WrapAroundRise()
    ensures var previous, current := -TwoTo31, TwoTo31 - 100;
      IsInt32(previous) && IsInt32(current) && current > previous && ShouldRagdoll(previous, current)
  {
    assert WrapInt32(-TwoTo31 - (TwoTo31 - 100)) == 100;
  }

  class RagdollRedemption2 {
    var previousPlayerHealth: int
    /** The ragdoll requests sent to the host, in order. */
    ghost var ragdollCalls: seq<RagdollCall>

    /** The stored health is an Int32. */
    ghost predicate Valid()
      reads this`previousPlayerHealth
    {
      IsInt32(previousPlayerHealth)
    }

    /** The stored health starts at 0 and nothing has been requested. */
    constructor ()
      ensures Valid() && previousPlayerHealth == 0 && ragdollCalls == []
    {
      previousPlayerHealth := 0;
      ragdollCalls := [];
    }

    /**
     * One tick, with the player's health as the host reports it: at most one
     * knock-over request, sent exactly when ShouldRagdoll holds, and the
     * stored health becomes the health just read.
     */
    method OnTick(currentPlayerHealth: int) returns (ragdolled: bool)
      requires Valid() && IsInt32(currentPlayerHealth)
      modifies this
      ensures Valid() && previousPlayerHealth == currentPlayerHealth
      ensures ragdolled == ShouldRagdoll(old(previousPlayerHealth), currentPlayerHealth)
      ensures ragdollCalls == old(ragdollCalls) + (if ragdolled then [KnockOver] else [])
    {
      ragdolled := WrapInt32(previousPlayerHealth - currentPlayerHealth) >= RagdollDamageThreshold;
      if ragdolled {
        ragdollCalls := ragdollCalls + [KnockOver];
      }
      previousPlayerHealth := currentPlayerHealth;
    }
  }
}
