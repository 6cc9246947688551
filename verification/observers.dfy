/**
 * Observer sets as the state machine and the game state keep them: an
 * insertion-ordered set of observers, and a notification that calls every
 * member once, in that order.
 *
 * Observers are identified by a number; what an observer does when called
 * is outside the model, so a notification is recorded as the list of calls
 * it makes.
 */
module Observers {

  /** The identity of a subscribed observer object. */
  type ObserverId = nat

  /** One callback invocation: which observer was called with which event. */
  datatype Call<E> = Call(observer: ObserverId, event: E)

  /** Each element occurs once, as in a `Set`. */
  predicate NoDuplicates<T(==)>(xs: seq<T>)
  {
    forall i, j :: 0 <= i < j < |xs| ==> xs[i] != xs[j]
  }

  /** `Set.add`: a new member goes to the end; a present one changes nothing. */
  function Subscribed(obs: seq<ObserverId>, o: ObserverId): seq<ObserverId>
  {
    if o in obs then obs else obs + [o]
  }

  /** `Set.delete`: the member is removed, the others keep their order. */
  function Unsubscribed(obs: seq<ObserverId>, o: ObserverId): seq<ObserverId>
  {
    if |obs| == 0 then []
    else (if obs[0] == o then [] else [obs[0]]) + Unsubscribed(obs[1..], o)
  }

  /** The calls a notification makes: each observer in order, with the same event. */
  function Announce<E>(obs: seq<ObserverId>, e: E): seq<Call<E>>
  {
    seq(|obs|, i requires 0 <= i < |obs| => Call(obs[i], e))
  }

  /**
   * Subscribing keeps the set a set, makes `o` a member and adds nothing
   * else; subscribing twice has no further effect.
   */
  lemma SubscribedMeaning(obs: seq<ObserverId>, o: ObserverId)
    requires NoDuplicates(obs)
    ensures NoDuplicates(Subscribed(obs, o))
    ensures forall x :: x in Subscribed(obs, o) <==> x in obs || x == o
    ensures |Subscribed(obs, o)| == if o in obs then |obs| else |obs| + 1
    ensures Subscribed(Subscribed(obs, o), o) == Subscribed(obs, o)
  {
  }

  /**
   * Unsubscribing removes exactly `o`: every other member stays, the order is
   * kept, the set stays a set and shrinks by one when `o` was a member.
   */
  lemma {:induction false} UnsubscribedMeaning(obs: seq<ObserverId>, o: ObserverId)
    requires NoDuplicates(obs)
    ensures NoDuplicates(Unsubscribed(obs, o))
    ensures forall x :: x in Unsubscribed(obs, o) <==> x in obs && x != o
    ensures |Unsubscribed(obs, o)| == if o in obs then |obs| - 1 else |obs|
    ensures o !in obs ==> Unsubscribed(obs, o) == obs
  {
    if |obs| > 0 {
      var rest := obs[1..];
      assert NoDuplicates(rest);
      UnsubscribedMeaning(rest, o);
      assert obs == [obs[0]] + rest;
      assert obs[0] !in rest;
      var r := Unsubscribed(obs, o);
      if obs[0] != o {
        assert r == [obs[0]] + Unsubscribed(rest, o);
        assert obs[0] !in Unsubscribed(rest, o);
        forall i, j | 0 <= i < j < |r|
          ensures r[i] != r[j]
        {
          if i > 0 {
            assert r[i] == Unsubscribed(rest, o)[i - 1] && r[j] == Unsubscribed(rest, o)[j - 1];
          } else {
            assert r[j] in Unsubscribed(rest, o);
          }
        }
      } else {
        assert o !in rest;
      }
    }
  }

  /** After an unsubscribe, a notification makes no call to the removed observer. */
  lemma UnsubscribedNotCalled<E>(obs: seq<ObserverId>, o: ObserverId, e: E)
    requires NoDuplicates(obs)
    ensures forall k :: 0 <= k < |Announce(Unsubscribed(obs, o), e)| ==> Announce(Unsubscribed(obs, o), e)[k].observer != o
  {
    UnsubscribedMeaning(obs, o);
  }

  /**
   * A notification calls each member exactly once with the event, and makes
   * no call to an observer that is not a member.
   */
  lemma AnnouncedOnce<E>(obs: seq<ObserverId>, e: E, o: ObserverId)
    requires NoDuplicates(obs)
    ensures |Announce(obs, e)| == |obs|
    ensures forall k :: 0 <= k < |obs| ==> Announce(obs, e)[k].event == e
    ensures o in obs ==>
      exists k :: 0 <= k < |obs| && Announce(obs, e)[k] == Call(o, e) &&
        forall l :: 0 <= l < |obs| && Announce(obs, e)[l].observer == o ==> l == k
    ensures o !in obs ==> forall k :: 0 <= k < |obs| ==> Announce(obs, e)[k].observer != o
  {
    if o in obs {
      var k :| 0 <= k < |obs| && obs[k] == o;
      assert Announce(obs, e)[k] == Call(o, e);
    }
  }
}
