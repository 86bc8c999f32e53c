/** Noticing a lost relay. */
module RelayLoss {
  import opened Basics

  // watchRelayLoss (mrcore/transport/syncthing_relay.go): a relay client, which never
  // says so, is no longer usable. Times are in milliseconds.

  /** One look at the client: whether its Serve has ended with an error, whether it
      is joined to a relay, and when. */
  datatype Poll = Poll(stopped: bool, joined: bool, now: int)

  /** There was no relay at any poll from j to i, and they are `grace` apart. */
  predicate Away(polls: seq<Poll>, j: nat, i: nat, grace: int)
    requires j <= i < |polls|
  {
    polls[i].now - polls[j].now >= grace && forall k :: j <= k <= i ==> !polls[k].joined
  }

  /** The client is lost at poll i: it has stopped, or has had no relay for long. */
  predicate Lost(polls: seq<Poll>, i: nat, grace: int)
    requires i < |polls|
  {
    polls[i].stopped || exists j :: 0 <= j <= i && Away(polls, j, i, grace)
  }

  predicate ClockRuns(polls: seq<Poll>) {
    forall i, j :: 0 <= i < j < |polls| ==> polls[i].now <= polls[j].now
  }

  /** The loss is reported at the first poll at which it is one, never sooner and
      never later; with none, the watch ends with its context. */
  method WatchRelayLoss(polls: seq<Poll>, grace: int) returns (reportedAt: Option<nat>)
    requires ClockRuns(polls)
    ensures match reportedAt
      case Some(i) => i < |polls| && Lost(polls, i, grace) && forall k :: 0 <= k < i ==> !Lost(polls, k, grace)
      case None => forall k :: 0 <= k < |polls| ==> !Lost(polls, k, grace)
  {
    var lostSince: Option<int> := None;
    ghost var first: nat := 0;
    for i := 0 to |polls|
      invariant forall k :: 0 <= k < i ==> !Lost(polls, k, grace)
      invariant lostSince.None? ==> i == 0 || polls[i - 1].joined
      invariant lostSince.Some? ==> first < i && polls[first].now == lostSince.value && (first > 0 ==> polls[first - 1].joined)
      invariant lostSince.Some? ==> forall k :: first <= k < i ==> !polls[k].joined
    {
      if polls[i].stopped {
        return Some(i);
      }
      if polls[i].joined {
        lostSince := None;
      } else {
        if lostSince.None? {
          lostSince := Some(polls[i].now);
          first := i;
        }
        if polls[i].now - lostSince.value >= grace {
          assert Away(polls, first, i, grace);
          return Some(i);
        }
      }
      StillThere(polls, i, grace, lostSince, first);
    }
    return None;
  }

  lemma StillThere(polls: seq<Poll>, i: nat, grace: int, lostSince: Option<int>, first: nat)
    requires ClockRuns(polls) && i < |polls| && !polls[i].stopped
    requires lostSince.None? ==> polls[i].joined
    requires lostSince.Some? ==> first <= i && polls[first].now == lostSince.value && (first > 0 ==> polls[first - 1].joined)
    requires lostSince.Some? ==> polls[i].now - lostSince.value < grace
    ensures !Lost(polls, i, grace)
  {
    forall j | 0 <= j <= i
      ensures !Away(polls, j, i, grace)
    {
      if lostSince.Some? && j < first {
        assert polls[first - 1].joined;
      } else if lostSince.Some? {
        assert j == first || polls[first].now <= polls[j].now;
      }
    }
  }
}
