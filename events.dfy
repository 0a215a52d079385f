/// The application event queue of src/events.rs: a first-in first-out queue
/// of events handed from the emulator to the user interface.
module Events {
  import opened Tools

  /// `AppEvent`; the emulator's own event type is a parameter of the queue.
  datatype AppEvent<E> = Nes(event: E) | Exit

  /// `AppEventQueue`, its `VecDeque` held as the sequence front to back.
  class AppEventQueue<E> {
    var queue: seq<AppEvent<E>>

    /// `new`: an empty queue.
    constructor ()
      ensures queue == []
    {
      queue := [];
    }

    /// `len`: the number of queued events.
    function Len(): (n: nat)
      reads this
      ensures n == |queue|
    {
      |queue|
    }

    /// `is_empty`: no event is queued.
    predicate IsEmpty()
      reads this
      ensures IsEmpty() <==> Len() == 0
      ensures IsEmpty() <==> queue == []
    {
      Len() == 0
    }

    /// `push`: append at the back.
    method Push(event: AppEvent<E>)
      modifies this
      ensures queue == old(queue) + [event]
      ensures Len() == old(Len()) + 1
    {
      queue := queue + [event];
    }

    /// `pull`: remove and return the front event, or None when empty.
    method Pull() returns (r: Option<AppEvent<E>>)
      modifies this
      ensures r == Front(old(queue))
      ensures queue == Rest(old(queue))
    {
      if queue == [] {
        r := None;
      } else {
        r := Some(queue[0]);
        queue := queue[1..];
      }
    }
  }

  /// The event a pull returns from a queue holding `q`.
  function Front<E>(q: seq<AppEvent<E>>): (r: Option<AppEvent<E>>)
    ensures r.None? <==> q == []
    ensures r.Some? ==> r.value == q[0]
  {
    if q == [] then None else Some(q[0])
  }

  /// The queue a pull leaves behind.
  function Rest<E>(q: seq<AppEvent<E>>): (r: seq<AppEvent<E>>)
    ensures q == [] ==> r == []
    ensures q != [] ==> [q[0]] + r == q
  {
    if q == [] then [] else q[1..]
  }

  /// The events that `n` successive pulls return, in order.
  function PullMany<E>(q: seq<AppEvent<E>>, n: nat): (r: seq<Option<AppEvent<E>>>)
    ensures |r| == n
  {
    if n == 0 then [] else [Front(q)] + PullMany(Rest(q), n - 1)
  }

  /// First in, first out: pulling as many times as events were pushed onto
  /// a queue holding `q` first returns `q`'s events and then the pushed
  /// ones, each exactly once and in push order; one pull more finds the
  /// queue empty.
  lemma {:induction false} PulledInPushOrder<E>(q: seq<AppEvent<E>>, pushed: seq<AppEvent<E>>)
    ensures var r := PullMany(q + pushed, |q| + |pushed| + 1);
      (forall i | 0 <= i < |q| :: r[i] == Some(q[i])) &&
      (forall i | 0 <= i < |pushed| :: r[|q| + i] == Some(pushed[i])) &&
      r[|q| + |pushed|] == None
  {
    var all := q + pushed;
    PullManyAt(all, |all| + 1);
  }

  lemma {:induction false} PullManyAt<E>(q: seq<AppEvent<E>>, n: nat)
    ensures forall i | 0 <= i < n :: PullMany(q, n)[i] == (if i < |q| then Some(q[i]) else None)
  {
    if n > 0 {
      PullManyAt(Rest(q), n - 1);
      forall i | 0 <= i < n
        ensures PullMany(q, n)[i] == (if i < |q| then Some(q[i]) else None)
      {
        if i > 0 && q != [] {
          assert Rest(q) == q[1..];
        }
      }
    }
  }
}
