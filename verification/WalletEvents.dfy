/** Wallet events, as far as the queue and the shell tell them apart. */
module WalletEvents {

  /** `NodeStopped` is terminal for a consumer; the core purges stale ones at start. */
  datatype Event = NodeStarted | NodeStopped | SyncFailed | OtherEvent(id: nat)

  /** `retain(|e| e != NodeStopped)`. */
  function WithoutStopped(queue: seq<Event>): (r: seq<Event>)
    ensures NodeStopped !in r
  {
    if queue == [] then []
    else (if queue[0] == NodeStopped then [] else [queue[0]]) + WithoutStopped(queue[1..])
  }

  lemma {:induction false} WithoutStoppedSnoc(queue: seq<Event>, e: Event)
    ensures WithoutStopped(queue + [e]) == WithoutStopped(queue) + if e == NodeStopped then [] else [e]
    decreases |queue|
  {
    if queue == [] {
      assert queue + [e] == [e] && [e][1..] == [];
    } else {
      var head := if queue[0] == NodeStopped then [] else [queue[0]];
      var last := if e == NodeStopped then [] else [e];
      assert (queue + [e])[1..] == queue[1..] + [e];
      WithoutStoppedSnoc(queue[1..], e);
      assert WithoutStopped(queue) == head + WithoutStopped(queue[1..]);
      assert WithoutStopped(queue + [e]) == head + (WithoutStopped(queue[1..]) + last);
    }
  }

  lemma {:induction false} WithoutStoppedConcat(a: seq<Event>, b: seq<Event>)
    ensures WithoutStopped(a + b) == WithoutStopped(a) + WithoutStopped(b)
    decreases |b|
  {
    if b == [] {
      assert a + b == a;
    } else {
      var front, last := b[..|b| - 1], b[|b| - 1];
      assert a + b == (a + front) + [last] && b == front + [last];
      WithoutStoppedConcat(a, front);
      WithoutStoppedSnoc(a + front, last);
      WithoutStoppedSnoc(front, last);
    }
  }

  lemma {:induction false} PurgingTwice(queue: seq<Event>)
    ensures WithoutStopped(WithoutStopped(queue)) == WithoutStopped(queue)
    decreases |queue|
  {
    if queue != [] {
      PurgingTwice(queue[1..]);
      WithoutStoppedConcat(if queue[0] == NodeStopped then [] else [queue[0]], WithoutStopped(queue[1..]));
      assert WithoutStopped([queue[0]]) == if queue[0] == NodeStopped then [] else [queue[0]] by {
        WithoutStoppedSnoc([], queue[0]);
        assert [] + [queue[0]] == [queue[0]];
      }
    }
  }

  /** Purging shortens the queue unless there is nothing to purge. */
  lemma {:induction false} WithoutStoppedLength(queue: seq<Event>)
    ensures |WithoutStopped(queue)| <= |queue|
    ensures |WithoutStopped(queue)| == |queue| ==> WithoutStopped(queue) == queue
    decreases |queue|
  {
    if queue != [] {
      WithoutStoppedLength(queue[1..]);
    }
  }
}
