/** The SDK's bounded FIFO queue and its explicit flush into greedy byte-bounded batches,
    with other threads emitting while requests are in flight.

    An event is its JSON text. What other threads emit, and what the server answers, are
    arbitrary inputs to a flush.
 */
module Delivery {
  import opened Wrappers

  type Event = string

  const MAX_EVENTS := 100
  const MAX_BODY := 131072

  // ---------------------------------------------------------------- bodies

  function Join(batch: seq<Event>): string {
    if batch == [] then ""
    else if |batch| == 1 then batch[0]
    else Join(batch[..|batch| - 1]) + "," + batch[|batch| - 1]
  }

  /** The request body a batch serializes to. */
  function Body(batch: seq<Event>): string {
    "{\"events\":[" + Join(batch) + "]}"
  }

  /** The size the batcher keeps track of. */
  function PayloadSize(batch: seq<Event>): nat {
    if batch == [] then 13
    else PayloadSize(batch[..|batch| - 1]) + |batch[|batch| - 1]| + (if |batch| > 1 then 1 else 0)
  }

  /** The running size is the length of the real body. */
  lemma {:induction false} PayloadIsBody(batch: seq<Event>)
    ensures PayloadSize(batch) == |Body(batch)|
  {
    if |batch| == 1 {
      assert batch[..0] == [];
    } else if batch != [] {
      PayloadIsBody(batch[..|batch| - 1]);
    }
  }

  predicate Fits(batch: seq<Event>) {
    |batch| <= MAX_EVENTS && PayloadSize(batch) <= MAX_BODY
  }

  ghost predicate AllFit(queue: seq<Event>) {
    forall k :: 0 <= k < |queue| ==> PayloadSize([queue[k]]) <= MAX_BODY
  }

  // ---------------------------------------------------------------- greedy batches

  /** Grow a batch of k events from the front of the queue as far as it goes. */
  function Extend(queue: seq<Event>, k: nat): (n: nat)
    requires k <= |queue|
    ensures k <= n <= |queue|
    decreases |queue| - k
  {
    if k == |queue| || k >= MAX_EVENTS then k
    else if k > 0 && PayloadSize(queue[..k + 1]) > MAX_BODY then k
    else Extend(queue, k + 1)
  }

  lemma ExtendGrows(queue: seq<Event>)
    requires queue != []
    ensures 1 <= Extend(queue, 0) <= |queue|
  {
    assert Extend(queue, 0) == Extend(queue, 1);
  }

  function Greedy(queue: seq<Event>): seq<seq<Event>> {
    if queue == [] then []
    else
      ExtendGrows(queue);
      [queue[..Extend(queue, 0)]] + Greedy(queue[Extend(queue, 0)..])
  }

  function Flat(batches: seq<seq<Event>>): seq<Event> {
    if batches == [] then [] else batches[0] + Flat(batches[1..])
  }

  /** The batches are the queue, in order. */
  lemma {:induction false} GreedyCovers(queue: seq<Event>)
    ensures Flat(Greedy(queue)) == queue
    decreases |queue|
  {
    if queue != [] {
      ExtendGrows(queue);
      GreedyCovers(queue[Extend(queue, 0)..]);
    }
  }

  lemma {:induction false} ExtendFits(queue: seq<Event>, k: nat)
    requires k <= |queue| && (k == 0 || Fits(queue[..k])) && AllFit(queue)
    ensures Fits(queue[..Extend(queue, k)])
    decreases |queue| - k
  {
    if k == |queue| || k >= MAX_EVENTS {
    } else if k > 0 && PayloadSize(queue[..k + 1]) > MAX_BODY {
    } else {
      if k == 0 {
        assert queue[..1] == [queue[0]];
      }
      ExtendFits(queue, k + 1);
    }
  }

  /** A batch one request can carry. */
  ghost predicate Carried(batch: seq<Event>) {
    |batch| <= 100 && |Body(batch)| <= 131072
  }

  lemma FitsCarried(batch: seq<Event>)
    ensures Fits(batch) <==> Carried(batch)
  {
    PayloadIsBody(batch);
  }

  /** No body exceeds the limits when every event alone fits. */
  lemma GreedyFits(queue: seq<Event>)
    requires forall k :: 0 <= k < |queue| ==> Carried([queue[k]])
    ensures forall k :: 0 <= k < |Greedy(queue)| ==> Carried(Greedy(queue)[k])
  {
    EachCarried(queue);
    hide Carried, Fits, Greedy, AllFit;
    BatchesFit(queue);
    forall k | 0 <= k < |Greedy(queue)|
      ensures Carried(Greedy(queue)[k])
    {
      FitsCarried(Greedy(queue)[k]);
    }
  }

  lemma EachCarried(queue: seq<Event>)
    requires forall k :: 0 <= k < |queue| ==> Carried([queue[k]])
    ensures AllFit(queue)
  {
    hide PayloadSize, Carried;
    forall k | 0 <= k < |queue|
      ensures PayloadSize([queue[k]]) <= MAX_BODY
    {
      FitsCarried([queue[k]]);
    }
  }

  lemma {:induction false} BatchesFit(queue: seq<Event>)
    requires AllFit(queue)
    ensures forall k :: 0 <= k < |Greedy(queue)| ==> Fits(Greedy(queue)[k])
    decreases |queue|
  {
    if queue != [] {
      var n := Extend(queue, 0);
      ExtendGrows(queue);
      ExtendFits(queue, 0);
      assert forall k :: 0 <= k < |queue[n..]| ==> queue[n..][k] == queue[n + k];
      BatchesFit(queue[n..]);
    }
  }

  // ---------------------------------------------------------------- optimality

  lemma {:induction false} SizeOfPart(batch: seq<Event>, from: nat, to: nat)
    requires from <= to <= |batch|
    ensures PayloadSize(batch[from..to]) <= PayloadSize(batch)
    decreases |batch|
  {
    if to < |batch| {
      assert batch[..|batch| - 1][from..to] == batch[from..to];
      SizeOfPart(batch[..|batch| - 1], from, to);
    } else if from < to {
      assert batch[from..to][..to - from - 1] == batch[..|batch| - 1][from..to - 1];
      SizeOfPart(batch[..|batch| - 1], from, to - 1);
    } else {
      SizeAtLeast(batch);
    }
  }

  lemma {:induction false} SizeAtLeast(batch: seq<Event>)
    ensures PayloadSize(batch) >= 13
  {
    if batch != [] {
      SizeAtLeast(batch[..|batch| - 1]);
    }
  }

  /** The greedy batch is the longest prefix that fits. */
  lemma {:induction false} ExtendLongest(queue: seq<Event>, k: nat, n: nat)
    requires k <= n <= |queue| && Fits(queue[..n])
    ensures n <= Extend(queue, k)
    decreases n - k
  {
    if k < n {
      assert queue[..n][..k + 1] == queue[..k + 1];
      SizeOfPart(queue[..n], 0, k + 1);
      assert queue[..n][0..k + 1] == queue[..k + 1];
      ExtendLongest(queue, k + 1, n);
    }
  }

  lemma AllFitSuffix(queue: seq<Event>, n: nat)
    requires AllFit(queue) && n <= |queue|
    ensures AllFit(queue[n..])
  {
    assert forall k :: 0 <= k < |queue[n..]| ==> queue[n..][k] == queue[n + k];
  }

  /** A start inside the first batch reaches at least as far. */
  lemma PartOfPrefix(queue: seq<Event>, d: nat, n: nat)
    requires d <= n <= |queue|
    ensures queue[d..][..n - d] == queue[..n][d..n]
  {
  }

  lemma ExtendFrom(queue: seq<Event>, d: nat)
    requires AllFit(queue) && queue != [] && d < Extend(queue, 0)
    ensures Extend(queue, 0) <= d + Extend(queue[d..], 0)
  {
    var n, rest := Extend(queue, 0), queue[d..];
    ExtendFits(queue, 0);
    PartOfPrefix(queue, d, n);
    SizeOfPart(queue[..n], d, n);
    hide Extend, PayloadSize;
    ExtendLongest(rest, 0, n - d);
  }

  /** A later start never needs more batches. */
  lemma {:induction false} SuffixFewer(queue: seq<Event>, d: nat)
    requires AllFit(queue) && d <= |queue|
    ensures |Greedy(queue[d..])| <= |Greedy(queue)|
    decreases |queue|
  {
    hide Extend, PayloadSize, AllFit;
    if queue == [] || d == 0 {
      assert queue[d..] == queue;
    } else {
      var n, rest := Extend(queue, 0), queue[d..];
      ExtendGrows(queue);
      AllFitSuffix(queue, n);
      if d >= n {
        assert rest == queue[n..][d - n..];
        SuffixFewer(queue[n..], d - n);
      } else {
        ExtendFrom(queue, d);
        ExtendGrows(rest);
        var m := Extend(rest, 0);
        assert rest[m..] == queue[n..][d + m - n..];
        SuffixFewer(queue[n..], d + m - n);
      }
    }
  }

  /** An order-preserving split of the queue within the limits. */
  ghost predicate Split(queue: seq<Event>, parts: seq<seq<Event>>) {
    Flat(parts) == queue && forall k :: 0 <= k < |parts| ==> Carried(parts[k])
  }

  /** No split within 100 events and 131072 bytes uses fewer requests. */
  lemma GreedyOptimal(queue: seq<Event>, parts: seq<seq<Event>>)
    requires (forall k :: 0 <= k < |queue| ==> Carried([queue[k]])) && Split(queue, parts)
    ensures |Greedy(queue)| <= |parts|
  {
    EachCarried(queue);
    hide AllFit, Greedy;
    FewestBatches(queue, parts);
  }

  lemma {:induction false} FewestBatches(queue: seq<Event>, parts: seq<seq<Event>>)
    requires AllFit(queue) && Split(queue, parts)
    ensures |Greedy(queue)| <= |parts|
    decreases |parts|
  {
    if parts != [] && queue != [] {
      var n, m := Extend(queue, 0), |parts[0]|;
      assert queue == parts[0] + Flat(parts[1..]);
      assert queue[..m] == parts[0] && queue[m..] == Flat(parts[1..]);
      ExtendGrows(queue);
      FitsCarried(parts[0]);
      ExtendLongest(queue, 0, m);
      AllFitSuffix(queue, m);
      hide Extend, PayloadSize, AllFit;
      FewestBatches(queue[m..], parts[1..]);
      assert queue[n..] == queue[m..][n - m..];
      SuffixFewer(queue[m..], n - m);
    }
  }

  // ---------------------------------------------------------------- replies

  /** A server's answer to one batch; anything but a matching acknowledgement is a failure. */
  datatype Reply = Acknowledgement(accepted: int, duplicates: int) | Failed

  predicate Matches(reply: Reply, size: nat) {
    && reply.Acknowledgement?
    && reply.accepted >= 0 && reply.duplicates >= 0
    && reply.accepted + reply.duplicates == size
  }

  /** A matching acknowledgement splits the batch into accepted and duplicate events. */
  lemma MatchesWhole(reply: Reply, size: nat)
    ensures Matches(reply, size)
            <==> exists taken: nat, seen: nat :: reply == Acknowledgement(taken, seen) && taken + seen == size
  {
  }

  datatype DeliveryError = DeliveryError

  /** Events in acknowledged requests. */
  function Acknowledged(bodies: seq<seq<Event>>, replies: nat -> Reply): nat {
    if bodies == [] then 0
    else
      var k := |bodies| - 1;
      Acknowledged(bodies[..k], replies) + (if Matches(replies(k), |bodies[k]|) then |bodies[k]| else 0)
  }

  /** Requests that failed. */
  function Failures(bodies: seq<seq<Event>>, replies: nat -> Reply): nat {
    if bodies == [] then 0
    else
      var k := |bodies| - 1;
      Failures(bodies[..k], replies) + (if Matches(replies(k), |bodies[k]|) then 0 else 1)
  }

  // ---------------------------------------------------------------- steps of a flush

  lemma EmptySize()
    ensures PayloadSize([]) == 13
  {
  }

  /** What one candidate does to the running size and to how far the batch will go. */
  lemma ExtendStep(front: seq<Event>, batch: seq<Event>, candidate: Event)
    requires |batch| < |front| && |batch| < MAX_EVENTS && batch == front[..|batch|] && candidate == front[|batch|]
    ensures var size := PayloadSize(batch) + |candidate| + (if batch != [] then 1 else 0);
            && PayloadSize(batch + [candidate]) == size
            && (batch != [] && size > MAX_BODY ==> Extend(front, |batch|) == |batch|)
            && (batch == [] || size <= MAX_BODY ==> Extend(front, |batch| + 1) == Extend(front, |batch|))
  {
    var next := batch + [candidate];
    assert next == front[..|batch| + 1] && next[..|batch|] == batch;
  }

  lemma ExtendStops(front: seq<Event>, k: nat)
    requires k <= |front|
    ensures k == |front| || k >= MAX_EVENTS ==> Extend(front, k) == k
  {
  }

  lemma {:induction false} FlatAppend(bodies: seq<seq<Event>>, batch: seq<Event>)
    ensures Flat(bodies + [batch]) == Flat(bodies) + batch
  {
    if bodies == [] {
      assert [batch][1..] == [];
    } else {
      assert (bodies + [batch])[1..] == bodies[1..] + [batch];
      FlatAppend(bodies[1..], batch);
    }
  }

  /** Where a flush stands: the first batches are out, the rest of the queue present at entry
      is still in front of whatever was added since. */
  ghost predicate Progress(whole: seq<Event>, bodies: seq<seq<Event>>, added: seq<Event>, queue: seq<Event>,
                           remaining: nat) {
    && remaining + |Flat(bodies)| == |whole|
    && queue == whole[|Flat(bodies)|..] + added
    && bodies + Greedy(whole[|Flat(bodies)|..]) == Greedy(whole)
  }

  lemma StartProgress(whole: seq<Event>, replies: nat -> Reply)
    ensures Progress(whole, [], [], whole, |whole|)
    ensures Flat([]) == [] && Acknowledged([], replies) == 0 && Failures([], replies) == 0
  {
    assert whole[0..] == whole;
  }

  lemma MoreAdded(whole: seq<Event>, bodies: seq<seq<Event>>, added: seq<Event>, queue: seq<Event>, remaining: nat,
                  more: seq<Event>)
    requires Progress(whole, bodies, added, queue, remaining)
    ensures Progress(whole, bodies, added + more, queue + more, remaining)
  {
    hide Flat, Greedy;
  }

  lemma NextFront(whole: seq<Event>, bodies: seq<seq<Event>>, added: seq<Event>, queue: seq<Event>, remaining: nat)
    requires Progress(whole, bodies, added, queue, remaining)
    ensures |Flat(bodies)| <= |whole| && remaining <= |queue| && queue[..remaining] == whole[|Flat(bodies)|..]
  {
    hide Flat, Greedy;
  }

  /** One more request takes the next greedy batch and counts it once. */
  lemma Attempt(whole: seq<Event>, bodies: seq<seq<Event>>, added: seq<Event>, queue: seq<Event>,
                remaining: nat, n: nat, replies: nat -> Reply)
    requires Progress(whole, bodies, added, queue, remaining) && 1 <= n <= remaining <= |queue|
    requires n == Extend(queue[..remaining], 0)
    ensures Progress(whole, bodies + [queue[..n]], added, queue[n..], remaining - n)
    ensures |Flat(bodies + [queue[..n]])| == |Flat(bodies)| + n
    ensures var ok := Matches(replies(|bodies|), n);
            && Acknowledged(bodies + [queue[..n]], replies) == Acknowledged(bodies, replies) + (if ok then n else 0)
            && Failures(bodies + [queue[..n]], replies) == Failures(bodies, replies) + (if ok then 0 else 1)
  {
    hide Matches;
    var batch := queue[..n];
    assert (bodies + [batch])[..|bodies|] == bodies;
    AttemptProgress(whole, bodies, added, queue, remaining, n);
  }

  lemma AttemptProgress(whole: seq<Event>, bodies: seq<seq<Event>>, added: seq<Event>, queue: seq<Event>,
                        remaining: nat, n: nat)
    requires Progress(whole, bodies, added, queue, remaining) && 1 <= n <= remaining <= |queue|
    requires n == Extend(queue[..remaining], 0)
    ensures Progress(whole, bodies + [queue[..n]], added, queue[n..], remaining - n)
    ensures |Flat(bodies + [queue[..n]])| == |Flat(bodies)| + n
  {
    hide Extend;
    var batch, rest := queue[..n], whole[|Flat(bodies)|..];
    FlatAppend(bodies, batch);
    hide Flat;
    assert queue[..remaining] == rest && rest[..n] == batch;
    assert rest[n..] == whole[|Flat(bodies + [batch])|..];
    assert Greedy(rest) == [batch] + Greedy(rest[n..]);
    hide Greedy;
    assert (bodies + [batch]) + Greedy(rest[n..]) == bodies + ([batch] + Greedy(rest[n..]));
  }

  /** Wherever a flush stops, the requests made are the first greedy batches. */
  lemma Stopped(whole: seq<Event>, bodies: seq<seq<Event>>, added: seq<Event>, queue: seq<Event>, remaining: nat)
    requires Progress(whole, bodies, added, queue, remaining)
    ensures bodies <= Greedy(whole) && |Flat(bodies)| <= |whole| && queue == whole[|Flat(bodies)|..] + added
    ensures remaining == 0 ==> bodies == Greedy(whole) && queue == added
  {
    hide Extend, Flat;
  }

  // ---------------------------------------------------------------- the client

  class Client {
    const capacity: nat
    const raising: bool
    var queue: seq<Event>
    var enqueued: nat
    var sent: nat
    var dropped: nat
    var failedBatches: nat
    ghost var refused: nat     // dropped before ever being queued
    ghost var lost: nat        // dropped after being queued
    ghost var inFlight: nat

    constructor (capacity: nat, raising: bool)
      ensures Valid() && queue == [] && inFlight == 0
      ensures this.capacity == capacity && this.raising == raising
    {
      this.capacity, this.raising := capacity, raising;
      queue, enqueued, sent, dropped, failedBatches := [], 0, 0, 0, 0;
      refused, lost, inFlight := 0, 0, 0;
    }

    /** Every queued event is still queued, in flight, sent, or counted as dropped. */
    ghost predicate Valid()
      reads this
    {
      && |queue| <= capacity
      && enqueued == sent + lost + inFlight + |queue|
      && dropped == refused + lost
    }

    /** Queue one event that passed validation, or drop it when the queue is full. */
    method Emit(e: Event) returns (ok: bool)
      requires Valid()
      modifies this
      ensures Valid() && inFlight == old(inFlight)
      ensures ok == (|old(queue)| < capacity)
      ensures queue == if ok then old(queue) + [e] else old(queue)
      ensures enqueued == old(enqueued) + (if ok then 1 else 0) && dropped == old(dropped) + (if ok then 0 else 1)
      ensures sent == old(sent) && failedBatches == old(failedBatches) && lost == old(lost)
    {
      if |queue| >= capacity {
        dropped, refused := dropped + 1, refused + 1;
        return false;
      }
      queue := queue + [e];
      enqueued := enqueued + 1;
      return true;
    }

    /** An event that fails local validation is only counted. */
    method Reject()
      requires Valid()
      modifies this`dropped, this`refused
      ensures Valid() && dropped == old(dropped) + 1
    {
      dropped, refused := dropped + 1, refused + 1;
    }

    /** What other threads emit while a flush waits. */
    method OthersEmit(events: seq<Event>) returns (ghost added: seq<Event>)
      requires Valid()
      modifies this
      ensures Valid() && inFlight == old(inFlight) && queue == old(queue) + added
      ensures sent == old(sent) && failedBatches == old(failedBatches) && lost == old(lost)
    {
      added := [];
      for i := 0 to |events|
        invariant Valid() && inFlight == old(inFlight) && queue == old(queue) + added
        invariant sent == old(sent) && failedBatches == old(failedBatches) && lost == old(lost)
      {
        var ok := Emit(events[i]);
        if ok {
          added := added + [events[i]];
        }
      }
    }

    /** The locked section: pop the longest batch that fits from the front of the queue. */
    method PopBatch(remaining: nat) returns (batch: seq<Event>)
      requires Valid() && 0 < remaining <= |queue| && inFlight == 0
      modifies this`queue, this`inFlight
      ensures Valid() && inFlight == |batch|
      ensures var n := Extend(old(queue)[..remaining], 0);
              1 <= n <= remaining && batch == old(queue)[..n] && queue == old(queue)[n..]
    {
      hide Extend, PayloadSize;
      ghost var front := queue[..remaining];
      ExtendGrows(front);
      EmptySize();
      batch := [];
      var size := 13;
      while |batch| < (if remaining < MAX_EVENTS then remaining else MAX_EVENTS)
        invariant |batch| <= remaining && batch == old(queue)[..|batch|] && queue == old(queue)[|batch|..]
        invariant size == PayloadSize(batch)
        invariant Extend(front, |batch|) == Extend(front, 0)
      {
        var candidate := queue[0];
        var addition := |candidate| + (if batch != [] then 1 else 0);
        ExtendStep(front, batch, candidate);
        if batch != [] && size + addition > MAX_BODY {
          break;
        }
        batch := batch + [candidate];
        queue := queue[1..];
        size := size + addition;
      }
      ExtendStops(front, |batch|);
      inFlight := |batch|;
    }

    /** Count the answer to the request in flight. */
    method Settle(size: nat, reply: Reply) returns (ok: bool)
      requires Valid() && inFlight == size
      modifies this`inFlight, this`sent, this`failedBatches, this`dropped, this`lost
      ensures Valid() && inFlight == 0
      ensures ok <==> exists taken: nat, seen: nat :: reply == Acknowledgement(taken, seen) && taken + seen == size
      ensures ok == Matches(reply, size)
      ensures sent == old(sent) + (if ok then size else 0)
      ensures lost == old(lost) + (if ok then 0 else size)
      ensures failedBatches == old(failedBatches) + (if ok then 0 else 1)
    {
      ok := Matches(reply, size);
      MatchesWhole(reply, size);
      if ok {
        sent := sent + size;
      } else {
        failedBatches := failedBatches + 1;
        dropped, lost := dropped + size, lost + size;
      }
      inFlight := 0;
    }

    /** Send at most the queue present at entry. Other threads emit before and during each
        request, and the server answers request k with replies(k). Reports the number of
        acknowledged events; in raise mode the first failure stops the flush. */
    method Flush(arrivals: nat -> seq<Event>, replies: nat -> Reply)
      returns (r: Result<nat, DeliveryError>, bodies: seq<seq<Event>>, ghost added: seq<Event>)
      requires Valid() && inFlight == 0
      modifies this
      ensures Valid() && inFlight == 0
      ensures bodies <= Greedy(old(queue)) && |Flat(bodies)| <= |old(queue)|
      ensures queue == old(queue)[|Flat(bodies)|..] + added
      ensures r.Ok? ==> bodies == Greedy(old(queue)) && queue == added
      ensures r.Ok? ==> r.value == Acknowledged(bodies, replies)
      ensures sent == old(sent) + Acknowledged(bodies, replies)
      ensures lost == old(lost) + |Flat(bodies)| - Acknowledged(bodies, replies)
      ensures failedBatches == old(failedBatches) + Failures(bodies, replies)
      ensures r.Err? <==> raising && Failures(bodies, replies) > 0
      ensures raising ==> Failures(bodies, replies) <= 1
    {
      hide Extend, Greedy, Flat, Matches, Acknowledged, Failures, Progress;
      ghost var whole := queue;
      var remaining: nat, acknowledged: nat := |queue|, 0;
      bodies, added := [], [];
      StartProgress(whole, replies);
      while remaining > 0
        invariant Valid() && inFlight == 0
        invariant Progress(whole, bodies, added, queue, remaining)
        invariant acknowledged == Acknowledged(bodies, replies) && sent == old(sent) + acknowledged
        invariant lost == old(lost) + |Flat(bodies)| - acknowledged
        invariant failedBatches == old(failedBatches) + Failures(bodies, replies)
        invariant raising ==> Failures(bodies, replies) == 0
        decreases remaining
      {
        ghost var before := queue;
        ghost var more := OthersEmit(arrivals(2 * |bodies|));
        MoreAdded(whole, bodies, added, before, remaining, more);
        added := added + more;
        NextFront(whole, bodies, added, queue, remaining);
        before := queue;
        var batch := PopBatch(remaining);
        assert before[..|batch|] == batch && before[|batch|..] == queue;
        Attempt(whole, bodies, added, before, remaining, |batch|, replies);
        remaining := remaining - |batch|;
        before := queue;
        more := OthersEmit(arrivals(2 * |bodies| + 1));
        var reply := replies(|bodies|);
        bodies := bodies + [batch];
        MoreAdded(whole, bodies, added, before, remaining, more);
        added := added + more;
        var ok := Settle(|batch|, reply);
        if ok {
          acknowledged := acknowledged + |batch|;
        } else if raising {
          Stopped(whole, bodies, added, queue, remaining);
          return Err(DeliveryError), bodies, added;
        }
      }
      Stopped(whole, bodies, added, queue, 0);
      r := Ok(acknowledged);
    }
  }
}
