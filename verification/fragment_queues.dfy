/** The per-brand queue state both playlist managers keep (PlaylistState):
    two priority queues feeding the stream, and two short lists of the
    fragments most recently handed out. Everything here is a pure function
    on a value; the manager classes hold one such value per brand. */
module FragmentQueues {
  import opened Common
  import opened HlsTypes

  const REGULAR_BUFFER_MAX: int := 2
  const TRIGGER_SELF_MANAGING: int := 2
  const PROCESSED_QUEUE_MAX_SIZE: int := 2
  /** fragmentsForMp3 keeps the two most recent fragments. */
  const MP3_WINDOW: nat := 2
  /** Priorities up to this value go to the prioritized queue. */
  const PRIORITY_THRESHOLD: int := 12
  const STARVING_FEED_COOLDOWN_MILLIS: int := 20000

  /** A PriorityQueue is a sequence in arrival order; polling takes a least
      element under the queue's comparator. */
  datatype PlaylistState = PlaylistState(
    obtainedByHlsPlaylist: seq<LiveSoundFragment>,
    regularQueue: seq<LiveSoundFragment>,
    prioritizedQueue: seq<LiveSoundFragment>,
    fragmentsForMp3: seq<LiveSoundFragment>)

  const EmptyState: PlaylistState := PlaylistState([], [], [], [])

  /** What every reachable state satisfies: the regular buffer and the two
      history lists stay within their caps, and every prioritized fragment
      carries a priority (the prioritized comparator reads it). */
  predicate WellFormed(st: PlaylistState) {
    && |st.regularQueue| <= REGULAR_BUFFER_MAX
    && |st.obtainedByHlsPlaylist| <= PROCESSED_QUEUE_MAX_SIZE
    && |st.fragmentsForMp3| <= MP3_WINDOW
    && forall f :: f in st.prioritizedQueue ==> f.priority.Some?
  }

  // ---------------------------------------------------------------------
  // Queue order
  // ---------------------------------------------------------------------

  /** The regular queue's comparator: by queue number. */
  predicate RegularBefore(a: LiveSoundFragment, b: LiveSoundFragment) {
    a.queueNum < b.queueNum
  }

  /** The prioritized queue's comparator: by priority, then by queue number. */
  predicate PrioritizedBefore(a: LiveSoundFragment, b: LiveSoundFragment) {
    var pa := a.priority.GetOr(0);
    var pb := b.priority.GetOr(0);
    pa < pb || (pa == pb && a.queueNum < b.queueNum)
  }

  predicate Before(prioritized: bool, a: LiveSoundFragment, b: LiveSoundFragment) {
    if prioritized then PrioritizedBefore(a, b) else RegularBefore(a, b)
  }

  /** The position poll() takes from: an element no other element precedes.
      Among equal elements the model takes the earliest arrival (the Java heap
      leaves that choice unspecified). */
  function HeadIndex(q: seq<LiveSoundFragment>, prioritized: bool): (i: nat)
    requires q != []
    ensures i < |q|
    ensures forall j :: 0 <= j < |q| ==> !Before(prioritized, q[j], q[i])
    ensures forall j :: 0 <= j < i ==> Before(prioritized, q[i], q[j])
    decreases |q|
  {
    if |q| == 1 then 0
    else
      var r := 1 + HeadIndex(q[1..], prioritized);
      if Before(prioritized, q[r], q[0]) then r else 0
  }

  datatype Polled = Polled(head: LiveSoundFragment, rest: seq<LiveSoundFragment>)

  /** PriorityQueue.poll on a non-empty queue: a least element and the rest. */
  function Poll(q: seq<LiveSoundFragment>, prioritized: bool): (r: Polled)
    requires q != []
    ensures r.head in q
    ensures forall g :: g in q ==> !Before(prioritized, g, r.head)
    ensures multiset(r.rest) + multiset{r.head} == multiset(q)
  {
    var i := HeadIndex(q, prioritized);
    assert q == q[..i] + [q[i]] + q[i + 1..];
    Polled(q[i], q[..i] + q[i + 1..])
  }

  // ---------------------------------------------------------------------
  // Handing a fragment out
  // ---------------------------------------------------------------------

  /** moveFragmentToProcessedList: the fragment joins both history lists;
      fragmentsForMp3 is cut back to its last two, and obtainedByHlsPlaylist
      drops its oldest entry once if it went over the cap. */
  function RecordProcessed(st: PlaylistState, f: LiveSoundFragment): PlaylistState {
    var obtained := st.obtainedByHlsPlaylist + [f];
    st.(obtainedByHlsPlaylist := if |obtained| > PROCESSED_QUEUE_MAX_SIZE then obtained[1..] else obtained,
        fragmentsForMp3 := LastN(st.fragmentsForMp3 + [f], MP3_WINDOW))
  }

  /** The same step as the source writes it, with its trimming loop. */
  method MoveToProcessed(st: PlaylistState, f: LiveSoundFragment) returns (r: PlaylistState)
    ensures r == RecordProcessed(st, f)
  {
    var obtained := st.obtainedByHlsPlaylist + [f];
    var full := st.fragmentsForMp3 + [f];
    var mp3 := full;
    while |mp3| > MP3_WINDOW
      invariant |mp3| >= Min(|full|, MP3_WINDOW)
      invariant |mp3| <= |full| && mp3 == full[|full| - |mp3|..]
    {
      mp3 := mp3[1..];
    }
    if |obtained| > PROCESSED_QUEUE_MAX_SIZE {
      obtained := obtained[1..];
    }
    r := st.(obtainedByHlsPlaylist := obtained, fragmentsForMp3 := mp3);
  }

  lemma RecordProcessedKeepsCaps(st: PlaylistState, f: LiveSoundFragment)
    requires WellFormed(st)
    ensures var r := RecordProcessed(st, f);
      && WellFormed(r)
      && r.regularQueue == st.regularQueue
      && r.prioritizedQueue == st.prioritizedQueue
      && r.obtainedByHlsPlaylist == LastN(st.obtainedByHlsPlaylist + [f], 2)
      && r.fragmentsForMp3 == LastN(st.fragmentsForMp3 + [f], 2)
      && r.obtainedByHlsPlaylist[|r.obtainedByHlsPlaylist| - 1] == f
      && r.fragmentsForMp3[|r.fragmentsForMp3| - 1] == f
  {
  }

  datatype Dequeued = Dequeued(fragment: LiveSoundFragment, state: PlaylistState)

  /** getNextFragment on an existing state, when a queue has something:
      the prioritized queue first, then the regular one; the fragment taken is
      recorded as processed. None when both queues are empty. */
  function Dequeue(st: PlaylistState): Option<Dequeued> {
    if st.prioritizedQueue != [] then
      var p := Poll(st.prioritizedQueue, true);
      Some(Dequeued(p.head, RecordProcessed(st.(prioritizedQueue := p.rest), p.head)))
    else if st.regularQueue != [] then
      var p := Poll(st.regularQueue, false);
      Some(Dequeued(p.head, RecordProcessed(st.(regularQueue := p.rest), p.head)))
    else None
  }

  /** Dequeue fails exactly when both queues are empty; otherwise it serves
      the prioritized queue before the regular one, takes a least element of
      the queue it serves, loses nothing, and keeps the state well formed. */
  lemma DequeueSpec(st: PlaylistState)
    requires WellFormed(st)
    ensures Dequeue(st).None? <==> st.prioritizedQueue == [] && st.regularQueue == []
    ensures Dequeue(st).Some? ==>
      var d := Dequeue(st).value;
      && WellFormed(d.state)
      && multiset(d.state.prioritizedQueue) + multiset(d.state.regularQueue) + multiset{d.fragment}
         == multiset(st.prioritizedQueue) + multiset(st.regularQueue)
      && d.state.obtainedByHlsPlaylist == LastN(st.obtainedByHlsPlaylist + [d.fragment], 2)
      && d.state.fragmentsForMp3 == LastN(st.fragmentsForMp3 + [d.fragment], 2)
    ensures st.prioritizedQueue != [] ==>
      var d := Dequeue(st).value;
      && d.fragment in st.prioritizedQueue
      && (forall g :: g in st.prioritizedQueue ==> !PrioritizedBefore(g, d.fragment))
      && d.state.regularQueue == st.regularQueue
    ensures st.prioritizedQueue == [] && st.regularQueue != [] ==>
      var d := Dequeue(st).value;
      && d.fragment in st.regularQueue
      && (forall g :: g in st.regularQueue ==> !RegularBefore(g, d.fragment))
      && d.state.prioritizedQueue == []
  {
    if st.prioritizedQueue != [] {
      var p := Poll(st.prioritizedQueue, true);
      assert multiset(p.rest) + multiset{p.head} == multiset(st.prioritizedQueue);
      forall g | g in p.rest
        ensures g.priority.Some?
      {
        assert g in multiset(st.prioritizedQueue);
      }
      RecordProcessedKeepsCaps(st.(prioritizedQueue := p.rest), p.head);
    } else if st.regularQueue != [] {
      var p := Poll(st.regularQueue, false);
      assert |p.rest| < |st.regularQueue| by {
        assert |multiset(p.rest)| + 1 == |multiset(st.regularQueue)|;
      }
      RecordProcessedKeepsCaps(st.(regularQueue := p.rest), p.head);
    }
  }

  // ---------------------------------------------------------------------
  // Adding fragments
  // ---------------------------------------------------------------------

  datatype Admission = Admission(state: PlaylistState, accepted: bool)

  /** addFragment on an existing state: the fragment takes the given priority;
      up to PRIORITY_THRESHOLD it always joins the prioritized queue, above it
      joins the regular queue unless that is already full. */
  function Admit(st: PlaylistState, f: LiveSoundFragment, priority: int): Admission {
    var g := f.(priority := Some(priority));
    if priority <= PRIORITY_THRESHOLD then Admission(st.(prioritizedQueue := st.prioritizedQueue + [g]), true)
    else if |st.regularQueue| >= REGULAR_BUFFER_MAX then Admission(st, false)
    else Admission(st.(regularQueue := st.regularQueue + [g]), true)
  }

  /** A fragment is refused exactly when it is not urgent and the regular
      buffer is full; a refused fragment leaves the state as it was, an
      accepted one lands in exactly one queue with its priority set. */
  lemma AdmitSpec(st: PlaylistState, f: LiveSoundFragment, priority: int)
    requires WellFormed(st)
    ensures var a := Admit(st, f, priority);
      && (a.accepted <==> priority <= PRIORITY_THRESHOLD || |st.regularQueue| < REGULAR_BUFFER_MAX)
      && WellFormed(a.state)
      && (!a.accepted ==> a.state == st)
      && (a.accepted && priority <= PRIORITY_THRESHOLD ==>
            a.state == st.(prioritizedQueue := st.prioritizedQueue + [f.(priority := Some(priority))]))
      && (a.accepted && priority > PRIORITY_THRESHOLD ==>
            a.state == st.(regularQueue := st.regularQueue + [f.(priority := Some(priority))]))
  {
  }

  /** How many fragments feedFragments adds: the room left under
      REGULAR_BUFFER_MAX, capped by the requested quantity (none when either
      is not positive). */
  function FeedQuantity(regularSize: nat, maxQuantity: int): (n: nat)
    ensures n <= Max(0, maxQuantity)
    ensures regularSize + n <= Max(regularSize, REGULAR_BUFFER_MAX)
    ensures regularSize < REGULAR_BUFFER_MAX && maxQuantity >= REGULAR_BUFFER_MAX - regularSize
            ==> regularSize + n == REGULAR_BUFFER_MAX
    ensures n > 0 <==> regularSize < REGULAR_BUFFER_MAX && maxQuantity > 0
  {
    var remaining := Max(0, REGULAR_BUFFER_MAX - regularSize);
    if remaining == 0 then 0 else Max(0, Min(remaining, maxQuantity))
  }

  /** The regular queue after a feed appends the given fillers. */
  function Fed(st: PlaylistState, fillers: seq<LiveSoundFragment>): PlaylistState {
    st.(regularQueue := st.regularQueue + fillers)
  }

  lemma FedKeepsWellFormed(st: PlaylistState, maxQuantity: int, fillers: seq<LiveSoundFragment>)
    requires WellFormed(st)
    requires |fillers| == FeedQuantity(|st.regularQueue|, maxQuantity)
    ensures WellFormed(Fed(st, fillers))
    ensures |Fed(st, fillers).regularQueue| <= REGULAR_BUFFER_MAX
  {
  }

  /** The starvation cooldown: a feed asked for within 20 s of the last one is skipped. */
  predicate CooldownActive(now: int, lastStarvingFeedTime: int) {
    now - lastStarvingFeedTime < STARVING_FEED_COOLDOWN_MILLIS
  }
}
