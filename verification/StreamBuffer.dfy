/** The bounded drop-oldest queue of a subscription: its one producer and any number of
    pollers (dispatch/tier_b.py). */
module StreamBuffer {
  import opened Common

  const QUEUE_MAX: nat := 500
  const POLL_MAX: nat := 50

  // ---- the two queue operations, each one step ----------------------------------------------

  /** None stands for queue.Full. */
  function PutNowait<T>(q: seq<T>, item: T): Option<seq<T>> {
    if |q| >= QUEUE_MAX then None else Some(q + [item])
  }

  function Min(a: nat, b: nat): nat { if a <= b then a else b }

  /** The newest n items. */
  function Newest<T>(s: seq<T>, n: nat): seq<T> { s[|s| - Min(n, |s|)..] }

  // ---- from lines to items ------------------------------------------------------------------

  /** A queue item: a decoded JSON line, a line that did not decode, or plain text. */
  datatype Item = Json(v: Value) | Unparsed(raw: string) | Line(text: string)

  /** What the producer sees of the outside: str.strip and json.loads. */
  datatype Codec = Codec(strip: string -> string, decode: string -> Option<Value>)

  function ItemOf(codec: Codec, jsonStream: bool, line: string): Item {
    if !jsonStream then Line(line)
    else match codec.decode(line)
      case Some(v) => Json(v)
      case None => Unparsed(line)
  }

  /** Blank lines carry no item. */
  function LineItems(codec: Codec, jsonStream: bool, line: string): seq<Item> {
    var text := codec.strip(line);
    if text == "" then [] else [ItemOf(codec, jsonStream, text)]
  }

  function Items(codec: Codec, jsonStream: bool, lines: seq<string>): seq<Item> {
    if lines == [] then [] else LineItems(codec, jsonStream, lines[0]) + Items(codec, jsonStream, lines[1..])
  }

  /** The line is not blank. */
  ghost function Carries(codec: Codec): string -> bool { (line: string) => codec.strip(line) != "" }

  /** The item of a line: its stripped text, or on a JSON stream the value it decodes to, if it does. */
  ghost predicate IsItem(codec: Codec, jsonStream: bool, line: string, item: Item) {
    var text := codec.strip(line);
    match item
    case Line(t) => !jsonStream && t == text
    case Json(v) => jsonStream && codec.decode(text) == Some(v)
    case Unparsed(raw) => jsonStream && codec.decode(text).None? && raw == text
  }

  /** There are as many items as lines that are not blank, and the item of each is at the place that
      this line has among them. */
  lemma {:induction false} LinesBecomeItems(codec: Codec, jsonStream: bool, lines: seq<string>)
    ensures |Items(codec, jsonStream, lines)| == CountIf(lines, Carries(codec))
    ensures forall n :: 0 <= n < |lines| && Carries(codec)(lines[n]) ==>
              var place := CountIf(lines[..n], Carries(codec));
              place < |Items(codec, jsonStream, lines)| &&
              IsItem(codec, jsonStream, lines[n], Items(codec, jsonStream, lines)[place])
  {
    if lines != [] {
      var init, last := lines[..|lines| - 1], lines[|lines| - 1];
      LinesBecomeItems(codec, jsonStream, init);
      assert lines == init + [last];
      ItemsAppend(codec, jsonStream, init, last);
      forall n | 0 <= n < |lines| && Carries(codec)(lines[n])
        ensures var place := CountIf(lines[..n], Carries(codec));
                place < |Items(codec, jsonStream, lines)| &&
                IsItem(codec, jsonStream, lines[n], Items(codec, jsonStream, lines)[place])
      {
        assert n < |init| ==> lines[..n] == init[..n] && lines[n] == init[n];
      }
    }
  }

  lemma {:induction false} ItemsAppend(codec: Codec, jsonStream: bool, lines: seq<string>, last: string)
    ensures Items(codec, jsonStream, lines + [last]) ==
            Items(codec, jsonStream, lines) + LineItems(codec, jsonStream, last)
  {
    if lines == [] {
      assert [] + [last] == [last] && [last][1..] == [];
    } else {
      ItemsAppend(codec, jsonStream, lines[1..], last);
      assert (lines + [last])[1..] == lines[1..] + [last];
    }
  }

  /** What is still to come before each line, and after the last. */
  ghost predicate Remainders(codec: Codec, jsonStream: bool, lines: seq<string>, rests: seq<seq<Item>>) {
    && |rests| == |lines| + 1 && rests[|lines|] == []
    && forall n :: 0 <= n < |lines| ==> rests[n] == LineItems(codec, jsonStream, lines[n]) + rests[n + 1]
  }

  lemma {:induction false} RemaindersOf(codec: Codec, jsonStream: bool, lines: seq<string>)
    returns (rests: seq<seq<Item>>)
    ensures Remainders(codec, jsonStream, lines, rests) && rests[0] == Items(codec, jsonStream, lines)
  {
    if lines == [] {
      rests := [[]];
    } else {
      var tail := RemaindersOf(codec, jsonStream, lines[1..]);
      rests := [Items(codec, jsonStream, lines)] + tail;
      forall n | 0 <= n < |lines| ensures rests[n] == LineItems(codec, jsonStream, lines[n]) + rests[n + 1] {
        if n > 0 {
          assert rests[n] == tail[n - 1] && rests[n + 1] == tail[n] && lines[1..][n - 1] == lines[n];
        }
      }
    }
  }

  lemma Taken<T>(all: seq<T>, taken: seq<T>, items: seq<T>, rest: seq<T>)
    requires all == taken + (items + rest)
    ensures all == (taken + items) + rest
  {}

  /** Keeping the newest before more items come makes no difference. */
  lemma NewestOnTop<T>(q: seq<T>, taken: seq<T>, more: seq<T>)
    ensures Newest(Newest(q + taken, QUEUE_MAX) + more, QUEUE_MAX) == Newest(q + (taken + more), QUEUE_MAX)
  {}

  // ---- producer and pollers interleaved, one queue operation at a time ---------------------------

  /** Where the producer is: between items, about to put, told the queue is full, or holding a
      dropped item it has not counted yet.  tries is how often put_nowait has said Full. */
  datatype Producer<T> =
    | Between | Putting(item: T, tries: nat) | Full(item: T, tries: nat) | Counting(item: T, tries: nat) | Over

  /** who is None for a drop, else the poller. */
  datatype Removal<T> = Removal(item: T, who: Option<nat>)

  datatype Poller<T> = Poller(max: nat, items: seq<T>, done: bool)

  /** put and removed are history: what went into the queue and what came out, in order. */
  datatype State<T> = State(
    stream: seq<T>, producer: Producer<T>, queue: seq<T>, dropped: nat, pollers: seq<Poller<T>>,
    put: seq<T>, removed: seq<Removal<T>>)

  /** Produce runs the producer's next queue operation, Poll(p) that of poller p;
      Enter is a new poll call. */
  datatype Action = Produce | Enter(max: nat) | Poll(p: nat)

  function Take<T>(s: State<T>, who: Option<nat>): State<T>
    requires s.queue != []
  {
    s.(queue := s.queue[1..], removed := s.removed + [Removal(s.queue[0], who)])
  }

  function Produced<T>(s: State<T>): State<T> {
    match s.producer
    case Between =>
      if s.stream == [] then s.(producer := Over)
      else s.(stream := s.stream[1..], producer := Putting(s.stream[0], 0))
    case Putting(item, tries) =>
      var q := PutNowait(s.queue, item);
      if q.Some? then s.(queue := q.value, put := s.put + [item], producer := Between)
      else s.(producer := Full(item, tries + 1))
    case Full(item, tries) =>
      if s.queue == [] then s.(producer := Putting(item, tries))
      else Take(s, None).(producer := Counting(item, tries))
    case Counting(item, tries) => s.(dropped := s.dropped + 1, producer := Putting(item, tries))
    case Over => s
  }

  function Polled<T>(s: State<T>, p: nat): State<T>
    requires p < |s.pollers|
  {
    var me := s.pollers[p];
    if me.done then s
    else if |me.items| >= me.max || s.queue == [] then s.(pollers := s.pollers[p := me.(done := true)])
    else Take(s, Some(p)).(pollers := s.pollers[p := me.(items := me.items + [s.queue[0]])])
  }

  function Step<T>(s: State<T>, a: Action): State<T> {
    match a
    case Produce => Produced(s)
    case Enter(max) => s.(pollers := s.pollers + [Poller(max, [], false)])
    case Poll(p) => if p < |s.pollers| then Polled(s, p) else s
  }

  function Run<T>(s: State<T>, acts: seq<Action>): State<T> {
    if acts == [] then s else Step(Run(s, acts[..|acts| - 1]), acts[|acts| - 1])
  }

  function Start<T>(stream: seq<T>): State<T> {
    State(stream, Between, [], 0, [], [], [])
  }

  // ---- runs of the machine --------------------------------------------------------------------

  ghost predicate Reaches<T>(s: State<T>, t: State<T>) { exists acts :: t == Run(s, acts) }

  lemma {:induction false} RunOn<T>(s: State<T>, a: seq<Action>, b: seq<Action>)
    ensures Run(s, a + b) == Run(Run(s, a), b)
  {
    if b == [] {
      assert a + b == a;
    } else {
      RunOn(s, a, b[..|b| - 1]);
      assert (a + b)[..|a + b| - 1] == a + b[..|b| - 1];
    }
  }

  lemma ReachesSelf<T>(s: State<T>)
    ensures Reaches(s, s)
  {
    assert s == Run(s, []);
  }

  lemma ReachesStep<T>(s: State<T>, t: State<T>, a: Action)
    requires Reaches(s, t)
    ensures Reaches(s, Step(t, a))
  {
    var acts :| t == Run(s, acts);
    assert (acts + [a])[..|acts|] == acts;
    assert Step(t, a) == Run(s, acts + [a]);
  }

  lemma ReachesOn<T>(s: State<T>, t: State<T>, u: State<T>)
    requires Reaches(s, t) && Reaches(t, u)
    ensures Reaches(s, u)
  {
    var a :| t == Run(s, a);
    var b :| u == Run(t, b);
    RunOn(s, a, b);
  }

  /** One round of the producer's retry loop. */
  lemma PutRound<T>(s0: State<T>, s: State<T>, item: T, tries: nat)
    requires Reaches(s0, s) && s.producer == Putting(item, tries)
    ensures |s.queue| < QUEUE_MAX ==>
              Reaches(s0, s.(queue := s.queue + [item], put := s.put + [item], producer := Between))
    ensures |s.queue| >= QUEUE_MAX ==>
              Reaches(s0, Take(s, None).(dropped := s.dropped + 1, producer := Putting(item, tries + 1)))
  {
    ReachesStep(s0, s, Produce);
    if |s.queue| >= QUEUE_MAX {
      var s1 := s.(producer := Full(item, tries + 1));
      ReachesStep(s0, s1, Produce);
      ReachesStep(s0, Take(s, None).(producer := Counting(item, tries + 1)), Produce);
    }
  }

  // ---- the code ----------------------------------------------------------------------------------

  /** put and removed are the machine's history, kept beside the fields of the source. */
  class Subscription {
    var queue: seq<Item>
    var dropped: nat
    var stopped: bool
    ghost var put: seq<Item>
    ghost var removed: seq<Removal<Item>>

    constructor ()
      ensures queue == [] && dropped == 0 && !stopped && put == [] && removed == []
    {
      queue, dropped, stopped, put, removed := [], 0, false, [], [];
    }

    predicate Bounded() reads this { |queue| <= QUEUE_MAX }

    /** The machine state with this queue, the given producer and the given poll calls. */
    ghost function View(stream: seq<Item>, producer: Producer<Item>, pollers: seq<Poller<Item>>): State<Item>
      reads this
    {
      State(stream, producer, queue, dropped, pollers, put, removed)
    }

    method Put(item: Item) returns (full: bool)
      modifies this`queue, this`put
      ensures full <==> |old(queue)| >= QUEUE_MAX
      ensures queue == if full then old(queue) else old(queue) + [item]
      ensures put == if full then old(put) else old(put) + [item]
    {
      var q := PutNowait(queue, item);
      if q.Some? {
        queue := q.value;
        put := put + [item];
      }
      full := q.None?;
    }

    /** None stands for queue.Empty. */
    method Get(ghost who: Option<nat>) returns (item: Option<Item>)
      modifies this`queue, this`removed
      ensures old(queue) == [] ==> item.None? && queue == [] && removed == old(removed)
      ensures old(queue) != [] ==> item == Some(old(queue)[0]) && queue == old(queue)[1..] &&
                                   removed == old(removed) + [Removal(old(queue)[0], who)]
    {
      if queue == [] {
        return None;
      }
      item := Some(queue[0]);
      removed := removed + [Removal(queue[0], who)];
      queue := queue[1..];
    }

    /** The put/drop retry loop: room is made for the item by dropping the oldest one.  The machine
        gets there by the producer's operations alone. */
    method Offer(item: Item, ghost stream: seq<Item>, ghost pollers: seq<Poller<Item>>)
      requires Bounded()
      modifies this`queue, this`dropped, this`put, this`removed
      ensures Bounded()
      ensures queue == (if |old(queue)| == 500 then old(queue)[1..] else old(queue)) + [item]
      ensures dropped == old(dropped) + if |old(queue)| == 500 then 1 else 0
      ensures Reaches(old(View(stream, Putting(item, 0), pollers)), View(stream, Between, pollers))
    {
      ghost var tries: nat := 0;
      ghost var s0 := View(stream, Putting(item, 0), pollers);
      ReachesSelf(s0);
      while true
        invariant Bounded()
        invariant || (queue == old(queue) && dropped == old(dropped))
                  || (|old(queue)| == QUEUE_MAX && queue == old(queue)[1..] && dropped == old(dropped) + 1)
        invariant Reaches(s0, View(stream, Putting(item, tries), pollers))
        decreases |queue|
      {
        PutRound(s0, View(stream, Putting(item, tries), pollers), item, tries);
        var full := Put(item);
        if !full {
          break;
        }
        var oldest := Get(None);
        if oldest.Some? {
          dropped := dropped + 1;
        }
        tries := tries + 1;
      }
    }

    /** One line of the reader's loop. */
    method ReadLine(codec: Codec, jsonStream: bool, line: string, ghost s0: State<Item>, ghost rest: seq<Item>,
                    ghost pollers: seq<Poller<Item>>)
      requires Bounded()
      requires Reaches(s0, View(LineItems(codec, jsonStream, line) + rest, Between, pollers))
      modifies this`queue, this`dropped, this`put, this`removed
      ensures Bounded()
      ensures queue == Newest(old(queue) + LineItems(codec, jsonStream, line), QUEUE_MAX)
      ensures dropped + |queue| == old(dropped) + |old(queue)| + |LineItems(codec, jsonStream, line)|
      ensures Reaches(s0, View(rest, Between, pollers))
    {
      var text := codec.strip(line);
      if text == "" {
        assert LineItems(codec, jsonStream, line) + rest == rest;
        return;
      }
      var item := ItemOf(codec, jsonStream, text);
      assert ([item] + rest)[0] == item && ([item] + rest)[1..] == rest;
      ReachesStep(s0, View([item] + rest, Between, pollers), Produce);
      ghost var s1 := View(rest, Putting(item, 0), pollers);
      Offer(item, rest, pollers);
      ReachesOn(s0, s1, View(rest, Between, pollers));
    }

    /** The reader thread, nobody polling meanwhile: the queue ends up with the newest 500 of
        what it held and what the stream brought, and everything pushed out is counted. */
    method ReadLines(codec: Codec, jsonStream: bool, lines: seq<string>, ghost pollers: seq<Poller<Item>>)
      requires Bounded()
      modifies this
      ensures Bounded() && stopped
      ensures var offered := old(queue) + Items(codec, jsonStream, lines);
              queue == Newest(offered, 500) && dropped - old(dropped) == |offered| - |queue|
      ensures Reaches(old(View(Items(codec, jsonStream, lines), Between, pollers)), View([], Over, pollers))
    {
      ghost var rests := RemaindersOf(codec, jsonStream, lines);
      ReadAll(codec, jsonStream, lines, rests, pollers);
      ReachesStep(old(View(rests[0], Between, pollers)), View([], Between, pollers), Produce);
      stopped := true;
    }

    /** Its loop. */
    method ReadAll(codec: Codec, jsonStream: bool, lines: seq<string>, ghost rests: seq<seq<Item>>,
                   ghost pollers: seq<Poller<Item>>)
      requires Bounded() && Remainders(codec, jsonStream, lines, rests)
      modifies this`queue, this`dropped, this`put, this`removed
      ensures Bounded()
      ensures queue == Newest(old(queue) + rests[0], QUEUE_MAX)
      ensures dropped + |queue| == old(dropped) + |old(queue)| + |rests[0]|
      ensures Reaches(old(View(rests[0], Between, pollers)), View([], Between, pollers))
    {
      ghost var s0 := View(rests[0], Between, pollers);
      ReachesSelf(s0);
      ghost var taken := [];
      for n := 0 to |lines|
        invariant Bounded() && rests[0] == taken + rests[n]
        invariant queue == Newest(old(queue) + taken, QUEUE_MAX)
        invariant dropped + |queue| == old(dropped) + |old(queue)| + |taken|
        invariant Reaches(s0, View(rests[n], Between, pollers))
      {
        ghost var items := LineItems(codec, jsonStream, lines[n]);
        NewestOnTop(old(queue), taken, items);
        Taken(rests[0], taken, items, rests[n + 1]);
        ReadLine(codec, jsonStream, lines[n], s0, rests[n + 1], pollers);
        taken := taken + items;
      }
    }

    /** One poll call, nothing put meanwhile.  In the machine it is one more poller, run to its end. */
    method Poll(maxItems: nat, ghost stream: seq<Item>, ghost producer: Producer<Item>,
                ghost pollers: seq<Poller<Item>>)
      returns (items: seq<Item>, isStopped: bool, droppedSoFar: nat)
      modifies this`queue, this`removed
      ensures items == old(queue)[..Min(maxItems, |old(queue)|)]
      ensures queue == old(queue)[|items|..]
      ensures isStopped == stopped && droppedSoFar == dropped
      ensures Reaches(old(View(stream, producer, pollers)),
                      View(stream, producer, pollers + [Poller(maxItems, items, true)]))
    {
      items := [];
      ghost var s0 := View(stream, producer, pollers);
      ghost var p := |pollers|;
      ReachesSelf(s0);
      ReachesStep(s0, s0, Enter(maxItems));
      while |items| < maxItems
        invariant |items| <= Min(maxItems, |old(queue)|)
        invariant items == old(queue)[..|items|] && queue == old(queue)[|items|..]
        invariant Reaches(s0, View(stream, producer, pollers + [Poller(maxItems, items, false)]))
        decreases maxItems - |items|
      {
        ghost var me := Poller(maxItems, items, false);
        ReachesStep(s0, View(stream, producer, pollers + [me]), Action.Poll(p));
        var item := Get(Some(p));
        if item.None? {
          break;
        }
        items := items + [item.value];
        assert (pollers + [me])[p := Poller(maxItems, items, false)] == pollers + [Poller(maxItems, items, false)];
      }
      isStopped, droppedSoFar := stopped, dropped;
      ghost var me := Poller(maxItems, items, false);
      ReachesStep(s0, View(stream, producer, pollers + [me]), Action.Poll(p));
      assert (pollers + [me])[p := me.(done := true)] == pollers + [Poller(maxItems, items, true)];
    }
  }

  /** Once the reader has ended, ten polls of 50 return exactly the queue's contents, in order, and
      leave it empty. */
  method DrainInTenPolls(sub: Subscription, ghost stream: seq<Item>, ghost pollers: seq<Poller<Item>>)
    returns (all: seq<Item>)
    requires sub.Bounded()
    modifies sub
    ensures all == old(sub.queue) && sub.queue == []
    ensures sub.dropped == old(sub.dropped) && sub.stopped == old(sub.stopped)
  {
    all := [];
    ghost var callers := pollers;
    for n := 0 to 10
      invariant |sub.queue| <= QUEUE_MAX - n * POLL_MAX
      invariant all + sub.queue == old(sub.queue)
      invariant sub.dropped == old(sub.dropped) && sub.stopped == old(sub.stopped)
    {
      var items, _, _ := sub.Poll(POLL_MAX, stream, Over, callers);
      callers := callers + [Poller(POLL_MAX, items, true)];
      all := all + items;
    }
  }

  // ---- what every interleaving keeps ---------------------------------------------------------

  function ItemsOut<T>(removed: seq<Removal<T>>): seq<T> {
    if removed == [] then [] else ItemsOut(removed[..|removed| - 1]) + [removed[|removed| - 1].item]
  }

  function ItemsBy<T>(removed: seq<Removal<T>>, who: Option<nat>): seq<T> {
    if removed == [] then []
    else
      var last := removed[|removed| - 1];
      ItemsBy(removed[..|removed| - 1], who) + if last.who == who then [last.item] else []
  }

  /** Everything any poll took out, in the order it was taken. */
  function PolledItems<T>(removed: seq<Removal<T>>): seq<T> {
    if removed == [] then []
    else
      var last := removed[|removed| - 1];
      PolledItems(removed[..|removed| - 1]) + if last.who.Some? then [last.item] else []
  }

  function InHand<T>(p: Producer<T>): seq<T> {
    match p
    case Putting(item, _) => [item]
    case Full(item, _) => [item]
    case Counting(item, _) => [item]
    case _ => []
  }

  /** What left the queue, then what is in it, is what was put, which is a prefix of the stream. */
  ghost predicate InOrder<T>(stream: seq<T>, s: State<T>) {
    && ItemsOut(s.removed) + s.queue == s.put
    && s.put + InHand(s.producer) + s.stream == stream
  }

  /** Every put item was polled, dropped, or is queued; one drop may still be uncounted. */
  ghost predicate Accounted<T>(s: State<T>) {
    |PolledItems(s.removed)| + s.dropped + |s.queue| + (if s.producer.Counting? then 1 else 0) == |s.put|
  }

  /** Each poll call's reply is what it took out, in order, and no more than it asked for. */
  ghost predicate RepliesExact<T>(s: State<T>) {
    && (forall p :: 0 <= p < |s.pollers| ==>
          s.pollers[p].items == ItemsBy(s.removed, Some(p)) && |s.pollers[p].items| <= s.pollers[p].max)
    && (forall n :: 0 <= n < |s.removed| && s.removed[n].who.Some? ==> s.removed[n].who.value < |s.pollers|)
  }

  /** The bound holds, and an item is placed by its second attempt. */
  predicate Progressing<T>(s: State<T>) {
    && |s.queue| <= QUEUE_MAX
    && (s.producer.Putting? ==> s.producer.tries <= 1 && (s.producer.tries == 1 ==> |s.queue| < QUEUE_MAX))
    && (s.producer.Full? ==> s.producer.tries == 1)
    && (s.producer.Counting? ==> s.producer.tries == 1 && |s.queue| < QUEUE_MAX)
    && (s.producer.Over? ==> s.stream == [])
  }

  ghost predicate Conserved<T>(stream: seq<T>, s: State<T>) {
    InOrder(stream, s) && Accounted(s) && RepliesExact(s) && Progressing(s)
  }

  lemma RemovedAppend<T>(removed: seq<Removal<T>>, r: Removal<T>, who: Option<nat>)
    ensures ItemsOut(removed + [r]) == ItemsOut(removed) + [r.item]
    ensures ItemsBy(removed + [r], who) == ItemsBy(removed, who) + if r.who == who then [r.item] else []
    ensures PolledItems(removed + [r]) == PolledItems(removed) + if r.who.Some? then [r.item] else []
  {
    assert (removed + [r])[..|removed|] == removed;
  }

  lemma {:induction false} NothingByStrangers<T>(removed: seq<Removal<T>>, p: nat)
    requires forall n :: 0 <= n < |removed| && removed[n].who.Some? ==> removed[n].who.value < p
    ensures ItemsBy(removed, Some(p)) == []
  {
    if removed != [] {
      NothingByStrangers(removed[..|removed| - 1], p);
    }
  }

  lemma TakeOrder<T>(s: State<T>, who: Option<nat>)
    requires s.queue != []
    ensures ItemsOut(Take(s, who).removed) + Take(s, who).queue == ItemsOut(s.removed) + s.queue
    ensures |PolledItems(Take(s, who).removed)| == |PolledItems(s.removed)| + if who.Some? then 1 else 0
  {
    RemovedAppend(s.removed, Removal(s.queue[0], who), who);
    assert [s.queue[0]] + s.queue[1..] == s.queue;
  }

  lemma FetchInOrder<T>(stream: seq<T>, s: State<T>)
    requires InOrder(stream, s) && s.producer.Between?
    ensures InOrder(stream, Produced(s))
  {
    if s.stream != [] {
      assert s.stream == [s.stream[0]] + s.stream[1..];
      assert s.put + [] + s.stream == s.put + [s.stream[0]] + s.stream[1..];
    }
  }

  lemma PutInOrder<T>(stream: seq<T>, s: State<T>)
    requires InOrder(stream, s) && s.producer.Putting?
    ensures InOrder(stream, Produced(s))
  {
    var t := Produced(s);
    if t.producer.Between? {
      assert t.put + [] + t.stream == s.put + [s.producer.item] + s.stream;
    }
  }

  lemma ProduceInOrder<T>(stream: seq<T>, s: State<T>)
    requires InOrder(stream, s)
    ensures InOrder(stream, Produced(s))
  {
    match s.producer
    case Between => FetchInOrder(stream, s);
    case Putting(_, _) => PutInOrder(stream, s);
    case Full(_, _) =>
      if s.queue != [] {
        TakeOrder(s, None);
      }
    case _ =>
  }

  lemma ProduceAccounted<T>(s: State<T>)
    requires Accounted(s)
    ensures Accounted(Produced(s))
  {
    if s.producer.Full? && s.queue != [] {
      TakeOrder(s, None);
    }
  }

  lemma ProduceReplies<T>(s: State<T>)
    requires RepliesExact(s)
    ensures RepliesExact(Produced(s))
  {
    var t := Produced(s);
    if s.producer.Full? && s.queue != [] {
      forall p | 0 <= p < |s.pollers| ensures t.pollers[p].items == ItemsBy(t.removed, Some(p)) {
        RemovedAppend(s.removed, Removal(s.queue[0], None), Some(p));
      }
    }
  }

  lemma PollOrder<T>(stream: seq<T>, s: State<T>, p: nat)
    requires InOrder(stream, s) && Accounted(s) && p < |s.pollers|
    ensures InOrder(stream, Polled(s, p)) && Accounted(Polled(s, p))
  {
    if s.queue != [] {
      TakeOrder(s, Some(p));
    }
  }

  lemma PollReplies<T>(s: State<T>, p: nat)
    requires RepliesExact(s) && p < |s.pollers|
    ensures RepliesExact(Polled(s, p))
  {
    var t := Polled(s, p);
    var me := s.pollers[p];
    if !me.done && |me.items| < me.max && s.queue != [] {
      forall o | 0 <= o < |s.pollers| ensures t.pollers[o].items == ItemsBy(t.removed, Some(o)) {
        RemovedAppend(s.removed, Removal(s.queue[0], Some(p)), Some(o));
      }
    }
  }

  lemma EnterConserves<T>(stream: seq<T>, s: State<T>, max: nat)
    requires Conserved(stream, s)
    ensures Conserved(stream, Step(s, Enter(max)))
  {
    NothingByStrangers(s.removed, |s.pollers|);
  }

  lemma ProduceConserves<T>(stream: seq<T>, s: State<T>)
    requires Conserved(stream, s)
    ensures Conserved(stream, Produced(s))
  {
    ProduceInOrder(stream, s);
    ProduceAccounted(s);
    ProduceReplies(s);
  }

  lemma PollConserves<T>(stream: seq<T>, s: State<T>, p: nat)
    requires Conserved(stream, s) && p < |s.pollers|
    ensures Conserved(stream, Polled(s, p))
  {
    PollOrder(stream, s, p);
    PollReplies(s, p);
  }

  /** Under every interleaving of the producer's queue operations with those of any number of
      polls: nothing is lost, duplicated or reordered, the bound holds, and put_nowait says
      Full at most once per item. */
  lemma {:induction false} QueueConservation<T>(stream: seq<T>, acts: seq<Action>)
    ensures Conserved(stream, Run(Start(stream), acts))
  {
    if acts != [] {
      var s := Run(Start(stream), acts[..|acts| - 1]);
      QueueConservation(stream, acts[..|acts| - 1]);
      match acts[|acts| - 1]
      case Produce => ProduceConserves(stream, s);
      case Enter(max) => EnterConserves(stream, s, max);
      case Poll(p) => if p < |s.pollers| { PollConserves(stream, s, p); }
    }
  }

  /** at is strictly increasing and picks the items of part out of whole. */
  ghost predicate Embeds<T>(part: seq<T>, whole: seq<T>, at: seq<nat>) {
    && |at| == |part|
    && (forall n :: 0 <= n < |at| ==> at[n] < |whole| && part[n] == whole[at[n]])
    && (forall m, n :: 0 <= m < n < |at| ==> at[m] < at[n])
  }

  lemma EmbedsNext<T>(part: seq<T>, whole: seq<T>, at: seq<nat>, x: T)
    requires Embeds(part, whole, at)
    ensures Embeds(part, whole + [x], at)
    ensures Embeds(part + [x], whole + [x], at + [|whole|])
  {
    var next := at + [|whole|];
    forall n | 0 <= n < |next| ensures next[n] < |whole| + 1 && (part + [x])[n] == (whole + [x])[next[n]] {
      if n < |at| {
        assert next[n] == at[n];
      }
    }
    forall m, n | 0 <= m < n < |next| ensures next[m] < next[n] {
      assert next[m] == at[m];
    }
  }

  lemma {:induction false} OneRemoverEmbeds<T>(removed: seq<Removal<T>>, who: Option<nat>) returns (at: seq<nat>)
    ensures Embeds(ItemsBy(removed, who), ItemsOut(removed), at)
  {
    if removed == [] {
      at := [];
    } else {
      var n := |removed| - 1;
      at := OneRemoverEmbeds(removed[..n], who);
      EmbedsNext(ItemsBy(removed[..n], who), ItemsOut(removed[..n]), at, removed[n].item);
      if removed[n].who == who {
        at := at + [|ItemsOut(removed[..n])|];
      } else {
        assert ItemsBy(removed, who) == ItemsBy(removed[..n], who);
      }
    }
  }

  lemma {:induction false} AllPolledEmbed<T>(removed: seq<Removal<T>>) returns (at: seq<nat>)
    ensures Embeds(PolledItems(removed), ItemsOut(removed), at)
  {
    if removed == [] {
      at := [];
    } else {
      var n := |removed| - 1;
      at := AllPolledEmbed(removed[..n]);
      EmbedsNext(PolledItems(removed[..n]), ItemsOut(removed[..n]), at, removed[n].item);
      if removed[n].who.Some? {
        at := at + [|ItemsOut(removed[..n])|];
      } else {
        assert PolledItems(removed) == PolledItems(removed[..n]);
      }
    }
  }

  lemma EmbedsLonger<T>(part: seq<T>, whole: seq<T>, more: seq<T>, at: seq<nat>)
    requires Embeds(part, whole, at)
    ensures Embeds(part, whole + more, at)
  {}

  /** What has left the queue is a prefix of the stream. */
  lemma RemovedIsAPrefix<T>(stream: seq<T>, acts: seq<Action>) returns (rest: seq<T>)
    ensures stream == ItemsOut(Run(Start(stream), acts).removed) + rest
  {
    var s := Run(Start(stream), acts);
    QueueConservation(stream, acts);
    rest := s.queue + InHand(s.producer) + s.stream;
    Regroup(ItemsOut(s.removed), s.queue, InHand(s.producer), s.stream);
  }

  lemma Regroup<T>(a: seq<T>, b: seq<T>, c: seq<T>, d: seq<T>)
    ensures a + b + c + d == a + (b + c + d)
  {}

  /** What any one poll call returns, and what all of them together return, is a subsequence of
      the stream, whatever else ran. */
  lemma PolledIsASubsequence<T>(stream: seq<T>, acts: seq<Action>, p: nat)
    requires p < |Run(Start(stream), acts).pollers|
    ensures exists at :: Embeds(Run(Start(stream), acts).pollers[p].items, stream, at)
    ensures exists at :: Embeds(PolledItems(Run(Start(stream), acts).removed), stream, at)
  {
    var s := Run(Start(stream), acts);
    var rest := RemovedIsAPrefix(stream, acts);
    QueueConservation(stream, acts);
    assert s.pollers[p].items == ItemsBy(s.removed, Some(p));
    var one := OneRemoverEmbeds(s.removed, Some(p));
    EmbedsLonger(ItemsBy(s.removed, Some(p)), ItemsOut(s.removed), rest, one);
    var all := AllPolledEmbed(s.removed);
    EmbedsLonger(PolledItems(s.removed), ItemsOut(s.removed), rest, all);
  }
}
