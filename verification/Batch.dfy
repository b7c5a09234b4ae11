/** Batch perceive: parsing the body, validating every entry before running any, and filling the
    answer slots with the replies of the pipeline's requests as they finish (daemon.py). */
module Batch {
  import opened Common
  import A = Argv
  import B = Breaker
  import C = Catalog
  import P = Pipeline
  import W = PipelineAnswers

  /** The JSON of one batch entry as far as parsing looks at it: args is None when absent,
      and an inner None marks a value that is not an object. */
  datatype RawEntry = JustName(name: string) | Named(name: string, args: Option<Option<Args>>) | Malformed

  datatype Entry = Entry(name: string, args: Args)

  datatype ParseError = NotANonEmptyList | ArgsNotAnObject | BadEntry

  function EntryOf(raw: RawEntry): Result<Entry, ParseError> {
    match raw
    case JustName(n) => Ok(Entry(n, map[]))
    case Named(n, args) =>
      if args.None? then Ok(Entry(n, map[]))
      else if args.value.None? then Err(ArgsNotAnObject)
      else Ok(Entry(n, args.value.value))
    case Malformed => Err(BadEntry)
  }

  /** The index of the first entry that fails, or the length. */
  function FirstBad<T>(s: seq<T>, bad: T -> bool): nat
    ensures FirstBad(s, bad) <= |s|
    ensures forall i :: 0 <= i < FirstBad(s, bad) ==> !bad(s[i])
    ensures FirstBad(s, bad) < |s| ==> bad(s[FirstBad(s, bad)])
  {
    if s == [] || bad(s[0]) then 0 else 1 + FirstBad(s[1..], bad)
  }

  /** A name, or a name with arguments that are an object if they are there at all. */
  predicate Readable(raw: RawEntry) { raw.JustName? || (raw.Named? && raw.args != Some(None)) }

  predicate IsEntry(raw: RawEntry, e: Entry)
    requires Readable(raw)
  {
    e.name == raw.name && e.args == if raw.Named? && raw.args.Some? then raw.args.value.value else map[]
  }

  /** verbs: None when the field is missing or no list. */
  method ParseBatch(verbs: Option<seq<RawEntry>>) returns (r: Result<seq<Entry>, ParseError>)
    ensures r == Err(NotANonEmptyList) <==> verbs.None? || verbs.value == []
    ensures r.Ok? <==>
              verbs.Some? && verbs.value != [] && forall i :: 0 <= i < |verbs.value| ==> Readable(verbs.value[i])
    ensures r.Ok? ==>
              |r.value| == |verbs.value| && forall i :: 0 <= i < |r.value| ==> IsEntry(verbs.value[i], r.value[i])
    ensures r.Err? && r.error != NotANonEmptyList ==>
              exists i :: 0 <= i < |verbs.value| && !Readable(verbs.value[i]) &&
                          (forall j :: 0 <= j < i ==> Readable(verbs.value[j])) &&
                          r.error == if verbs.value[i].Malformed? then BadEntry else ArgsNotAnObject
  {
    if verbs.None? || verbs.value == [] {
      return Err(NotANonEmptyList);
    }
    var out: seq<Entry> := [];
    for n := 0 to |verbs.value|
      invariant |out| == n
      invariant forall i :: 0 <= i < n ==> Readable(verbs.value[i]) && IsEntry(verbs.value[i], out[i])
    {
      var e := EntryOf(verbs.value[n]);
      if e.Err? {
        return Err(e.error);
      }
      out := out + [e.value];
    }
    r := Ok(out);
  }

  datatype Refusal = UnknownVerb(name: string) | NotBatchable(name: string) | BadArgs(e: C.ArgError)

  /** The first check an entry fails. */
  function RefusalOf(c: C.Catalog, e: Entry): Option<Refusal> {
    if e.name !in c.verbs then Some(UnknownVerb(e.name))
    else
      var v := c.verbs[e.name];
      if v.tier != C.TierA || v.direction != C.Perceive then Some(NotBatchable(e.name))
      else
        var bad := C.ArgCheck(v, e.args);
        if bad.Some? then Some(BadArgs(bad.value)) else None
  }

  /** A batch accepts an entry exactly when the single perceive route would take it to the gate. */
  lemma BatchAcceptsWhatPerceiveAccepts(c: C.Catalog, e: Entry, r: P.Request)
    requires r.route == P.PerceiveRoute && r.verb == e.name && r.args == e.args
    ensures RefusalOf(c, e).None? <==> P.Early(c, r).None?
  {}

  /** The batch answer: a refusal, the slots, or the exception that ends the request without one. */
  datatype Answer = Refused(status: nat, why: Refusal) | Items(items: seq<Slot>) | Raised

  datatype Slot = Slot(name: string, status: nat, body: P.Body)

  /** Only ValueErrors are turned into a 400. */
  function RefusalAnswer(why: Refusal): Answer {
    match why
    case UnknownVerb(_) => Refused(404, why)
    case NotBatchable(_) => Refused(400, why)
    case BadArgs(e) => if C.IsValueError(e) then Refused(400, why) else Raised
  }

  /** What the perceive route would take to the gate. */
  ghost predicate Acceptable(c: C.Catalog, e: Entry) {
    e.name in c.verbs && c.verbs[e.name].tier == C.TierA && c.verbs[e.name].direction == C.Perceive &&
    A.Valid(c.verbs[e.name], e.args)
  }

  /** The answer to a batch with this bad entry says what is wrong with it. */
  ghost predicate TurnedAway(c: C.Catalog, e: Entry, answer: Answer) {
    && (answer == Refused(404, UnknownVerb(e.name)) <==> e.name !in c.verbs)
    && (e.name in c.verbs ==>
          var v := c.verbs[e.name];
          var suits := v.tier == C.TierA && v.direction == C.Perceive;
          var nameless := A.RightNames(v, e.args) && !C.PlaceholdersBound(v);
          && (answer == Refused(400, NotBatchable(e.name)) <==> !suits)
          && (answer == Raised <==> suits && nameless)
          && (suits && !nameless ==>
                answer.Refused? && answer.status == 400 && answer.why.BadArgs? && A.Blames(v, e.args, answer.why.e)))
  }

  /** With a loaded catalog, an entry is refused exactly if it is not acceptable, and rightly. */
  lemma RefusalsAreExact(c: C.Catalog, e: Entry)
    requires C.Loaded(c)
    ensures RefusalOf(c, e).None? <==> Acceptable(c, e)
    ensures RefusalOf(c, e).Some? ==> TurnedAway(c, e, RefusalAnswer(RefusalOf(c, e).value))
  {
    if e.name in c.verbs {
      A.ArgCheckExact(c.verbs[e.name], e.args);
      A.KeysAreNames(c.verbs[e.name], e.args);
      C.BuildArgvOk(c.verbs[e.name], e.args);
    }
  }

  /** order is a permutation of the slots: the order in which the workers happen to finish. */
  ghost predicate Permutes(order: seq<nat>, n: nat) {
    && |order| == n
    && (forall i :: 0 <= i < n ==> order[i] < n)
    && (forall i, j :: 0 <= i < j < n ==> order[i] != order[j])
  }

  lemma {:induction false} PermutationHits(order: seq<nat>, n: nat, k: nat)
    requires Permutes(order, n) && k < n
    ensures exists i :: 0 <= i < n && order[i] == k
  {
    if forall i :: 0 <= i < n ==> order[i] != k {
      var hit := set i | 0 <= i < n :: order[i];
      ImageSize(order);
      NumbersBelow(n);
      assert hit <= Numbers(n) - {k};
      Smaller(hit, Numbers(n) - {k});
    }
  }

  lemma {:induction false} ImageSize(order: seq<nat>)
    requires forall i, j :: 0 <= i < j < |order| ==> order[i] != order[j]
    ensures |set i | 0 <= i < |order| :: order[i]| == |order|
  {
    if order != [] {
      var n := |order| - 1;
      var init := order[..n];
      assert forall i :: 0 <= i < n ==> init[i] == order[i];
      ImageSize(init);
      var small := set i | 0 <= i < |init| :: init[i];
      assert (set i | 0 <= i < |order| :: order[i]) == small + {order[n]};
    }
  }

  function Numbers(n: nat): set<nat> {
    if n == 0 then {} else Numbers(n - 1) + {n - 1}
  }

  lemma {:induction false} NumbersBelow(n: nat)
    ensures |Numbers(n)| == n && forall x: nat :: x in Numbers(n) <==> x < n
  {
    if n > 0 {
      NumbersBelow(n - 1);
    }
  }

  lemma {:induction false} Smaller<T>(a: set<T>, b: set<T>)
    requires a <= b
    ensures |a| <= |b|
  {
    if x :| x in a {
      Smaller(a - {x}, b - {x});
    }
  }

  // ---- the batch on the pipeline ---------------------------------------------------------------

  /** What the human and the system will answer to one entry. */
  datatype Fate = Fate(yes: bool, process: C.Process)

  function RequestOf(e: Entry, fate: Fate): P.Request {
    P.Request(P.PerceiveRoute, e.name, e.args, fate.yes, fate.process, C.SpawnCrashed, P.Arrived, [], false, false)
  }

  /** The state with one new request per entry, behind those already there. */
  function Submitted(s: P.State, entries: seq<Entry>, fates: seq<Fate>): (t: P.State)
    requires |fates| == |entries|
    ensures t == s.(requests := t.requests) && |t.requests| == |s.requests| + |entries|
    ensures forall k :: 0 <= k < |s.requests| ==> t.requests[k] == s.requests[k]
    ensures forall i :: 0 <= i < |entries| ==> t.requests[|s.requests| + i] == RequestOf(entries[i], fates[i])
  {
    s.(requests := s.requests + seq(|entries|, i requires 0 <= i < |entries| => RequestOf(entries[i], fates[i])))
  }

  predicate Replied(s: P.State, k: nat) { k < |s.requests| && s.requests[k].pc.Replied? }

  /** Every worker of a batch that started at request base is done. */
  predicate AllReplied(s: P.State, base: nat, n: nat) { forall k :: base <= k < base + n ==> Replied(s, k) }

  function ReplyAt(s: P.State, k: nat): P.Reply
    requires Replied(s, k)
  {
    s.requests[k].pc.reply
  }

  predicate AllPass(c: C.Catalog, entries: seq<Entry>) {
    forall i :: 0 <= i < |entries| ==> RefusalOf(c, entries[i]).None?
  }

  function SlotOf(e: Entry, reply: P.Reply): Slot { Slot(e.name, reply.status, reply.body) }

  class Server {
    const c: C.Catalog
    const cfg: B.Config
    var state: P.State

    constructor (c: C.Catalog, cfg: B.Config, state: P.State)
      ensures this.c == c && this.cfg == cfg && this.state == state
    {
      this.c, this.cfg, this.state := c, cfg, state;
    }

    /** acts is what the workers and everybody else do until the last worker is done, order the
        order in which the results are then taken up.  A batch with a bad entry leaves the audit
        file, the store and the dialogs alone; otherwise, whatever the interleaving and the order,
        slot i holds the name of entry i and the reply of its own request, and none is empty. */
    method BatchPerceive(entries: seq<Entry>, fates: seq<Fate>, acts: seq<P.Action>, order: seq<nat>)
      returns (answer: Answer)
      requires |fates| == |entries| && Permutes(order, |entries|)
      requires AllPass(c, entries) ==>
                 AllReplied(P.Run(c, cfg, Submitted(state, entries, fates), acts), |state.requests|, |entries|)
      modifies this`state
      ensures !AllPass(c, entries) ==>
                state == old(state) &&
                var bad := FirstBad(entries, (e: Entry) => RefusalOf(c, e).Some?);
                bad < |entries| && answer == RefusalAnswer(RefusalOf(c, entries[bad]).value)
      ensures AllPass(c, entries) ==>
                state == P.Run(c, cfg, Submitted(old(state), entries, fates), acts) &&
                |state.requests| == |old(state).requests| + |entries| &&
                AllReplied(state, |old(state).requests|, |entries|)
      ensures AllPass(c, entries) && answer.Items? ==>
                |answer.items| == |entries| && forall i :: 0 <= i < |entries| ==>
                  var reply := ReplyAt(state, |old(state).requests| + i);
                  answer.items[i] == Slot(entries[i].name, reply.status, reply.body)
      ensures AllPass(c, entries) && !answer.Items? ==>
                answer == Raised && exists k ::
                  |old(state).requests| <= k < |state.requests| && ReplyAt(state, k).body == P.Aborted
      ensures C.Loaded(c) ==>
                if forall i :: 0 <= i < |entries| ==> Acceptable(c, entries[i]) then AllPass(c, entries)
                else exists i :: 0 <= i < |entries| && !Acceptable(c, entries[i]) &&
                                 TurnedAway(c, entries[i], answer) &&
                                 forall j :: 0 <= j < i ==> Acceptable(c, entries[j])
    {
      if C.Loaded(c) {
        forall i | 0 <= i < |entries|
          ensures RefusalOf(c, entries[i]).None? <==> Acceptable(c, entries[i])
          ensures RefusalOf(c, entries[i]).Some? ==>
                    TurnedAway(c, entries[i], RefusalAnswer(RefusalOf(c, entries[i]).value))
        {
          RefusalsAreExact(c, entries[i]);
        }
      }
      var why := FirstRefusal(entries);
      if why.Some? {
        return RefusalAnswer(why.value);
      }
      var base := |state.requests|;
      P.RunKeepsCount(c, cfg, Submitted(state, entries, fates), acts);
      state := P.Run(c, cfg, Submitted(state, entries, fates), acts);
      answer := Collect(entries, base, order);
    }

    /** The validation loop. */
    method FirstRefusal(entries: seq<Entry>) returns (why: Option<Refusal>)
      ensures why.None? <==> AllPass(c, entries)
      ensures why.Some? ==> var bad := FirstBad(entries, (e: Entry) => RefusalOf(c, e).Some?);
                bad < |entries| && why == RefusalOf(c, entries[bad])
    {
      for n := 0 to |entries|
        invariant forall i :: 0 <= i < n ==> RefusalOf(c, entries[i]).None?
      {
        why := RefusalOf(c, entries[n]);
        if why.Some? {
          return;
        }
      }
      why := None;
    }

    /** The loop over the finished workers. */
    method Collect(entries: seq<Entry>, base: nat, order: seq<nat>) returns (answer: Answer)
      requires Permutes(order, |entries|) && AllReplied(state, base, |entries|)
      ensures answer.Items? ==>
                |answer.items| == |entries| &&
                forall i :: 0 <= i < |entries| ==> answer.items[i] == SlotOf(entries[i], ReplyAt(state, base + i))
      ensures !answer.Items? ==>
                answer == Raised &&
                exists k :: base <= k < base + |entries| && ReplyAt(state, k).body == P.Aborted
    {
      var items := new Option<Slot>[|entries|](_ => None);
      for n := 0 to |order|
        invariant forall m :: 0 <= m < n ==>
                    items[order[m]] == Some(SlotOf(entries[order[m]], ReplyAt(state, base + order[m])))
      {
        var idx := order[n];
        assert Replied(state, base + idx);
        var reply := ReplyAt(state, base + idx);
        if reply.body == P.Aborted {
          return Raised;
        }
        items[idx] := Some(SlotOf(entries[idx], reply));
      }
      forall k | 0 <= k < |entries| ensures items[k] == Some(SlotOf(entries[k], ReplyAt(state, base + k))) {
        PermutationHits(order, |entries|, k);
      }
      answer := Items(seq(|entries|, i requires 0 <= i < |entries| && items[i].Some? reads items => items[i].value));
    }
  }

  lemma SubmittedInv(c: C.Catalog, s: P.State, entries: seq<Entry>, fates: seq<Fate>)
    requires P.Inv(c, s) && |fates| == |entries|
    ensures P.Inv(c, Submitted(s, entries, fates))
  {
    var t := Submitted(s, entries, fates);
    forall k | 0 <= k < |t.requests| ensures P.RequestInv(c, t.requests[k]) {
      if k < |s.requests| {
        assert t.requests[k] == s.requests[k];
      } else {
        assert t.requests[k] == RequestOf(entries[k - |s.requests|], fates[k - |s.requests|]);
      }
    }
  }

  lemma ServedRequest(c: C.Catalog, r: P.Request)
    requires P.RequestInv(c, r) && P.Early(c, r).None? && r.pc.Replied?
    ensures if r.pc.reply.body == P.BreakerOpen then r.trail == [B.Requested] && !r.ran
            else if r.pc.reply.body == P.Aborted then r.trail == P.Cleared(P.Gated(c, r.verb))
            else P.Closing(P.Gated(c, r.verb), r.trail, r.pc.reply)
  {}

  /** In any state the pipeline can be in, with a loaded catalog: a worker of an accepted batch runs
      into no check again, and into an exception only if its process does what no handler expects.
      Its reply is the breaker's, the human's or the process's verdict, and its audit rows are those
      of just that verdict. */
  lemma AcceptedEntriesAreServed(c: C.Catalog, cfg: B.Config, s: P.State, entries: seq<Entry>, fates: seq<Fate>,
                                 acts: seq<P.Action>, i: nat)
    requires C.Loaded(c) && P.Inv(c, s) && |fates| == |entries| && AllPass(c, entries) && i < |entries|
    requires Replied(P.Run(c, cfg, Submitted(s, entries, fates), acts), |s.requests| + i)
    ensures var r := P.Run(c, cfg, Submitted(s, entries, fates), acts).requests[|s.requests| + i];
            var gated := P.Gated(c, r.verb);
            && r.verb == entries[i].name && r.args == entries[i].args
            && (if r.pc.reply.body == P.BreakerOpen then r.trail == [B.Requested] && !r.ran
                else if r.pc.reply.body == P.Aborted then fates[i].process.Crashed? && r.trail == P.Cleared(gated)
                else P.Closing(gated, r.trail, r.pc.reply))
  {
    var t := Submitted(s, entries, fates);
    var k := |s.requests| + i;
    var r := P.Run(c, cfg, t, acts).requests[k];
    assert t.requests[k] == RequestOf(entries[i], fates[i]);
    BatchAcceptsWhatPerceiveAccepts(c, entries[i], t.requests[k]);
    SubmittedInv(c, s, entries, fates);
    P.RunInv(c, cfg, t, acts);
    P.RunKeepsRequest(c, cfg, t, acts, k);
    if !fates[i].process.Crashed? {
      P.RunNoAbort(c, cfg, t, acts, k);
    }
    assert P.Early(c, r) == P.Early(c, t.requests[k]);
    ServedRequest(c, r);
  }
}
