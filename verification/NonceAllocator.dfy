/** Choosing transaction nonces (`sendTx` of packages/chain/src/live-0g.ts): the node's pending
    count, which may lag, raised to a floor remembered from the last accepted send. */
module NonceAllocator {
  import opened Basics
  import Text

  const NONCE_FLOOR_TTL_MS: nat := 30_000

  datatype Floor = Floor(nonce: nat, at: int)

  predicate Fresh(floor: Option<Floor>, now: int) {
    floor.Some? && now - floor.value.at < NONCE_FLOOR_TTL_MS
  }

  function Choose(floor: Option<Floor>, pending: nat, now: int): nat {
    if floor.Some? && floor.value.nonce > pending && Fresh(floor, now) then floor.value.nonce else pending
  }

  // ---- the queue of one process ---------------------------------------------------------------

  /** How far a call has come: queued, its transaction on the way to the node, or over. */
  datatype Progress = Waiting | Sending(nonce: nat) | Accepted(used: nat) | Failed

  /** A call chains itself to the promise that was its account's tail when it was made. */
  datatype Call = Call(key: string, prior: Option<nat>, progress: Progress)

  /** The tail promises are caught, so they settle however the call ends. */
  predicate Settled(call: Call) {
    call.progress.Accepted? || call.progress.Failed?
  }

  predicate HasTurn(calls: seq<Call>, id: nat)
    requires id < |calls|
  {
    var call := calls[id];
    call.progress.Waiting? && (call.prior.Some? && call.prior.value < |calls| ==> Settled(calls[call.prior.value]))
  }

  /** Each call is chained to the account's call before it, and only calls whose predecessor
      settled have left the queue. */
  ghost predicate Chained(calls: seq<Call>) {
    forall i :: 0 <= i < |calls| ==> Follows(calls, i)
  }

  ghost predicate Follows(calls: seq<Call>, i: nat)
    requires i < |calls|
  {
    match calls[i].prior
    case None => forall j :: 0 <= j < i ==> calls[j].key != calls[i].key
    case Some(p) =>
      && p < i && calls[p].key == calls[i].key
      && (forall j :: p < j < i ==> calls[j].key != calls[i].key)
      && (!calls[i].progress.Waiting? ==> Settled(calls[p]))
  }

  lemma ChainedPush(calls: seq<Call>, call: Call)
    requires Chained(calls) && call.progress.Waiting?
    requires match call.prior
             case None => forall j :: 0 <= j < |calls| ==> calls[j].key != call.key
             case Some(p) => p < |calls| && calls[p].key == call.key
                             && forall j :: p < j < |calls| ==> calls[j].key != call.key
    ensures Chained(calls + [call])
  {
    forall i | 0 <= i < |calls| + 1
      ensures Follows(calls + [call], i)
    {
      assert i < |calls| ==> Follows(calls, i);
    }
  }

  /** A call may start on its turn, and end; neither breaks the chain. */
  lemma ChainedMove(calls: seq<Call>, id: nat, progress: Progress)
    requires Chained(calls) && id < |calls| && !progress.Waiting?
    requires HasTurn(calls, id) || (calls[id].progress.Sending? && !progress.Sending?)
    ensures Chained(calls[id := calls[id].(progress := progress)])
  {
    var moved := calls[id := calls[id].(progress := progress)];
    forall i | 0 <= i < |moved|
      ensures Follows(moved, i)
    {
      assert Follows(calls, i);
    }
  }

  /** Serialization: while a call is under way or over, every earlier call of its account is
      over. So no two calls of an account ever hold a nonce at once, and they run in call order. */
  lemma {:induction false} CallsRunInOrder(calls: seq<Call>, i: nat, j: nat)
    requires Chained(calls) && i < j < |calls| && calls[i].key == calls[j].key
    requires !calls[j].progress.Waiting?
    ensures Settled(calls[i])
    decreases j
  {
    assert Follows(calls, j);
    var p := calls[j].prior.value;
    if i < p {
      CallsRunInOrder(calls, i, p);
    }
  }

  /** No call is stuck: behind a waiting call there is one of its account, itself or earlier,
      that has its turn or is being answered, whatever failed before. */
  lemma {:induction false} SomeCallCanRun(calls: seq<Call>, i: nat)
    requires Chained(calls) && i < |calls| && calls[i].progress.Waiting?
    ensures exists j: nat :: j <= i && calls[j].key == calls[i].key
                             && (HasTurn(calls, j) || calls[j].progress.Sending?)
    decreases i
  {
    assert Follows(calls, i);
    if calls[i].prior.Some? && !Settled(calls[calls[i].prior.value]) {
      var p := calls[i].prior.value;
      if calls[p].progress.Waiting? {
        SomeCallCanRun(calls, p);
      } else {
        assert calls[p].progress.Sending?;
      }
    } else {
      assert HasTurn(calls, i);
    }
  }

  class Allocator {
    /** Every call made so far. */
    var calls: seq<Call>
    /** The call at each account's tail. */
    var sendQueue: map<string, nat>
    var nonceFloor: map<string, Floor>

    ghost predicate Valid()
      reads this
    {
      && Chained(calls)
      && (forall i :: 0 <= i < |calls| ==> calls[i].key in sendQueue && i <= sendQueue[calls[i].key])
      && (forall key :: key in sendQueue ==> sendQueue[key] < |calls| && calls[sendQueue[key]].key == key)
    }

    function FloorOf(key: string): Option<Floor>
      reads this
    {
      if key in nonceFloor then Some(nonceFloor[key]) else None
    }

    constructor ()
      ensures Valid() && calls == [] && nonceFloor == map[]
    {
      calls, sendQueue, nonceFloor := [], map[], map[];
    }

    /** Queues a call behind its account's tail, and makes it the tail. */
    method Enqueue(address: string) returns (id: nat)
      requires Valid()
      modifies this`calls, this`sendQueue
      ensures Valid() && id == |old(calls)| && |calls| == id + 1 && calls[..id] == old(calls)
      ensures calls[id].key == Text.Lower(address) && calls[id].progress == Waiting
    {
      var key := Text.Lower(address);
      var prior := if key in sendQueue then Some(sendQueue[key]) else None;
      id := |calls|;
      ChainedPush(calls, Call(key, prior, Waiting));
      calls := calls + [Call(key, prior, Waiting)];
      sendQueue := sendQueue[key := id];
    }

    /** The call's turn: the tail it is chained to has settled and the node has answered. */
    method TakeTurn(id: nat, pending: nat, now: int) returns (nonce: nat)
      requires Valid() && id < |calls| && HasTurn(calls, id)
      modifies this`calls
      ensures Valid() && calls == old(calls)[id := old(calls)[id].(progress := Sending(nonce))]
      ensures nonce == Choose(FloorOf(calls[id].key), pending, now)
    {
      var key := calls[id].key;
      var floor := if key in nonceFloor then Some(nonceFloor[key]) else None;
      nonce := if floor.Some? && floor.value.nonce > pending && now - floor.value.at < NONCE_FLOOR_TTL_MS
               then floor.value.nonce else pending;
      ChainedMove(calls, id, Sending(nonce));
      calls := calls[id := calls[id].(progress := Sending(nonce))];
    }

    /** The send resolves, and the floor moves; or it rejects, and nothing but the call changes. */
    method Finish(id: nat, accepted: bool, now: int)
      requires Valid() && id < |calls| && calls[id].progress.Sending?
      modifies this`calls, this`nonceFloor
      ensures Valid()
      ensures var nonce := old(calls)[id].progress.nonce;
              && calls == old(calls)[id := old(calls)[id].(progress := if accepted then Accepted(nonce) else Failed)]
              && nonceFloor == if accepted then old(nonceFloor)[calls[id].key := Floor(nonce + 1, now)]
                  else old(nonceFloor)
    {
      var call := calls[id];
      if accepted {
        nonceFloor := nonceFloor[call.key := Floor(call.progress.nonce + 1, now)];
      }
      var over := if accepted then Accepted(call.progress.nonce) else Failed;
      ChainedMove(calls, id, over);
      calls := calls[id := call.(progress := over)];
    }
  }

  // ---- runs of one account against the network ------------------------------------------------

  /** A nonce chosen for a send that the node has not answered yet. */
  datatype Choice = Choice(nonce: nat, pending: nat, at: int)

  /** A send the node accepted. */
  datatype Sent = Sent(nonce: nat, pending: nat, chosenAt: int, acceptedAt: int)

  /** `held` are the nonces of the account's transactions the network has, besides all below
      `base`. One send is under way at a time, as `CallsRunInOrder` shows. */
  datatype State = State(
    base: nat, held: set<nat>, floor: Option<Floor>, now: int, sending: Option<Choice>, sent: seq<Sent>)

  datatype Event =
    | Wait(ms: nat)
    /** A send starts; the node reports `pending`, at most the true next nonce. */
    | Ask(pending: nat)
    | Answer(accepted: bool)
    /** The network loses transactions. */
    | Lose(lost: set<nat>)

  function FirstFree(n: nat, held: set<nat>): (free: nat)
    ensures n <= free && free !in held && forall k: nat :: n <= k < free ==> k in held
    decreases |held|
  {
    if n !in held then n else
    var others := held - {n};
    assert forall k: nat :: k in held <==> k == n || k in others;
    FirstFree(n + 1, others)
  }

  /** The account's true next nonce: the first that no transaction has. */
  function TrueNext(s: State): nat {
    FirstFree(s.base, s.held)
  }

  function Step(s: State, e: Event): State {
    match e
    case Wait(ms) => s.(now := s.now + ms)
    case Ask(pending) =>
      if s.sending.Some? || pending > TrueNext(s) then s
      else s.(sending := Some(Choice(Choose(s.floor, pending, s.now), pending, s.now)))
    case Answer(accepted) =>
      if s.sending.None? || !accepted then s.(sending := None) else
      var c := s.sending.value;
      s.(held := s.held + {c.nonce}, floor := Some(Floor(c.nonce + 1, s.now)), sending := None,
         sent := s.sent + [Sent(c.nonce, c.pending, c.at, s.now)])
    case Lose(lost) => s.(held := s.held - lost)
  }

  function RunOf(base: nat, events: seq<Event>): State {
    if events == [] then State(base, {}, None, 0, None, [])
    else Step(RunOf(base, events[..|events| - 1]), events[|events| - 1])
  }

  lemma RunPush(base: nat, events: seq<Event>, e: Event)
    ensures RunOf(base, events + [e]) == Step(RunOf(base, events), e)
  {
    assert (events + [e])[..|events|] == events;
  }

  /** The floor is what the last accepted send left, and a choice was made from it. */
  ghost predicate Remembers(s: State) {
    && (s.floor.None? <==> s.sent == [])
    && (s.sent != [] ==>
          var last := s.sent[|s.sent| - 1];
          s.floor == Some(Floor(last.nonce + 1, last.acceptedAt)) && last.acceptedAt <= s.now)
    && (s.sending.Some? ==>
          var c := s.sending.value;
          c.nonce == Choose(s.floor, c.pending, c.at) && c.at <= s.now)
  }

  lemma {:induction false} RunRemembers(base: nat, events: seq<Event>)
    ensures Remembers(RunOf(base, events)) && RunOf(base, events).base == base
  {
    if events != [] {
      hide FirstFree;
      RunRemembers(base, events[..|events| - 1]);
    }
  }

  /** The last accepted transaction lies at or past the true next nonce: below it one is missing. */
  predicate Ahead(s: State) {
    s.sent != [] && s.sent[|s.sent| - 1].nonce >= TrueNext(s)
  }

  /** A nonce past the true next one is chosen exactly while the last accepted transaction lies
      past a missing one and was accepted less than the floor's lifetime ago. */
  lemma {:induction false} SkipsExactly(base: nat, events: seq<Event>, pending: nat)
    requires pending <= TrueNext(RunOf(base, events))
    ensures var s := RunOf(base, events);
            Choose(s.floor, pending, s.now) > TrueNext(s) <==>
              Ahead(s) && s.now - s.sent[|s.sent| - 1].acceptedAt < NONCE_FLOOR_TTL_MS
  {
    hide RunOf, FirstFree;
    RunRemembers(base, events);
  }

  /** What puts the account in that position, and what ends it, step by step: a loss does exactly
      when it cuts at or below the last accepted nonce, and an acceptance exactly when its nonce
      is by then past the true next one. */
  lemma {:induction false} AheadExactly(s: State, e: Event)
    ensures Ahead(Step(s, e)) <==>
              match e
              case Lose(lost) => s.sent != [] && s.sent[|s.sent| - 1].nonce >= FirstFree(s.base, s.held - lost)
              case Answer(accepted) =>
                if accepted && s.sending.Some? then s.sending.value.nonce > TrueNext(s) else Ahead(s)
              case _ => Ahead(s)
  {
    if e.Answer? && e.accepted && s.sending.Some? {
      Filled(s.base, s.held, s.sending.value.nonce);
    }
  }

  /** Adding one nonce moves the first free one past it, or not at all. */
  lemma Filled(base: nat, held: set<nat>, nonce: nat)
    ensures FirstFree(base, held + {nonce}) > nonce <==> nonce <= FirstFree(base, held)
    ensures FirstFree(base, held) <= FirstFree(base, held + {nonce})
  {
    var before, after := FirstFree(base, held), FirstFree(base, held + {nonce});
    assert after !in held;
    if nonce == before {
      assert after != nonce;
    } else {
      assert before !in held + {nonce};
    }
  }

  ghost predicate NoLoss(events: seq<Event>) {
    forall i :: 0 <= i < |events| ==> !events[i].Lose?
  }

  /** Unless transactions are lost no nonce past the true next one is ever chosen or sent. */
  lemma {:induction false} NeverSkipsAhead(base: nat, events: seq<Event>)
    requires NoLoss(events)
    ensures var s := RunOf(base, events);
            && !Ahead(s)
            && (s.sending.Some? ==> s.sending.value.nonce <= TrueNext(s))
            && (forall pending: nat :: pending <= TrueNext(s) ==> Choose(s.floor, pending, s.now) <= TrueNext(s))
  {
    hide FirstFree;
    RunRemembers(base, events);
    if events != [] {
      var before, last := events[..|events| - 1], events[|events| - 1];
      NeverSkipsAhead(base, before);
      AheadExactly(RunOf(base, before), last);
    }
  }

  /** One pause as long as the floor lives ends it: the choice is then the node's own count. */
  lemma {:induction false} PauseRecovers(base: nat, events: seq<Event>, pending: nat)
    requires pending <= TrueNext(RunOf(base, events))
    ensures var s := RunOf(base, events + [Wait(NONCE_FLOOR_TTL_MS)]);
            Choose(s.floor, pending, s.now) == pending <= TrueNext(s)
  {
    hide RunOf, FirstFree;
    RunRemembers(base, events);
    RunPush(base, events, Wait(NONCE_FLOOR_TTL_MS));
  }

  // ---- the floor outlives its lifetime ---------------------------------------------------------

  /** Nonce 0 is missing, and the floor above it was set just now. */
  predicate Above(s: State, floor: nat) {
    s.base == 0 && 0 !in s.held && s.sending.None? && s.floor == Some(Floor(floor, s.now))
  }

  /** Every send comes just before the floor would expire, and is accepted. */
  function Steadily(n: nat): seq<Event> {
    if n == 0 then [Ask(0), Answer(true), Lose({0})]
    else Steadily(n - 1) + [Wait(NONCE_FLOOR_TTL_MS - 1)] + [Ask(0)] + [Answer(true)]
  }

  lemma FirstSteps(s: State)
    requires s.base == 0 && s.held == {} && s.floor.None? && s.sending.None?
    ensures Above(Step(Step(Step(s, Ask(0)), Answer(true)), Lose({0})), 1)
    ensures Step(Step(Step(s, Ask(0)), Answer(true)), Lose({0})).now == s.now
  {
    var asked := Step(s, Ask(0));
    assert asked.sending == Some(Choice(0, 0, s.now));
    var answered := Step(asked, Answer(true));
    assert answered.held == {0} && answered.floor == Some(Floor(1, s.now));
  }

  lemma RunThree(base: nat, a: Event, b: Event, c: Event)
    ensures RunOf(base, [a, b, c]) == Step(Step(Step(RunOf(base, []), a), b), c)
  {
    hide Step, RunOf;
    RunPush(base, [], a);
    RunPush(base, [a], b);
    RunPush(base, [a, b], c);
    assert [] + [a] == [a] && [a] + [b] == [a, b] && [a, b] + [c] == [a, b, c];
  }

  lemma StaysAbove(s: State, floor: nat)
    requires Above(s, floor) && floor > 0
    ensures var s' := Step(Step(Step(s, Wait(NONCE_FLOOR_TTL_MS - 1)), Ask(0)), Answer(true));
            Above(s', floor + 1) && s'.now == s.now + (NONCE_FLOOR_TTL_MS - 1)
  {
  }

  /** The expiry does not by itself bound how long a lost transaction strands an account: each
      accepted send renews the floor, so under steady sending the choice stays past the true
      next nonce for as long as one likes. */
  lemma {:induction false} SteadySendingStaysStranded(n: nat)
    ensures var s := RunOf(0, Steadily(n));
            && Above(s, n + 1) && s.now == n * (NONCE_FLOOR_TTL_MS - 1)
            && Choose(s.floor, 0, s.now + NONCE_FLOOR_TTL_MS - 1) == n + 1 > TrueNext(s)
  {
    hide RunOf, Step;
    if n == 0 {
      RunThree(0, Ask(0), Answer(true), Lose({0}));
      NothingYet(0);
      FirstSteps(RunOf(0, []));
    } else {
      SteadySendingStaysStranded(n - 1);
      var before, pause := Steadily(n - 1), Wait(NONCE_FLOOR_TTL_MS - 1);
      RunPush(0, before, pause);
      RunPush(0, before + [pause], Ask(0));
      RunPush(0, before + [pause] + [Ask(0)], Answer(true));
      StaysAbove(RunOf(0, before), n);
    }
  }

  lemma NothingYet(base: nat)
    ensures RunOf(base, []) == State(base, {}, None, 0, None, [])
  {
  }

  // ---- the order of accepted nonces -------------------------------------------------------------

  /** Two accepted sends in a row get increasing nonces exactly when the second was chosen
      while the floor of the first was fresh, or its node had counted the first. */
  ghost predicate RisesIfFresh(sent: seq<Sent>) {
    forall i :: 0 <= i < |sent| - 1 ==>
      (sent[i].nonce < sent[i + 1].nonce <==>
        || sent[i + 1].chosenAt - sent[i].acceptedAt < NONCE_FLOOR_TTL_MS
        || sent[i].nonce < sent[i + 1].pending)
  }

  lemma {:induction false} NoncesRise(base: nat, events: seq<Event>)
    ensures RisesIfFresh(RunOf(base, events).sent)
  {
    if events != [] {
      hide FirstFree;
      NoncesRise(base, events[..|events| - 1]);
      RunRemembers(base, events[..|events| - 1]);
    }
  }

  /** Over sends that each found the floor fresh, nonces strictly increase from first to last. */
  lemma {:induction false} BurstIsIncreasing(base: nat, events: seq<Event>, i: nat, j: nat)
    requires i < j < |RunOf(base, events).sent|
    requires var sent := RunOf(base, events).sent;
             forall k :: i <= k < j ==> sent[k + 1].chosenAt - sent[k].acceptedAt < NONCE_FLOOR_TTL_MS
    ensures RunOf(base, events).sent[i].nonce < RunOf(base, events).sent[j].nonce
  {
    hide RunOf;
    NoncesRise(base, events);
    if i + 1 < j {
      BurstIsIncreasing(base, events, i, j - 1);
    }
  }

  ghost predicate Used(sent: seq<Sent>, nonce: nat) {
    exists i :: 0 <= i < |sent| && sent[i].nonce == nonce
  }

  lemma UsedPush(sent: seq<Sent>, last: Sent)
    ensures forall nonce :: Used(sent + [last], nonce) <==> Used(sent, nonce) || nonce == last.nonce
  {
    var longer := sent + [last];
    assert longer[|sent|] == last;
    forall nonce | Used(sent, nonce)
      ensures Used(longer, nonce)
    {
      var i :| 0 <= i < |sent| && sent[i].nonce == nonce;
      assert longer[i].nonce == nonce;
    }
  }

  lemma {:induction false} HeldIsSent(base: nat, events: seq<Event>, nonce: nat)
    requires NoLoss(events)
    ensures nonce in RunOf(base, events).held <==> Used(RunOf(base, events).sent, nonce)
    ensures nonce in RunOf(base, events).held ==> nonce < TrueNext(RunOf(base, events))
  {
    if events != [] {
      hide FirstFree, Used;
      var before, last := events[..|events| - 1], events[|events| - 1];
      var s := RunOf(base, before);
      HeldIsSent(base, before, nonce);
      NeverSkipsAhead(base, before);
      if last == Answer(true) && s.sending.Some? {
        var c := s.sending.value;
        UsedPush(s.sent, Sent(c.nonce, c.pending, c.at, s.now));
        Filled(base, s.held, c.nonce);
        RunRemembers(base, before);
      }
    } else {
      assert RunOf(base, events).sent == [];
    }
  }

  /** Unless transactions are lost there is never a gap: the nonces of accepted sends, failed
      sends in between or not, fill the range up to the true next nonce exactly. */
  lemma {:induction false} NoGaps(base: nat, events: seq<Event>, nonce: nat)
    requires NoLoss(events) && base <= nonce
    ensures Used(RunOf(base, events).sent, nonce) <==> nonce < TrueNext(RunOf(base, events))
  {
    hide RunOf, Used;
    HeldIsSent(base, events, nonce);
    RunRemembers(base, events);
  }

  // ---- what is missing was lost ---------------------------------------------------------------

  /** The nonce was accepted once, its transaction was lost, and none with it was accepted since. */
  ghost predicate LostSince(base: nat, events: seq<Event>, nonce: nat) {
    if events == [] then false else
    var before, last := events[..|events| - 1], events[|events| - 1];
    var s := RunOf(base, before);
    match last
    case Lose(lost) => (nonce in s.held && nonce in lost) || LostSince(base, before, nonce)
    case Answer(accepted) =>
      LostSince(base, before, nonce) && !(accepted && s.sending.Some? && s.sending.value.nonce == nonce)
    case _ => LostSince(base, before, nonce)
  }

  lemma {:induction false} LostIsMissing(base: nat, events: seq<Event>, nonce: nat)
    ensures LostSince(base, events, nonce) <==>
              Used(RunOf(base, events).sent, nonce) && nonce !in RunOf(base, events).held
    ensures nonce in RunOf(base, events).held ==> Used(RunOf(base, events).sent, nonce)
  {
    if events != [] {
      hide FirstFree, Used;
      var before, last := events[..|events| - 1], events[|events| - 1];
      var s := RunOf(base, before);
      LostIsMissing(base, before, nonce);
      if last == Answer(true) && s.sending.Some? {
        var c := s.sending.value;
        UsedPush(s.sent, Sent(c.nonce, c.pending, c.at, s.now));
      }
    } else {
      assert RunOf(base, events).sent == [];
    }
  }

  /** Every nonce from `base` up to a used one, or below one under way, was used before. */
  ghost predicate Dense(s: State) {
    && (forall n: nat, m: nat :: s.base <= n < m && Used(s.sent, m) ==> Used(s.sent, n))
    && (s.sending.Some? ==> forall n: nat :: s.base <= n < s.sending.value.nonce ==> Used(s.sent, n))
    && (forall n: nat :: n in s.held ==> Used(s.sent, n))
  }

  lemma AskKeepsDense(s: State, pending: nat)
    requires Dense(s) && Remembers(s) && pending <= TrueNext(s) && s.sending.None?
    ensures forall n: nat :: s.base <= n < Choose(s.floor, pending, s.now) ==> Used(s.sent, n)
  {
    hide Used, FirstFree;
    forall n: nat | s.base <= n < Choose(s.floor, pending, s.now)
      ensures Used(s.sent, n)
    {
      if n < TrueNext(s) {
        assert n in s.held;
      } else {
        LastIsUsed(s.sent);
      }
    }
  }

  lemma LastIsUsed(sent: seq<Sent>)
    ensures sent != [] ==> Used(sent, sent[|sent| - 1].nonce)
  {
  }

  lemma AnswerKeepsDense(s: State)
    requires Dense(s) && s.sending.Some?
    ensures Dense(Step(s, Answer(true)))
  {
    hide Used, FirstFree;
    var c := s.sending.value;
    UsedPush(s.sent, Sent(c.nonce, c.pending, c.at, s.now));
  }

  lemma {:induction false} RunIsDense(base: nat, events: seq<Event>)
    ensures Dense(RunOf(base, events))
  {
    if events != [] {
      hide Used, FirstFree;
      var before, last := events[..|events| - 1], events[|events| - 1];
      var s := RunOf(base, before);
      RunIsDense(base, before);
      RunRemembers(base, before);
      match last
      case Ask(pending) =>
        if s.sending.None? && pending <= TrueNext(s) {
          AskKeepsDense(s, pending);
        }
      case Answer(accepted) =>
        if accepted && s.sending.Some? {
          AnswerKeepsDense(s);
        }
      case _ =>
    } else {
      assert forall n: nat :: !Used([], n);
    }
  }

  /** Over the history: the last accepted nonce lies at or past the true next one exactly when some
      nonce at or below it was lost and has not been accepted since. */
  lemma {:induction false} AheadByLoss(base: nat, events: seq<Event>)
    ensures var s := RunOf(base, events);
            Ahead(s) <==>
              s.sent != [] && exists n: nat :: base <= n <= s.sent[|s.sent| - 1].nonce && LostSince(base, events, n)
  {
    hide RunOf, Used, LostSince;
    var s := RunOf(base, events);
    RunRemembers(base, events);
    RunIsDense(base, events);
    LastIsUsed(s.sent);
    if Ahead(s) {
      LostIsMissing(base, events, TrueNext(s));
    }
    forall n: nat | s.sent != [] && base <= n <= s.sent[|s.sent| - 1].nonce && LostSince(base, events, n)
      ensures TrueNext(s) <= n
    {
      LostIsMissing(base, events, n);
    }
  }
}
