/** The self-service mapping route of packages/middleware/src/app.ts, from the freshness check
    to the table it changes; everything after the signature check runs without a pause. The
    class is in `UpstreamStores`. */
module SelfMapping {
  import opened Basics
  import opened SignedMessages
  import opened Upstreams

  const SELF_MAP_WINDOW_MS: nat := 120_000

  /** An ideal signature: it vouches for one text. Over any other text recovery yields an
      account nobody holds, which is no account's. */
  datatype Signature = Signature(signer: string, text: string)

  function Recovered(signature: Signature, message: string): Option<string> {
    if signature.text == message then Some(signature.signer) else None
  }

  /** A request to map a service. `owner` is what the registry says when asked, and `safeUrl`
      the URL as the host guard normalizes it, if it passes. */
  datatype Attempt = Attempt(
    serviceId: nat, upstreamUrl: string, timestamp: int, signature: Signature,
    owner: Option<string>, safeUrl: Option<string>, now: int)

  datatype Refusal = StaleRequest | ServiceNotFound | NotServiceOwner | Replayed | UrlRefused

  /** The newest accepted timestamp of each service since boot, and the live table. */
  datatype Live = Live(last: map<nat, int>, table: Table)

  function MessageOf(network: string, a: Attempt): string {
    SelfMapMessage(SelfMap(network, a.serviceId, a.upstreamUrl, a.timestamp))
  }

  function Handle(network: string, live: Live, a: Attempt): (Live, Result<(), Refusal>) {
    if a.now - a.timestamp > SELF_MAP_WINDOW_MS || a.timestamp - a.now > SELF_MAP_WINDOW_MS
        then (live, Err(StaleRequest))
    else if a.owner.None? then (live, Err(ServiceNotFound))
    else if Recovered(a.signature, MessageOf(network, a)) != a.owner then (live, Err(NotServiceOwner))
    else if a.serviceId in live.last && a.timestamp <= live.last[a.serviceId] then (live, Err(Replayed))
    else if a.safeUrl.None? then (live, Err(UrlRefused))
    else (Live(live.last[a.serviceId := a.timestamp], live.table[a.serviceId := a.safeUrl.value]), Ok(()))
  }

  function Run(network: string, boot: Table, attempts: seq<Attempt>): Live {
    if attempts == [] then Live(map[], boot)
    else Handle(network, Run(network, boot, attempts[..|attempts| - 1]), attempts[|attempts| - 1]).0
  }

  /** Good in itself, whatever came before: fresh, signed by the owner, and to a safe URL. */
  predicate Sound(network: string, a: Attempt) {
    && a.now - SELF_MAP_WINDOW_MS <= a.timestamp <= a.now + SELF_MAP_WINDOW_MS
    && a.owner.Some? && a.safeUrl.Some?
    && a.signature == Signature(a.owner.value, MessageOf(network, a))
  }

  predicate SoundFor(network: string, attempts: seq<Attempt>, id: nat, i: nat)
    requires i < |attempts|
  {
    attempts[i].serviceId == id && Sound(network, attempts[i])
  }

  /** The sound attempt for this service with the largest timestamp, the first of equals. */
  ghost predicate Newest(network: string, attempts: seq<Attempt>, id: nat, i: nat) {
    && i < |attempts| && SoundFor(network, attempts, id, i)
    && forall j: nat :: j < |attempts| && SoundFor(network, attempts, id, j) ==>
         attempts[j].timestamp < attempts[i].timestamp || (attempts[j].timestamp == attempts[i].timestamp && i <= j)
  }

  ghost predicate LiveIs(live: Live, boot: Table, network: string, attempts: seq<Attempt>, id: nat) {
    || (&& (forall j: nat :: j < |attempts| ==> !SoundFor(network, attempts, id, j))
        && id !in live.last && (id in live.table <==> id in boot) && (id in boot ==> live.table[id] == boot[id]))
    || (exists i: nat ::
          && Newest(network, attempts, id, i)
          && id in live.last && live.last[id] == attempts[i].timestamp
          && id in live.table && live.table[id] == attempts[i].safeUrl.value)
  }

  lemma AttemptKeeps(network: string, boot: Table, before: seq<Attempt>, a: Attempt, live: Live, id: nat)
    requires LiveIs(live, boot, network, before, id)
    ensures LiveIs(Handle(network, live, a).0, boot, network, before + [a], id)
  {
    hide MessageOf;
    var attempts := before + [a];
    assert attempts[|before|] == a;
    assert forall j: nat :: j < |before| ==> SoundFor(network, attempts, id, j) == SoundFor(network, before, id, j);
    if SoundFor(network, attempts, id, |before|) && (id in live.last ==> a.timestamp > live.last[id]) {
      assert Newest(network, attempts, id, |before|);
    } else if i: nat :| Newest(network, before, id, i) {
      assert Newest(network, attempts, id, i);
    }
  }

  /** Without admin writes a service's live mapping is, after any run, the URL of its sound
      attempt with the largest timestamp, whatever order the attempts arrived in and however
      often each was repeated; with none it is what the boot loaded. */
  lemma {:induction false} LiveIsNewest(network: string, boot: Table, attempts: seq<Attempt>, id: nat)
    ensures LiveIs(Run(network, boot, attempts), boot, network, attempts, id)
  {
    if attempts != [] {
      hide LiveIs, Handle;
      var before, last := attempts[..|attempts| - 1], attempts[|attempts| - 1];
      LiveIsNewest(network, boot, before, id);
      AttemptKeeps(network, boot, before, last, Run(network, boot, before), id);
      assert before + [last] == attempts;
    } else {
      NothingYet(network, boot, id);
    }
  }

  lemma NothingYet(network: string, boot: Table, id: nat)
    ensures LiveIs(Live(map[], boot), boot, network, [], id)
  {
  }

  /** An accepted attempt carries a signature its service's owner made over exactly these
      fields: over no other service, network, URL or time, and over no payment proof. */
  lemma {:induction false} AcceptedMeansSigned(network: string, live: Live, a: Attempt, m: SelfMap)
    requires Handle(network, live, a).1.Ok? && OneLine(network)
    ensures a.owner == Some(a.signature.signer)
    ensures a.signature.text == SelfMapMessage(m) && OneLine(m.network) ==>
              m == SelfMap(network, a.serviceId, a.upstreamUrl, a.timestamp)
    ensures forall p :: a.signature.text != PaymentProofMessage(p)
  {
    var own := SelfMap(network, a.serviceId, a.upstreamUrl, a.timestamp);
    if a.signature.text == SelfMapMessage(m) && OneLine(m.network) {
      SelfMapInjective(m, own);
    }
    forall p
      ensures a.signature.text != PaymentProofMessage(p)
    {
      KindsAreSeparate(own, p);
    }
  }

  /** Each refusal has its own reason, the first that holds, and changes nothing; an acceptance is of
      a sound request newer than any accepted before. */
  lemma {:induction false} RefusalsAreExact(network: string, live: Live, a: Attempt)
    ensures var (live', outcome) := Handle(network, live, a);
            var inTime := a.now - SELF_MAP_WINDOW_MS <= a.timestamp <= a.now + SELF_MAP_WINDOW_MS;
            var owned := a.owner.Some? && a.signature == Signature(a.owner.value, MessageOf(network, a));
            var replayed := a.serviceId in live.last && a.timestamp <= live.last[a.serviceId];
            && (outcome == Err(StaleRequest) <==> !inTime)
            && (outcome == Err(ServiceNotFound) <==> inTime && a.owner.None?)
            && (outcome == Err(NotServiceOwner) <==> inTime && a.owner.Some? && !owned)
            && (outcome == Err(Replayed) <==> inTime && owned && replayed)
            && (outcome == Err(UrlRefused) <==> inTime && owned && !replayed && a.safeUrl.None?)
            && (outcome.Ok? <==> Sound(network, a) && !replayed)
            && (outcome.Err? ==> live' == live)
  {
    hide MessageOf;
  }
}
