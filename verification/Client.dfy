/** The paying client (packages/client/src/index.ts): what `fetchPaid` does to the outside world,
    step by step, for every way the outside may answer. */
module Client {
  import opened Basics
  import opened Decimal
  import opened Text
  import Money

  const MAX_PENDING_RETRIES: nat := 5
  const MAX_RETRY_AFTER_MS: nat := 30_000
  const X402_VERSION: nat := 1
  const X402_SCHEME := "exact-settled"
  const UINT256_MAX: nat := 0xFFFF_FFFF_FFFF_FFFF_FFFF_FFFF_FFFF_FFFF_FFFF_FFFF_FFFF_FFFF_FFFF_FFFF_FFFF_FFFF

  // ---- the invoice -----------------------------------------------------------------------

  /** One entry of a 402 body; a field that is missing or of another type is `None`. */
  datatype Entry =
    | NotRecord
    | Entry(scheme: Option<string>, network: Option<string>, maxAmountRequired: Option<string>, payTo: Option<string>,
            router: Option<string>, nonce: Option<string>, expiresAtMs: Option<int>, serviceId: int)

  datatype Body =
    | Text
    | Json
    | JsonObject(x402Version: Option<nat>, accepts: Option<seq<Entry>>)

  datatype Invoice = Invoice(
    amountWei: string, payTo: string, router: string, nonce: string, expiresAtMs: int, serviceId: int)

  datatype ClientError =
    | BadUrl | ForbiddenHost | UpstreamTimeout | UpstreamFailed
    | BadInvoice | NetworkMismatch | PriceExceeded | InvoiceMismatch
    | TransferFailed | SignerUnsupported | SigningFailed

  predicate IsAnyCaseAddress(s: string) {
    |s| == 42 && s[..2] == "0x" && forall i :: 2 <= i < 42 ==> IsLowerHex(LowerChar(s[i]))
  }

  predicate IsUint256(s: string) {
    1 <= |s| <= 78 && IsDigits(s) && Value(s) <= UINT256_MAX
  }

  /** The addresses an invoice may name are those whose canonical form is one. */
  lemma {:induction false} AnyCaseMeans(s: string)
    ensures IsAnyCaseAddress(s) <==> IsAddress(Lower(s)) && s[1] == 'x'
  {
    if |s| == 42 {
      assert s[..2] == "0x" <==> s[0] == '0' && s[1] == 'x';
      assert Lower(s)[..2] == "0x" <==> Lower(s)[0] == '0' && Lower(s)[1] == 'x';
    }
  }

  function OfScheme(entries: seq<Entry>): seq<Entry> {
    if entries == [] then [] else
    var first := if entries[0].Entry? && entries[0].scheme == Some(X402_SCHEME) then [entries[0]] else [];
    first + OfScheme(entries[1..])
  }

  function FirstOn(entries: seq<Entry>, network: string): (found: Option<Entry>)
    requires forall e :: e in entries ==> e.Entry?
    ensures found.Some? ==> found.value.Entry?
  {
    if entries == [] then None
    else if entries[0].network == Some(network) then Some(entries[0])
    else FirstOn(entries[1..], network)
  }

  lemma {:induction false} OfSchemeMeans(entries: seq<Entry>)
    ensures forall e :: e in OfScheme(entries) <==> e in entries && e.Entry? && e.scheme == Some(X402_SCHEME)
  {
    if entries != [] {
      OfSchemeMeans(entries[1..]);
      assert entries == [entries[0]] + entries[1..];
    }
  }

  function ParsePaymentRequired(raw: Body, network: string, now: int): (r: Result<Invoice, ClientError>)
    ensures r.Ok? ==> Money.ParseWei(r.value.amountWei).Ok?
  {
    if !raw.JsonObject? || raw.x402Version != Some(X402_VERSION) then Err(BadInvoice)
    else if raw.accepts.None? || raw.accepts.value == [] then Err(BadInvoice) else
    var matches := OfScheme(raw.accepts.value);
    OfSchemeMeans(raw.accepts.value);
    if matches == [] then Err(BadInvoice) else
    match FirstOn(matches, network)
    case None => Err(NetworkMismatch)
    case Some(e) =>
      if e.maxAmountRequired.None? || Money.ParseWei(e.maxAmountRequired.value).Err? then Err(BadInvoice)
      else if e.payTo.None? || !IsAnyCaseAddress(e.payTo.value) then Err(BadInvoice)
      else if e.router.None? || !IsAnyCaseAddress(e.router.value) then Err(BadInvoice)
      else if e.nonce.None? || !IsUint256(e.nonce.value) then Err(BadInvoice)
      else if e.expiresAtMs.None? || e.expiresAtMs.value <= now then Err(BadInvoice)
      else Ok(Invoice(e.maxAmountRequired.value, e.payTo.value, e.router.value, e.nonce.value,
                      e.expiresAtMs.value, e.serviceId))
  }

  // ---- the client ------------------------------------------------------------------------

  datatype Options = Options(
    network: string, routerAddress: Option<string>, maxPriceWei: Option<string>, expectPayTo: Option<string>,
    expectServiceId: Option<int>, settleDelayMs: nat)

  /** Options pass the constructor only with a cap that parses. */
  predicate Usable(o: Options) {
    o.maxPriceWei.Some? ==> Money.ParseWei(o.maxPriceWei.value).Ok?
  }

  datatype Reply =
    | Reply(status: nat, body: Body, retryAfterS: Option<nat>)
    | TimedOut
    | Broken

  datatype UrlVerdict = Allowed | Malformed | Forbidden

  /** How the outside answers: the verdict on the URL, the reply to each request in turn,
      whether the payment goes through and under what hash, and whether the chain client can
      sign, and does. */
  datatype World = World(
    url: UrlVerdict, replies: nat -> Reply, transfer: Option<string>, canSign: bool, signs: bool, now: int)

  /** What the client does outside: plain requests, a payment, pauses, requests with a proof. */
  datatype Effect =
    | Fetch
    | Pay(invoice: Invoice)
    | Sleep(ms: nat)
    | Present(txHash: string, nonce: string, signed: bool)

  datatype PaidResult = PaidResult(status: nat, paid: bool)

  function Guarded(o: Options, invoice: Invoice): Result<Invoice, ClientError>
    requires Usable(o) && Money.ParseWei(invoice.amountWei).Ok?
  {
    if o.maxPriceWei.Some? && Money.CompareWei(invoice.amountWei, o.maxPriceWei.value).value > 0 then Err(PriceExceeded)
    else if o.expectPayTo.Some? && Lower(invoice.payTo) != Lower(o.expectPayTo.value) then Err(InvoiceMismatch)
    else if o.expectServiceId.Some? && invoice.serviceId != o.expectServiceId.value then Err(InvoiceMismatch)
    else if o.routerAddress.Some? && o.routerAddress.value != ""
        && Lower(invoice.router) != Lower(o.routerAddress.value)
      then Err(InvoiceMismatch)
    else Ok(invoice)
  }

  /** Everything between the first reply and the payment. */
  function Approved(o: Options, first: Reply, now: int): Result<Invoice, ClientError>
    requires Usable(o) && first.Reply?
  {
    if first.body.Text? then Err(BadInvoice) else
    match ParsePaymentRequired(first.body, o.network, now)
    case Err(e) => Err(e)
    case Ok(invoice) => Guarded(o, invoice)
  }

  function Wait(retryAfterS: nat): nat {
    if retryAfterS * 1000 < MAX_RETRY_AFTER_MS then retryAfterS * 1000 else MAX_RETRY_AFTER_MS
  }

  datatype Run = Run(effects: seq<Effect>, outcome: Result<PaidResult, ClientError>)

  function After(effects: seq<Effect>, rest: Run): Run {
    Run(effects + rest.effects, rest.outcome)
  }

  /** Presenting the proof, after `pending` answers that asked to wait. */
  function Presenting(replies: nat -> Reply, proof: Effect, pending: nat): Run
    requires pending <= MAX_PENDING_RETRIES
    decreases MAX_PENDING_RETRIES - pending
  {
    match replies(pending + 1)
    case TimedOut => Run([proof], Err(UpstreamTimeout))
    case Broken => Run([proof], Err(UpstreamFailed))
    case Reply(status, _, retryAfterS) =>
      if status != 402 || retryAfterS.None? || pending >= MAX_PENDING_RETRIES
          then Run([proof], Ok(PaidResult(status, true)))
      else After([proof, Sleep(Wait(retryAfterS.value))], Presenting(replies, proof, pending + 1))
  }

  function NeedsSignature(o: Options): bool {
    o.network != "mock"
  }

  /** The whole call. */
  function Behaviour(o: Options, w: World): Run
    requires Usable(o)
  {
    if !w.url.Allowed? then Run([], Err(if w.url.Forbidden? then ForbiddenHost else BadUrl)) else
    match w.replies(0)
    case TimedOut => Run([Fetch], Err(UpstreamTimeout))
    case Broken => Run([Fetch], Err(UpstreamFailed))
    case Reply(status, _, _) =>
      if status != 402 then Run([Fetch], Ok(PaidResult(status, false))) else
      match Approved(o, w.replies(0), w.now)
      case Err(e) => Run([Fetch], Err(e))
      case Ok(invoice) =>
        if w.transfer.None? then Run([Fetch, Pay(invoice)], Err(TransferFailed)) else
        var paid := [Fetch, Pay(invoice), Sleep(o.settleDelayMs)];
        if NeedsSignature(o) && !w.canSign then Run(paid, Err(SignerUnsupported))
        else if NeedsSignature(o) && !w.signs then Run(paid, Err(SigningFailed))
        else After(paid, Presenting(w.replies, Present(w.transfer.value, invoice.nonce, NeedsSignature(o)), 0))
  }

  method PresentProof(replies: nat -> Reply, proof: Effect)
    returns (effects: seq<Effect>, outcome: Result<PaidResult, ClientError>)
    ensures Run(effects, outcome) == Presenting(replies, proof, 0)
  {
    effects := [];
    var pendingRetries := 0;
    while true
      invariant pendingRetries <= MAX_PENDING_RETRIES
      invariant Presenting(replies, proof, 0) == After(effects, Presenting(replies, proof, pendingRetries))
      decreases MAX_PENDING_RETRIES - pendingRetries
    {
      var reply := replies(pendingRetries + 1);
      if !reply.Reply? {
        return effects + [proof], Err(if reply.TimedOut? then UpstreamTimeout else UpstreamFailed);
      }
      if reply.status != 402 || reply.retryAfterS.None? || pendingRetries >= MAX_PENDING_RETRIES {
        return effects + [proof], Ok(PaidResult(reply.status, true));
      }
      pendingRetries := pendingRetries + 1;
      ghost var rest := Presenting(replies, proof, pendingRetries).effects;
      var pause := [proof, Sleep(Wait(reply.retryAfterS.value))];
      assert effects + (pause + rest) == (effects + pause) + rest;
      effects := effects + pause;
    }
  }

  method FetchPaid(o: Options, w: World) returns (effects: seq<Effect>, outcome: Result<PaidResult, ClientError>)
    requires Usable(o)
    ensures Run(effects, outcome) == Behaviour(o, w)
  {
    hide ParsePaymentRequired, Presenting, Value;
    effects := [];
    if !w.url.Allowed? {
      return effects, Err(if w.url.Forbidden? then ForbiddenHost else BadUrl);
    }
    effects := effects + [Fetch];
    var first := w.replies(0);
    if !first.Reply? {
      return effects, Err(if first.TimedOut? then UpstreamTimeout else UpstreamFailed);
    }
    if first.status != 402 {
      return effects, Ok(PaidResult(first.status, false));
    }
    if first.body.Text? {
      return effects, Err(BadInvoice);
    }
    var parsed := ParsePaymentRequired(first.body, o.network, w.now);
    if parsed.Err? {
      return effects, Err(parsed.error);
    }
    var invoice := parsed.value;
    if o.maxPriceWei.Some? && Money.CompareWei(invoice.amountWei, o.maxPriceWei.value).value > 0 {
      return effects, Err(PriceExceeded);
    }
    if o.expectPayTo.Some? && Lower(invoice.payTo) != Lower(o.expectPayTo.value) {
      return effects, Err(InvoiceMismatch);
    }
    if o.expectServiceId.Some? && invoice.serviceId != o.expectServiceId.value {
      return effects, Err(InvoiceMismatch);
    }
    if o.routerAddress.Some? && o.routerAddress.value != "" && Lower(invoice.router) != Lower(o.routerAddress.value) {
      return effects, Err(InvoiceMismatch);
    }
    effects := effects + [Pay(invoice)];
    if w.transfer.None? {
      return effects, Err(TransferFailed);
    }
    effects := effects + [Sleep(o.settleDelayMs)];
    if NeedsSignature(o) && !w.canSign {
      return effects, Err(SignerUnsupported);
    }
    if NeedsSignature(o) && !w.signs {
      return effects, Err(SigningFailed);
    }
    var proof := Present(w.transfer.value, invoice.nonce, NeedsSignature(o));
    var presented;
    presented, outcome := PresentProof(w.replies, proof);
    effects := effects + presented;
  }

  // ---- what a call can do, whatever the outside answers --------------------------------------

  function Payments(effects: seq<Effect>): nat {
    if effects == [] then 0 else Payments(effects[1..]) + if effects[0].Pay? then 1 else 0
  }

  function Requests(effects: seq<Effect>): nat {
    if effects == [] then 0 else Requests(effects[1..]) + if effects[0].Fetch? || effects[0].Present? then 1 else 0
  }

  function Sleeps(effects: seq<Effect>): nat {
    if effects == [] then 0 else Sleeps(effects[1..]) + if effects[0].Sleep? then 1 else 0
  }

  /** The invoice may be paid: it is for this network, names an unexpired amount within the cap,
      and agrees with everything the caller expects. */
  ghost predicate MayBePaid(o: Options, e: Entry, invoice: Invoice, now: int) {
    && e.Entry? && e.scheme == Some(X402_SCHEME) && e.network == Some(o.network)
    && e.maxAmountRequired == Some(invoice.amountWei) && e.payTo == Some(invoice.payTo)
        && e.router == Some(invoice.router)
    && e.nonce == Some(invoice.nonce) && e.expiresAtMs == Some(invoice.expiresAtMs) && e.serviceId == invoice.serviceId
    && Money.ParseWei(invoice.amountWei).Ok? && now < invoice.expiresAtMs
    && 1 <= |invoice.nonce| <= 78 && IsDigits(invoice.nonce)
    && Value(invoice.nonce) < 0x1_0000_0000_0000_0000_0000_0000_0000_0000_0000_0000_0000_0000_0000_0000_0000_0000
    && IsAnyCaseAddress(invoice.payTo) && IsAnyCaseAddress(invoice.router)
    && (o.maxPriceWei.Some? && Money.ParseWei(o.maxPriceWei.value).Ok? ==>
          Money.ParseWei(invoice.amountWei).value <= Money.ParseWei(o.maxPriceWei.value).value)
    && (o.expectPayTo.Some? ==> Lower(invoice.payTo) == Lower(o.expectPayTo.value))
    && (o.expectServiceId.Some? ==> invoice.serviceId == o.expectServiceId.value)
    && (o.routerAddress.Some? && o.routerAddress.value != "" ==> Lower(invoice.router) == Lower(o.routerAddress.value))
  }

  lemma {:induction false} FirstOnMeans(entries: seq<Entry>, network: string)
    requires forall e :: e in entries ==> e.Entry?
    ensures match FirstOn(entries, network)
            case Some(e) => e in entries && e.network == Some(network)
            case None => forall e :: e in entries ==> e.network != Some(network)
  {
    if entries != [] {
      FirstOnMeans(entries[1..], network);
    }
  }

  /** An approved invoice is an entry of the reply that may be paid. */
  lemma {:induction false} ApprovedMayBePaid(o: Options, first: Reply, now: int)
    requires Usable(o) && first.Reply? && Approved(o, first, now).Ok?
    ensures first.body.JsonObject? && first.body.accepts.Some?
    ensures exists e :: e in first.body.accepts.value && MayBePaid(o, e, Approved(o, first, now).value, now)
  {
    hide Value, IsDigits, IsAnyCaseAddress, Lower;
    var entries := first.body.accepts.value;
    OfSchemeMeans(entries);
    FirstOnMeans(OfScheme(entries), o.network);
    var e := FirstOn(OfScheme(entries), o.network).value;
    assert MayBePaid(o, e, Approved(o, first, now).value, now);
  }

  /** And when the first entry for this network and scheme may be paid, it is approved. */
  lemma {:induction false} MayBePaidIsApproved(o: Options, first: Reply, now: int, i: nat, invoice: Invoice)
    requires Usable(o) && first.Reply? && first.body.JsonObject? && first.body.x402Version == Some(X402_VERSION)
    requires first.body.accepts.Some? && i < |first.body.accepts.value|
    requires MayBePaid(o, first.body.accepts.value[i], invoice, now)
    requires forall j :: 0 <= j < i ==>
               var e := first.body.accepts.value[j];
               !e.Entry? || e.scheme != Some(X402_SCHEME) || e.network != Some(o.network)
    ensures Approved(o, first, now) == Ok(invoice)
  {
    hide Value, IsDigits, IsAnyCaseAddress, Lower;
    FirstIsFound(first.body.accepts.value, i, o.network);
  }

  lemma {:induction false} FirstIsFound(entries: seq<Entry>, i: nat, network: string)
    requires i < |entries|
    requires entries[i].Entry? && entries[i].scheme == Some(X402_SCHEME) && entries[i].network == Some(network)
    requires forall j :: 0 <= j < i ==>
               !entries[j].Entry? || entries[j].scheme != Some(X402_SCHEME) || entries[j].network != Some(network)
    ensures forall e :: e in OfScheme(entries) ==> e.Entry?
    ensures OfScheme(entries) != [] && FirstOn(OfScheme(entries), network) == Some(entries[i])
  {
    OfSchemeMeans(entries);
    var rest := OfScheme(entries[1..]);
    OfSchemeMeans(entries[1..]);
    if i > 0 {
      FirstIsFound(entries[1..], i - 1, network);
      if entries[0].Entry? && entries[0].scheme == Some(X402_SCHEME) {
        assert OfScheme(entries)[1..] == rest;
      } else {
        assert OfScheme(entries) == rest;
      }
    }
  }

  lemma {:induction false} Split(a: seq<Effect>, b: seq<Effect>)
    ensures Payments(a + b) == Payments(a) + Payments(b) && Requests(a + b) == Requests(a) + Requests(b)
    ensures Sleeps(a + b) == Sleeps(a) + Sleeps(b)
  {
    if a == [] {
      assert a + b == b;
    } else {
      Split(a[1..], b);
      assert (a + b)[1..] == a[1..] + b;
    }
  }

  lemma Single(e: Effect)
    ensures Payments([e]) == (if e.Pay? then 1 else 0) && Requests([e]) == (if e.Fetch? || e.Present? then 1 else 0)
    ensures Sleeps([e]) == if e.Sleep? then 1 else 0
  {
    assert [e][1..] == [];
  }

  lemma Pair(a: Effect, b: Effect)
    ensures Payments([a, b]) == Payments([a]) + Payments([b]) && Requests([a, b]) == Requests([a]) + Requests([b])
    ensures Sleeps([a, b]) == Sleeps([a]) + Sleeps([b])
  {
    Split([a], [b]);
    assert [a] + [b] == [a, b];
  }

  lemma UpToThePayment(invoice: Invoice, ms: nat)
    ensures Payments([]) == 0 && Requests([]) == 0
    ensures Payments([Fetch]) == 0 && Requests([Fetch]) == 1
    ensures Payments([Fetch, Pay(invoice)]) == 1 && Requests([Fetch, Pay(invoice)]) == 1
    ensures Payments([Fetch, Pay(invoice), Sleep(ms)]) == 1 && Requests([Fetch, Pay(invoice), Sleep(ms)]) == 1
    ensures Sleeps([]) == Sleeps([Fetch]) == Sleeps([Fetch, Pay(invoice)]) == 0
    ensures Sleeps([Fetch, Pay(invoice), Sleep(ms)]) == 1
  {
    Single(Fetch);
    Single(Pay(invoice));
    Single(Sleep(ms));
    Pair(Fetch, Pay(invoice));
    Split([Fetch, Pay(invoice)], [Sleep(ms)]);
    assert [Fetch, Pay(invoice)] + [Sleep(ms)] == [Fetch, Pay(invoice), Sleep(ms)];
  }

  /** Presentations of the proof and pauses of at most thirty seconds, fewer than `requests`
      pauses among them, and nothing else. */
  ghost predicate OnlyPresents(effects: seq<Effect>, proof: Effect, requests: nat) {
    && (forall i :: 0 <= i < |effects| ==>
        effects[i] == proof || (effects[i].Sleep? && effects[i].ms <= MAX_RETRY_AFTER_MS))
    && Payments(effects) == 0
    && 1 <= Requests(effects) <= requests
    && Sleeps(effects) == Requests(effects) - 1 && |effects| == 2 * Requests(effects) - 1
  }

  lemma PresentingGoesOn(replies: nat -> Reply, proof: Effect, pending: nat)
    requires pending <= MAX_PENDING_RETRIES && |Presenting(replies, proof, pending).effects| > 1
    ensures pending < MAX_PENDING_RETRIES
    ensures var run, rest := Presenting(replies, proof, pending), Presenting(replies, proof, pending + 1);
            && run.outcome == rest.outcome && run.effects[1].Sleep? && run.effects[1].ms <= MAX_RETRY_AFTER_MS
            && run.effects == [proof, run.effects[1]] + rest.effects
  {
  }

  lemma PausedPresents(proof: Effect, pause: Effect, rest: seq<Effect>, requests: nat)
    requires proof.Present? && pause.Sleep? && pause.ms <= MAX_RETRY_AFTER_MS
    requires OnlyPresents(rest, proof, requests)
    ensures OnlyPresents([proof, pause] + rest, proof, requests + 1)
  {
    hide Payments, Requests, Sleeps;
    Single(proof);
    Single(pause);
    Pair(proof, pause);
    Split([proof, pause], rest);
  }

  lemma {:induction false} PresentingIsBounded(replies: nat -> Reply, proof: Effect, pending: nat)
    requires pending <= MAX_PENDING_RETRIES && proof.Present?
    ensures OnlyPresents(Presenting(replies, proof, pending).effects, proof, MAX_PENDING_RETRIES + 1 - pending)
    ensures match Presenting(replies, proof, pending).outcome
            case Ok(result) => result.paid
            case Err(e) => e == UpstreamTimeout || e == UpstreamFailed
    decreases MAX_PENDING_RETRIES - pending
  {
    hide Payments, Requests, Sleeps;
    var effects := Presenting(replies, proof, pending).effects;
    Single(proof);
    if |effects| > 1 {
      hide Presenting;
      PresentingIsBounded(replies, proof, pending + 1);
      PresentingGoesOn(replies, proof, pending);
      PausedPresents(proof, effects[1], Presenting(replies, proof, pending + 1).effects, MAX_PENDING_RETRIES - pending);
    }
  }

  /** The effects of a call that got as far as the payment. */
  ghost predicate GotToPaying(o: Options, w: World, invoice: Invoice, run: Run) {
    if w.transfer.None? then run == Run([Fetch, Pay(invoice)], Err(TransferFailed))
    else if NeedsSignature(o) && !(w.canSign && w.signs) then
      run == Run([Fetch, Pay(invoice), Sleep(o.settleDelayMs)],
          Err(if w.canSign then SigningFailed else SignerUnsupported))
    else
      run == After([Fetch, Pay(invoice), Sleep(o.settleDelayMs)],
                   Presenting(w.replies, Present(w.transfer.value, invoice.nonce, NeedsSignature(o)), 0))
  }

  /** A call stops with nothing paid, or gets to paying an approved invoice. */
  lemma Stages(o: Options, w: World)
    requires Usable(o)
    ensures var run := Behaviour(o, w);
            if w.url.Allowed? && w.replies(0).Reply? && w.replies(0).status == 402
                && Approved(o, w.replies(0), w.now).Ok?
            then GotToPaying(o, w, Approved(o, w.replies(0), w.now).value, run)
            else Payments(run.effects) == 0 && Requests(run.effects) == |run.effects| <= 1 && Sleeps(run.effects) == 0
                 && (run.effects == [] || run.effects == [Fetch]) && (run.outcome.Ok? ==> !run.outcome.value.paid)
  {
    hide Approved, Presenting;
    Single(Fetch);
  }

  /** What getting to the payment adds up to. */
  lemma PayingAddsUp(o: Options, w: World, invoice: Invoice, run: Run)
    requires GotToPaying(o, w, invoice, run)
    ensures Payments(run.effects) == 1 && Requests(run.effects) <= 7 && Sleeps(run.effects) <= 1 + 5
    ensures |run.effects| <= 3 + 6 + 5
    ensures run.effects[0] == Fetch && run.effects[1] == Pay(invoice)
    ensures forall i :: 2 <= i < |run.effects| ==> !run.effects[i].Pay?
    ensures forall i :: 3 <= i < |run.effects| && run.effects[i].Sleep? ==> run.effects[i].ms <= MAX_RETRY_AFTER_MS
    ensures run.outcome.Ok? ==>
        run.outcome.value.paid && w.transfer.Some? && (NeedsSignature(o) ==> w.canSign && w.signs)
    ensures run.outcome.Err? ==>
              run.outcome.error in {TransferFailed, SignerUnsupported, SigningFailed, UpstreamTimeout, UpstreamFailed}
  {
    hide Presenting, Payments, Requests, Sleeps;
    UpToThePayment(invoice, o.settleDelayMs);
    if w.transfer.Some? && (NeedsSignature(o) ==> w.canSign && w.signs) {
      var proof := Present(w.transfer.value, invoice.nonce, NeedsSignature(o));
      PresentingIsBounded(w.replies, proof, 0);
      Split([Fetch, Pay(invoice), Sleep(o.settleDelayMs)], Presenting(w.replies, proof, 0).effects);
    }
  }

  ghost predicate Approves(o: Options, w: World, invoice: Invoice)
    requires Usable(o)
  {
    && w.url.Allowed? && w.replies(0).Reply? && w.replies(0).status == 402
    && Approved(o, w.replies(0), w.now) == Ok(invoice)
  }

  /** A call asks for at most one payment, and only with an approved invoice in hand, of which
      that is the payment. It sends at most seven requests. Its pauses are the settling one and
      at most five others, of at most thirty seconds each. */
  lemma {:induction false} AtMostOnePayment(o: Options, w: World)
    requires Usable(o)
    ensures var effects := Behaviour(o, w).effects;
            && Payments(effects) <= 1 && Requests(effects) <= 7 && Sleeps(effects) <= 1 + 5 && |effects| <= 3 + 6 + 5
            && (forall i :: 0 <= i < |effects| && effects[i].Pay? ==> i == 1 && Approves(o, w, effects[i].invoice))
            && (forall i :: 3 <= i < |effects| && effects[i].Sleep? ==> effects[i].ms <= MAX_RETRY_AFTER_MS)
  {
    hide Approved, Behaviour, GotToPaying, Payments, Requests, Sleeps;
    Stages(o, w);
    if w.url.Allowed? && w.replies(0).Reply? && w.replies(0).status == 402 && Approved(o, w.replies(0), w.now).Ok? {
      PayingAddsUp(o, w, Approved(o, w.replies(0), w.now).value, Behaviour(o, w));
    }
  }

  /** What the result tells about the payment: `paid` says that it went through and the proof
      was presented, signed where the network asks for it; and only five errors can come after
      the payment was asked for. */
  lemma {:induction false} ResultTellsPayment(o: Options, w: World)
    requires Usable(o)
    ensures var run := Behaviour(o, w);
            && (run.outcome.Ok? ==> (run.outcome.value.paid <==> Payments(run.effects) == 1))
            && (run.outcome.Ok? && run.outcome.value.paid ==>
                w.transfer.Some? && (NeedsSignature(o) ==> w.canSign && w.signs))
            && (run.outcome.Err? && Payments(run.effects) == 1 ==>
                  run.outcome.error in {TransferFailed, SignerUnsupported, SigningFailed, UpstreamTimeout,
                      UpstreamFailed})
  {
    hide Approved, Behaviour, GotToPaying, Payments, Requests, Sleeps;
    Stages(o, w);
    if w.url.Allowed? && w.replies(0).Reply? && w.replies(0).status == 402 && Approved(o, w.replies(0), w.now).Ok? {
      PayingAddsUp(o, w, Approved(o, w.replies(0), w.now).value, Behaviour(o, w));
    }
  }

  /** A chain client that cannot sign is noticed only after the payment: the call ends in the
      unsupported-signer error exactly when everything else was in order and the payment has
      already gone through. */
  lemma {:induction false} SignerIsCheckedAfterPaying(o: Options, w: World)
    requires Usable(o)
    ensures Behaviour(o, w).outcome == Err(SignerUnsupported) <==>
            (exists invoice :: Approves(o, w, invoice)) && w.transfer.Some? && NeedsSignature(o) && !w.canSign
    ensures Behaviour(o, w).outcome == Err(SignerUnsupported) ==> Payments(Behaviour(o, w).effects) == 1
  {
    hide Approved, Presenting, Payments, Requests;
    ApprovalErrors(o, w);
    if w.url.Allowed? && w.replies(0).Reply? && w.replies(0).status == 402 && Approved(o, w.replies(0), w.now).Ok? {
      var invoice := Approved(o, w.replies(0), w.now).value;
      assert Approves(o, w, invoice);
      UpToThePayment(invoice, o.settleDelayMs);
      if w.transfer.Some? {
        PresentingIsBounded(w.replies, Present(w.transfer.value, invoice.nonce, NeedsSignature(o)), 0);
      }
    }
  }

  /** The two other ways to end around the payment: it did not go through, or the signing failed. */
  lemma {:induction false} PaymentFailuresExactly(o: Options, w: World)
    requires Usable(o)
    ensures var outcome := Behaviour(o, w).outcome;
            var approved := exists invoice :: Approves(o, w, invoice);
            && (outcome == Err(TransferFailed) <==> approved && w.transfer.None?)
            && (outcome == Err(SigningFailed) <==>
                  approved && w.transfer.Some? && o.network != "mock" && w.canSign && !w.signs)
  {
    hide Approved, Presenting, Payments, Requests;
    ApprovalErrors(o, w);
    if w.url.Allowed? && w.replies(0).Reply? && w.replies(0).status == 402 && Approved(o, w.replies(0), w.now).Ok? {
      var invoice := Approved(o, w.replies(0), w.now).value;
      assert Approves(o, w, invoice);
      if w.transfer.Some? {
        PresentingIsBounded(w.replies, Present(w.transfer.value, invoice.nonce, NeedsSignature(o)), 0);
      }
    }
  }

  lemma ApprovalErrors(o: Options, w: World)
    requires Usable(o)
    ensures w.replies(0).Reply? ==>
              Approved(o, w.replies(0), w.now) !in {Err(SignerUnsupported), Err(TransferFailed), Err(SigningFailed)}
  {
    hide Value, IsUint256, IsAnyCaseAddress, Lower;
  }

  // ---- the exchange, reply by reply -------------------------------------------------------

  /** The verification is pending: the server asks to come back later. */
  predicate AsksToWait(reply: Reply) {
    reply.Reply? && reply.status == 402 && reply.retryAfterS.Some?
  }

  /** The pause a server asked for, up to half a minute. */
  predicate IsPauseFor(e: Effect, reply: Reply)
    requires AsksToWait(reply)
  {
    var asked := 1000 * reply.retryAfterS.value;
    e.Sleep? && (asked <= 30_000 ==> e.ms == asked) && (asked > 30_000 ==> e.ms == 30_000)
  }

  /** What the caller is told is the last reply: its own status, or its own error. */
  predicate ReportsLast(outcome: Result<PaidResult, ClientError>, last: Reply, paid: bool) {
    match last
    case Reply(status, _, _) => outcome == Ok(PaidResult(status, paid))
    case TimedOut => outcome == Err(UpstreamTimeout)
    case Broken => outcome == Err(UpstreamFailed)
  }

  /** Presentations and pauses in turn, the `i`-th pair for reply `first + i`. */
  ghost predicate TakesTurns(effects: seq<Effect>, proof: Effect, replies: nat -> Reply, first: nat) {
    forall i :: 0 <= i < |effects| ==> TurnAt(effects, i, proof, replies, first)
  }

  ghost predicate TurnAt(effects: seq<Effect>, i: nat, proof: Effect, replies: nat -> Reply, first: nat)
    requires i < |effects|
  {
    var reply := replies(first + i / 2);
    if i % 2 == 0 then effects[i] == proof else AsksToWait(reply) && IsPauseFor(effects[i], reply)
  }

  lemma TurnsGoOn(proof: Effect, pause: Effect, rest: seq<Effect>, replies: nat -> Reply, first: nat)
    requires AsksToWait(replies(first)) && IsPauseFor(pause, replies(first))
    requires TakesTurns(rest, proof, replies, first + 1)
    ensures TakesTurns([proof, pause] + rest, proof, replies, first)
  {
    var all := [proof, pause] + rest;
    forall i | 0 <= i < |all|
      ensures TurnAt(all, i, proof, replies, first)
    {
      if i >= 2 {
        assert TurnAt(rest, i - 2, proof, replies, first + 1);
        assert all[i] == rest[i - 2];
        assert first + 1 + (i - 2) / 2 == first + i / 2;
      }
    }
  }

  /** The proof is presented again exactly as long as the server asks to wait, and five times at the
      most; the caller is told the last reply. */
  lemma {:induction false} PresentingTakesTurns(replies: nat -> Reply, proof: Effect, pending: nat)
    requires pending <= MAX_PENDING_RETRIES && proof.Present?
    ensures var run := Presenting(replies, proof, pending);
            var n := Requests(run.effects);
            && 1 <= n <= 6 - pending && |run.effects| == 2 * n - 1
            && TakesTurns(run.effects, proof, replies, pending + 1)
            && (AsksToWait(replies(pending + n)) ==> pending + n == 6)
            && ReportsLast(run.outcome, replies(pending + n), true)
    decreases MAX_PENDING_RETRIES - pending
  {
    hide Requests, Payments, Sleeps;
    PresentingIsBounded(replies, proof, pending);
    var effects := Presenting(replies, proof, pending).effects;
    Single(proof);
    if |effects| > 1 {
      PresentingGoesOn(replies, proof, pending);
      PresentingTakesTurns(replies, proof, pending + 1);
      var rest := Presenting(replies, proof, pending + 1).effects;
      Single(effects[1]);
      Pair(proof, effects[1]);
      Split([proof, effects[1]], rest);
      TurnsGoOn(proof, effects[1], rest, replies, pending + 1);
    } else {
      assert effects == [proof];
    }
  }

  /** The exchange of a whole call. No request is sent to a URL that is refused. Whatever is told is
      the last of the replies, unless the call stopped for a reason of its own; and after a payment
      the proof of that very payment is presented, in turn with the pauses asked for. */
  lemma {:induction false} ExchangeIsExact(o: Options, w: World)
    requires Usable(o)
    ensures var run := Behaviour(o, w);
            var n := Requests(run.effects);
            && (n == 0 <==> !w.url.Allowed?)
            && (w.url.Malformed? ==> run == Run([], Err(BadUrl)))
            && (w.url.Forbidden? ==> run == Run([], Err(ForbiddenHost)))
            && (run.outcome.Ok? ==> n > 0 && ReportsLast(run.outcome, w.replies(n - 1), n > 1))
            && (n > 0 && !w.replies(n - 1).Reply? ==> ReportsLast(run.outcome, w.replies(n - 1), n > 1))
            && (n == 1 && w.replies(0).Reply? && w.replies(0).status != 402 ==>
                  run == Run([Fetch], Ok(PaidResult(w.replies(0).status, false))))
            && (n > 1 ==>
                  && w.transfer.Some? && run.effects[1].Pay? && run.effects[2] == Sleep(o.settleDelayMs)
                  && var proof := Present(w.transfer.value, run.effects[1].invoice.nonce, o.network != "mock");
                     && TakesTurns(run.effects[3..], proof, w.replies, 1) && |run.effects| == 2 * n
                     && (AsksToWait(w.replies(n - 1)) ==> n == 7)
                     && ReportsLast(run.outcome, w.replies(n - 1), true))
  {
    hide Approved, Presenting, Behaviour, Requests, Payments, Sleeps, TakesTurns;
    Stages(o, w);
    Stops(o, w);
    if w.url.Allowed? && w.replies(0).Reply? && w.replies(0).status == 402 && Approved(o, w.replies(0), w.now).Ok? {
      var invoice := Approved(o, w.replies(0), w.now).value;
      UpToThePayment(invoice, o.settleDelayMs);
      if w.transfer.Some? && (NeedsSignature(o) ==> w.canSign && w.signs) {
        var proof := Present(w.transfer.value, invoice.nonce, NeedsSignature(o));
        var rest := Presenting(w.replies, proof, 0).effects;
        PresentingTakesTurns(w.replies, proof, 0);
        Split([Fetch, Pay(invoice), Sleep(o.settleDelayMs)], rest);
        assert ([Fetch, Pay(invoice), Sleep(o.settleDelayMs)] + rest)[3..] == rest;
      }
    }
  }

  /** A call that does not get to paying. */
  lemma Stops(o: Options, w: World)
    requires Usable(o)
    ensures var run := Behaviour(o, w);
            && (w.url.Malformed? ==> run == Run([], Err(BadUrl)))
            && (w.url.Forbidden? ==> run == Run([], Err(ForbiddenHost)))
            && (!w.url.Allowed? ==> Requests(run.effects) == 0)
            && (w.url.Allowed? && !(w.replies(0).Reply? && w.replies(0).status == 402) ==>
                  run.effects == [Fetch] && ReportsLast(run.outcome, w.replies(0), false))
            && (w.url.Allowed? && w.replies(0).Reply? && w.replies(0).status == 402
                && Approved(o, w.replies(0), w.now).Err? ==>
                  run == Run([Fetch], Err(Approved(o, w.replies(0), w.now).error)))
            && Requests([Fetch]) == 1
  {
    hide Approved, Presenting;
    Single(Fetch);
  }

  // ---- why an invoice is not paid -------------------------------------------------------------

  /** A parsed invoice is refused over its price exactly when that is above the cap, and otherwise
      over a mismatch exactly when payee, service or router is not the expected one. */
  lemma {:induction false} GuardsAreExact(o: Options, invoice: Invoice)
    requires Usable(o) && Money.ParseWei(invoice.amountWei).Ok?
    ensures var overCap := o.maxPriceWei.Some? &&
              Value(invoice.amountWei) > Money.ParseWei(o.maxPriceWei.value).value;
            var strange := (o.expectPayTo.Some? && Lower(invoice.payTo) != Lower(o.expectPayTo.value))
              || (o.expectServiceId.Some? && invoice.serviceId != o.expectServiceId.value)
              || (o.routerAddress.Some? && o.routerAddress.value != "" &&
                  Lower(invoice.router) != Lower(o.routerAddress.value));
            && (Guarded(o, invoice) == Err(PriceExceeded) <==> overCap)
            && (Guarded(o, invoice) == Err(InvoiceMismatch) <==> !overCap && strange)
            && (Guarded(o, invoice) == Ok(invoice) <==> !overCap && !strange)
  {
    hide Value, Lower;
  }

  /** A body is of another network exactly when it offers the scheme, but never on this one; whatever
      else is wrong with it makes it a bad invoice. */
  lemma {:induction false} OtherNetworkExactly(raw: Body, network: string, now: int)
    ensures var r := ParsePaymentRequired(raw, network, now);
            && (r == Err(NetworkMismatch) <==>
                  && raw.JsonObject? && raw.x402Version == Some(1) && raw.accepts.Some?
                  && (exists e :: e in raw.accepts.value && e.Entry? && e.scheme == Some("exact-settled"))
                  && (forall e :: e in raw.accepts.value && e.Entry? && e.scheme == Some("exact-settled") ==>
                        e.network != Some(network)))
            && (r.Err? ==> r.error == NetworkMismatch || r.error == BadInvoice)
  {
    hide Value, IsUint256, IsAnyCaseAddress, Money.ParseWei;
    if raw.JsonObject? && raw.accepts.Some? {
      var matches := OfScheme(raw.accepts.value);
      OfSchemeMeans(raw.accepts.value);
      FirstOnMeans(matches, network);
      assert matches != [] ==> matches[0] in matches;
    }
  }
}
