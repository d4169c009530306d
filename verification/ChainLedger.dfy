/** The mock chain (packages/devnet/src/state.ts) as an unbounded history, with one
    function per operation. `Devnet.DevnetState` is the class with capped, indexed logs
    that the repository runs. */
module ChainLedger {
  import opened Basics
  import Text

  type Account = string

  const TRANSFER_LOG_CAP: nat := 2000
  const ACTIVITY_LOG_CAP: nat := 500
  const ATTESTATIONS_PER_SERVICE_CAP: nat := 100
  const MAX_SERVICES: nat := 1000
  const MIN_PRICE_WEI: nat := 1_000_000_000_000

  /** What a transaction hash is taken over, beside the transaction counter. */
  datatype Payload =
    | TransferPayload(from: Account, to: Account, amountWei: nat, nonce: nat, serviceId: nat)
    | RegisterPayload(newServiceId: nat, name: string)
    | AttestationPayload(attestedServiceId: nat, paymentTxHash: TxHash, success: bool)
    | ActivePayload(flaggedServiceId: nat, active: bool)

  /** A hash is modelled by its preimage; see `SignedMessages.PreimagesDistinct`. */
  datatype TxHash = Sha256(payload: Payload, counter: nat)

  datatype Service = Service(
    id: nat, priceWei: nat, paymentTarget: Account, owner: Account, attestor: Account, active: bool)

  datatype Transfer = Transfer(
    txHash: TxHash, from: Account, to: Account, amountWei: nat, nonce: nat, serviceId: nat, timestamp: int)

  datatype Attestation = Attestation(
    serviceId: nat, paymentTxHash: TxHash, success: bool, timestamp: int, recordTxHash: TxHash)

  datatype Activity =
    | PaymentMade(txHash: TxHash, serviceId: nat, amountWei: nat, timestamp: int)
    | ServiceRegistered(txHash: TxHash, serviceId: nat, timestamp: int)
    | AttestationMade(txHash: TxHash, serviceId: nat, success: bool, timestamp: int)

  datatype Score = Score(total: nat, success: nat)

  datatype Error =
    | InsufficientBalance
    | ServiceLimitReached
    | EmptyName
    | InvalidPrice
    | InvalidPaymentTarget
    | ServiceNotFound
    | NotAuthorized
    | ServiceInactive
    | DuplicateAttestation
    | TransferNotFound

  /** Everything that ever happened on the chain; the sequences are oldest first. */
  datatype Ledger = Ledger(
    balances: map<Account, int>,
    granted: nat,
    transfers: seq<Transfer>,
    services: map<nat, Service>,
    attested: seq<Attestation>,
    activity: seq<Activity>,
    txCounter: nat,
    nextServiceId: nat)

  const GENESIS := Ledger(map[], 0, [], map[], [], [], 0, 1)

  function BalanceOf(balances: map<Account, int>, account: Account): int {
    if account in balances then balances[account] else 0
  }

  // ---- operations on the unbounded ledger ------------------------------------

  function Faucet(l: Ledger, account: Account, amountWei: nat): Ledger {
    l.(balances := l.balances[account := BalanceOf(l.balances, account) + amountWei],
       granted := l.granted + amountWei)
  }

  function NewTransfer(
    l: Ledger, from: Account, to: Account, amountWei: nat, nonce: nat, serviceId: nat, now: int): Transfer
  {
    var txHash := Sha256(TransferPayload(from, to, amountWei, nonce, serviceId), l.txCounter + 1);
    Transfer(txHash, from, to, amountWei, nonce, serviceId, now)
  }

  /** Debit, then credit the balance as it stands after the debit. */
  function Moved(balances: map<Account, int>, from: Account, to: Account, amountWei: nat): map<Account, int> {
    var debited := balances[from := BalanceOf(balances, from) - amountWei];
    debited[to := BalanceOf(debited, to) + amountWei]
  }

  function Pay(
    l: Ledger, from: Account, to: Account, amountWei: nat, nonce: nat, serviceId: nat, now: int)
    : (Ledger, Result<Transfer, Error>)
  {
    if BalanceOf(l.balances, from) < amountWei then (l, Err(InsufficientBalance)) else
    var record := NewTransfer(l, from, to, amountWei, nonce, serviceId, now);
    (l.(balances := Moved(l.balances, from, to, amountWei),
        transfers := l.transfers + [record],
        activity := l.activity + [PaymentMade(record.txHash, serviceId, amountWei, now)],
        txCounter := l.txCounter + 1),
     Ok(record))
  }

  function Register(
    l: Ledger, name: string, priceWei: nat, paymentTarget: string, owner: Account, attestor: Account, now: int)
    : (Ledger, Result<nat, Error>)
  {
    if |l.services| >= MAX_SERVICES then (l, Err(ServiceLimitReached))
    else if Text.Trim(name) == "" then (l, Err(EmptyName))
    else if priceWei < MIN_PRICE_WEI then (l, Err(InvalidPrice)) else
    var target := Text.Lower(Text.Trim(paymentTarget));
    if !Text.IsAddress(target) then (l, Err(InvalidPaymentTarget)) else
    var id := l.nextServiceId;
    var txHash := Sha256(RegisterPayload(id, name), l.txCounter + 1);
    (l.(services := l.services[id := Service(id, priceWei, target, owner, attestor, true)],
        activity := l.activity + [ServiceRegistered(txHash, id, now)],
        txCounter := l.txCounter + 1,
        nextServiceId := id + 1),
     Ok(id))
  }

  predicate Attested(attested: seq<Attestation>, serviceId: nat, paymentTxHash: TxHash) {
    exists i :: 0 <= i < |attested| && attested[i].serviceId == serviceId && attested[i].paymentTxHash == paymentTxHash
  }

  function NewAttestation(l: Ledger, serviceId: nat, paymentTxHash: TxHash, success: bool, now: int): Attestation {
    Attestation(serviceId, paymentTxHash, success, now,
                Sha256(AttestationPayload(serviceId, paymentTxHash, success), l.txCounter + 1))
  }

  function Record(
    l: Ledger, serviceId: nat, paymentTxHash: TxHash, success: bool, signer: Account, now: int)
    : (Ledger, Result<TxHash, Error>)
  {
    if serviceId !in l.services then (l, Err(ServiceNotFound)) else
    var service := l.services[serviceId];
    if signer != service.attestor && signer != service.owner then (l, Err(NotAuthorized))
    else if !service.active then (l, Err(ServiceInactive))
    else if Attested(l.attested, serviceId, paymentTxHash) then (l, Err(DuplicateAttestation)) else
    var record := NewAttestation(l, serviceId, paymentTxHash, success, now);
    (l.(attested := l.attested + [record],
        activity := l.activity + [AttestationMade(record.recordTxHash, serviceId, success, now)],
        txCounter := l.txCounter + 1),
     Ok(record.recordTxHash))
  }

  function SetActive(l: Ledger, serviceId: nat, active: bool, signer: Account): (Ledger, Result<TxHash, Error>) {
    if serviceId !in l.services then (l, Err(ServiceNotFound))
    else if signer != l.services[serviceId].owner then (l, Err(NotAuthorized)) else
    var txHash := Sha256(ActivePayload(serviceId, active), l.txCounter + 1);
    (l.(services := l.services[serviceId := l.services[serviceId].(active := active)],
        txCounter := l.txCounter + 1),
     Ok(txHash))
  }

  // ---- reads -----------------------------------------------------------------

  function OfService(attested: seq<Attestation>, serviceId: nat): seq<Attestation> {
    if attested == [] then []
    else
      var last := attested[|attested| - 1];
      OfService(attested[..|attested| - 1], serviceId) + if last.serviceId == serviceId then [last] else []
  }

  function Successes(attested: seq<Attestation>): nat {
    if attested == [] then 0
    else Successes(attested[..|attested| - 1]) + if attested[|attested| - 1].success then 1 else 0
  }

  /** The score of a service: counts over its whole history, not over the retained list. */
  function ScoreOf(attested: seq<Attestation>, serviceId: nat): Score {
    var mine := OfService(attested, serviceId);
    Score(|mine|, Successes(mine))
  }

  function FindIn(kept: seq<Transfer>, txHash: TxHash): (found: Option<Transfer>)
    ensures found.Some? ==> found.value in kept && found.value.txHash == txHash
    ensures found.None? ==> forall t :: t in kept ==> t.txHash != txHash
  {
    if kept == [] then None
    else if kept[0].txHash == txHash then Some(kept[0])
    else FindIn(kept[1..], txHash)
  }

  /** The transfer with this hash, if it is still among the newest `TRANSFER_LOG_CAP`. */
  function FindTransfer(transfers: seq<Transfer>, txHash: TxHash): Option<Transfer> {
    FindIn(LastN(transfers, TRANSFER_LOG_CAP), txHash)
  }

  // ---- whole runs --------------------------------------------------------------

  datatype Op =
    | FaucetOp(account: Account, granted: nat)
    | PayOp(from: Account, to: Account, amountWei: nat, nonce: nat, paidServiceId: nat)
    | RegisterOp(name: string, priceWei: nat, paymentTarget: string, owner: Account, attestor: Account)
    | RecordOp(serviceId: nat, paymentTxHash: TxHash, success: bool, recorder: Account)
    | SetActiveOp(flaggedServiceId: nat, active: bool, flagger: Account)

  /** One request to the chain at time `now`; a refused request leaves the ledger alone. */
  function Apply(l: Ledger, op: Op, now: int): Ledger {
    match op
    case FaucetOp(account, amountWei) => Faucet(l, account, amountWei)
    case PayOp(from, to, amountWei, nonce, serviceId) => Pay(l, from, to, amountWei, nonce, serviceId, now).0
    case RegisterOp(name, price, target, owner, attestor) => Register(l, name, price, target, owner, attestor, now).0
    case RecordOp(serviceId, txHash, success, recorder) => Record(l, serviceId, txHash, success, recorder, now).0
    case SetActiveOp(serviceId, active, flagger) => SetActive(l, serviceId, active, flagger).0
  }

  function Run(ops: seq<(Op, int)>): Ledger {
    if ops == [] then GENESIS
    else var last := ops[|ops| - 1]; Apply(Run(ops[..|ops| - 1]), last.0, last.1)
  }

  /** The sum of the balances of `accounts`. */
  ghost function SumOver(accounts: set<Account>, balances: map<Account, int>): int {
    if accounts == {} then 0 else
    var account :| account in accounts;
    BalanceOf(balances, account) + SumOver(accounts - {account}, balances)
  }

  ghost function Total(balances: map<Account, int>): int {
    SumOver(balances.Keys, balances)
  }

  /** The sum does not depend on the order the accounts are taken in. */
  lemma {:induction false} SumSplit(accounts: set<Account>, balances: map<Account, int>, account: Account)
    requires account in accounts
    ensures SumOver(accounts, balances) == BalanceOf(balances, account) + SumOver(accounts - {account}, balances)
  {
    var first :| first in accounts &&
      SumOver(accounts, balances) == BalanceOf(balances, first) + SumOver(accounts - {first}, balances);
    if first != account {
      SumSplit(accounts - {first}, balances, account);
      SumSplit(accounts - {account}, balances, first);
      assert accounts - {first} - {account} == accounts - {account} - {first};
    }
  }

  lemma {:induction false} SumFrame(accounts: set<Account>, balances: map<Account, int>, changed: map<Account, int>)
    requires forall account :: account in accounts ==> BalanceOf(balances, account) == BalanceOf(changed, account)
    ensures SumOver(accounts, balances) == SumOver(accounts, changed)
  {
    if accounts != {} {
      var account :| account in accounts;
      SumSplit(accounts, balances, account);
      SumSplit(accounts, changed, account);
      SumFrame(accounts - {account}, balances, changed);
    }
  }

  lemma TotalSet(balances: map<Account, int>, account: Account, amount: int)
    ensures Total(balances[account := amount]) == Total(balances) - BalanceOf(balances, account) + amount
  {
    var updated := balances[account := amount];
    var others := balances.Keys - {account};
    SumSplit(updated.Keys, updated, account);
    assert updated.Keys - {account} == others;
    SumFrame(others, balances, updated);
    if account in balances {
      SumSplit(balances.Keys, balances, account);
    } else {
      assert balances.Keys == others;
    }
  }

  /** Paying moves wei and makes none, also when payer and payee are the same account. */
  lemma MovedConserves(balances: map<Account, int>, from: Account, to: Account, amountWei: nat)
    ensures Total(Moved(balances, from, to, amountWei)) == Total(balances)
  {
    var debited := balances[from := BalanceOf(balances, from) - amountWei];
    TotalSet(balances, from, BalanceOf(balances, from) - amountWei);
    TotalSet(debited, to, BalanceOf(debited, to) + amountWei);
  }

  ghost predicate Solvent(l: Ledger) {
    && (forall account :: account in l.balances ==> l.balances[account] >= 0)
    && Total(l.balances) == l.granted
  }

  ghost predicate HashesFresh(l: Ledger) {
    && (forall i :: 0 <= i < |l.transfers| ==> l.transfers[i].txHash.counter <= l.txCounter)
    && (forall i, j :: 0 <= i < j < |l.transfers| ==> l.transfers[i].txHash != l.transfers[j].txHash)
  }

  ghost predicate OncePerPayment(l: Ledger) {
    && (forall i :: 0 <= i < |l.attested| ==> l.attested[i].serviceId in l.services)
    && (forall i, j :: 0 <= i < j < |l.attested| ==>
          (l.attested[i].serviceId, l.attested[i].paymentTxHash)
          != (l.attested[j].serviceId, l.attested[j].paymentTxHash))
  }

  ghost predicate IdsFresh(l: Ledger) {
    forall id :: id in l.services ==> id < l.nextServiceId && l.services[id].id == id
  }

  ghost predicate WellFormed(l: Ledger) {
    HashesFresh(l) && OncePerPayment(l) && IdsFresh(l)
  }

  lemma ApplyKeepsSolvent(l: Ledger, op: Op, now: int)
    requires Solvent(l)
    ensures Solvent(Apply(l, op, now))
  {
    match op
    case FaucetOp(account, amountWei) =>
      TotalSet(l.balances, account, BalanceOf(l.balances, account) + amountWei);
    case PayOp(from, to, amountWei, nonce, serviceId) =>
      MovedConserves(l.balances, from, to, amountWei);
    case _ =>
  }

  lemma ApplyKeepsWellFormed(l: Ledger, op: Op, now: int)
    requires WellFormed(l)
    ensures WellFormed(Apply(l, op, now))
  {
  }

  /** After any run the balances are non-negative and sum to exactly what the faucet granted. */
  lemma {:induction false} WeiConserved(ops: seq<(Op, int)>)
    ensures Solvent(Run(ops))
  {
    if ops != [] {
      WeiConserved(ops[..|ops| - 1]);
      ApplyKeepsSolvent(Run(ops[..|ops| - 1]), ops[|ops| - 1].0, ops[|ops| - 1].1);
    } else {
      assert Run(ops) == GENESIS;
    }
  }

  lemma {:induction false} RunWellFormed(ops: seq<(Op, int)>)
    ensures WellFormed(Run(ops))
  {
    if ops != [] {
      RunWellFormed(ops[..|ops| - 1]);
      ApplyKeepsWellFormed(Run(ops[..|ops| - 1]), ops[|ops| - 1].0, ops[|ops| - 1].1);
    }
  }

  lemma PayKeepsWellFormed(l: Ledger, from: Account, to: Account, amountWei: nat, nonce: nat, serviceId: nat, now: int)
    requires WellFormed(l)
    ensures WellFormed(Pay(l, from, to, amountWei, nonce, serviceId, now).0)
  {
    ApplyKeepsWellFormed(l, PayOp(from, to, amountWei, nonce, serviceId), now);
  }

  lemma RegisterKeepsWellFormed(
    l: Ledger, name: string, priceWei: nat, paymentTarget: string, owner: Account, attestor: Account, now: int)
    requires WellFormed(l)
    ensures WellFormed(Register(l, name, priceWei, paymentTarget, owner, attestor, now).0)
  {
    ApplyKeepsWellFormed(l, RegisterOp(name, priceWei, paymentTarget, owner, attestor), now);
  }

  /** What an accepted registration adds. */
  lemma RegisterAdds(
    l: Ledger, name: string, priceWei: nat, paymentTarget: string, owner: Account, attestor: Account, now: int)
    requires Register(l, name, priceWei, paymentTarget, owner, attestor, now).1.Ok?
    ensures var (l', outcome) := Register(l, name, priceWei, paymentTarget, owner, attestor, now);
            var id := l.nextServiceId;
            var target := Text.Lower(Text.Trim(paymentTarget));
            && outcome == Ok(id)
            && l' == Ledger(
                 l.balances, l.granted, l.transfers,
                 l.services[id := Service(id, priceWei, target, owner, attestor, true)], l.attested,
                 l.activity + [ServiceRegistered(Sha256(RegisterPayload(id, name), l.txCounter + 1), id, now)],
                 l.txCounter + 1, id + 1)
  {
  }

  lemma RegisterCases(
    l: Ledger, name: string, priceWei: nat, paymentTarget: string, owner: Account, attestor: Account, now: int)
    ensures Register(l, name, priceWei, paymentTarget, owner, attestor, now) ==
            if |l.services| >= MAX_SERVICES then (l, Err(ServiceLimitReached))
            else if Text.Trim(name) == "" then (l, Err(EmptyName))
            else if priceWei < MIN_PRICE_WEI then (l, Err(InvalidPrice))
            else if !Text.IsAddress(Text.Lower(Text.Trim(paymentTarget))) then (l, Err(InvalidPaymentTarget))
            else (Register(l, name, priceWei, paymentTarget, owner, attestor, now).0, Ok(l.nextServiceId))
  {
  }

  /** What an accepted payment adds. */
  lemma PayAdds(l: Ledger, from: Account, to: Account, amountWei: nat, nonce: nat, serviceId: nat, now: int)
    requires BalanceOf(l.balances, from) >= amountWei
    ensures var record := NewTransfer(l, from, to, amountWei, nonce, serviceId, now);
            Pay(l, from, to, amountWei, nonce, serviceId, now) ==
            (Ledger(Moved(l.balances, from, to, amountWei), l.granted, l.transfers + [record], l.services, l.attested,
                    l.activity + [PaymentMade(record.txHash, serviceId, amountWei, now)],
                    l.txCounter + 1, l.nextServiceId),
             Ok(record))
  {
  }

  lemma PayRefuses(l: Ledger, from: Account, to: Account, amountWei: nat, nonce: nat, serviceId: nat, now: int)
    requires BalanceOf(l.balances, from) < amountWei
    ensures Pay(l, from, to, amountWei, nonce, serviceId, now) == (l, Err(InsufficientBalance))
  {
  }

  /** A grant goes to its account and to no other. */
  lemma {:induction false} FaucetMeans(l: Ledger, account: Account, amountWei: nat)
    ensures var l' := Faucet(l, account, amountWei);
            && l'.(balances := l.balances, granted := l.granted) == l && l'.granted == l.granted + amountWei
            && forall other :: BalanceOf(l'.balances, other) ==
                 BalanceOf(l.balances, other) + if other == account then amountWei else 0
  {
  }

  /** A registration is refused for the first of four reasons that holds, and else adds an active
      service under the next id, paid at the trimmed target in lower case; no other service changes. */
  lemma {:induction false} RegisterMeans(
    l: Ledger, name: string, priceWei: nat, paymentTarget: string, owner: Account, attestor: Account, now: int)
    ensures var (l', outcome) := Register(l, name, priceWei, paymentTarget, owner, attestor, now);
            var target := Text.Lower(Text.Trim(paymentTarget));
            var full, blank, cheap := |l.services| >= 1000, Text.Trim(name) == "", priceWei < 1_000_000_000_000;
            && (outcome == Err(ServiceLimitReached) <==> full)
            && (outcome == Err(EmptyName) <==> !full && blank)
            && (outcome == Err(InvalidPrice) <==> !full && !blank && cheap)
            && (outcome == Err(InvalidPaymentTarget) <==> !full && !blank && !cheap && !Text.IsAddress(target))
            && (outcome.Err? ==> l' == l)
            && (outcome.Ok? ==>
                  var id := l.nextServiceId;
                  && Text.IsAddress(target) && outcome == Ok(id)
                  && l'.services == l.services[id := Service(id, priceWei, target, owner, attestor, true)]
                  && l'.nextServiceId == id + 1 && l'.txCounter == l.txCounter + 1
                  && l'.balances == l.balances && l'.transfers == l.transfers && l'.attested == l.attested
                  && |l'.activity| == |l.activity| + 1 && l.activity <= l'.activity
                  && l'.activity[|l.activity|]
                     == ServiceRegistered(Sha256(RegisterPayload(id, name), l.txCounter + 1), id, now))
  {
    hide Text.Lower, Text.Trim, Text.IsAddress;
  }

  /** A record is refused for the first of four reasons that holds, and else added with its flag. */
  lemma {:induction false} RecordMeans(
    l: Ledger, serviceId: nat, paymentTxHash: TxHash, success: bool, signer: Account, now: int)
    ensures var (l', outcome) := Record(l, serviceId, paymentTxHash, success, signer, now);
            var known := serviceId in l.services;
            var own := known && signer in {l.services[serviceId].attestor, l.services[serviceId].owner};
            && (outcome == Err(ServiceNotFound) <==> !known)
            && (outcome == Err(NotAuthorized) <==> known && !own)
            && (outcome == Err(ServiceInactive) <==> own && !l.services[serviceId].active)
            && (outcome == Err(DuplicateAttestation) <==>
                  own && l.services[serviceId].active && Attested(l.attested, serviceId, paymentTxHash))
            && (outcome.Err? ==> l' == l)
            && (outcome.Ok? ==>
                  var txHash := Sha256(AttestationPayload(serviceId, paymentTxHash, success), l.txCounter + 1);
                  && outcome == Ok(txHash)
                  && l' == l.(txCounter := l.txCounter + 1,
                              attested := l.attested + [Attestation(serviceId, paymentTxHash, success, now, txHash)],
                              activity := l.activity + [AttestationMade(txHash, serviceId, success, now)]))
  {
  }

  /** The flag takes the value asked for, at the owner's word alone, and no other service changes. */
  lemma {:induction false} SetActiveMeans(l: Ledger, serviceId: nat, active: bool, signer: Account)
    ensures var (l', outcome) := SetActive(l, serviceId, active, signer);
            && (outcome == Err(ServiceNotFound) <==> serviceId !in l.services)
            && (outcome == Err(NotAuthorized) <==> serviceId in l.services && signer != l.services[serviceId].owner)
            && (outcome.Err? ==> l' == l)
            && (outcome.Ok? ==>
                  && outcome == Ok(Sha256(ActivePayload(serviceId, active), l.txCounter + 1))
                  && l'.txCounter == l.txCounter + 1 && l'.(services := l.services, txCounter := l.txCounter) == l
                  && l'.services.Keys == l.services.Keys && l'.services[serviceId].active == active
                  && forall id :: id in l.services ==>
                       if id == serviceId then l'.services[id].(active := true) == l.services[id].(active := true)
                       else l'.services[id] == l.services[id])
  {
  }

  /** Who gains and who loses by a payment, and what is kept of it; a refused one changes nothing. */
  lemma {:induction false} PayMeans(
    l: Ledger, from: Account, to: Account, amountWei: nat, nonce: nat, serviceId: nat, now: int)
    ensures var (l', outcome) := Pay(l, from, to, amountWei, nonce, serviceId, now);
            && (outcome.Ok? <==> BalanceOf(l.balances, from) >= amountWei)
            && (outcome.Err? ==> l' == l)
            && (outcome.Ok? ==> forall account ::
                  BalanceOf(l'.balances, account) ==
                    if from == to then BalanceOf(l.balances, account)
                    else if account == from then BalanceOf(l.balances, account) - amountWei
                    else if account == to then BalanceOf(l.balances, account) + amountWei
                    else BalanceOf(l.balances, account))
            && (outcome.Ok? ==>
                  var txHash := Sha256(TransferPayload(from, to, amountWei, nonce, serviceId), l.txCounter + 1);
                  && outcome == Ok(Transfer(txHash, from, to, amountWei, nonce, serviceId, now))
                  && l' == l.(balances := l'.balances, txCounter := l.txCounter + 1,
                              transfers := l.transfers + [outcome.value],
                              activity := l.activity + [PaymentMade(txHash, serviceId, amountWei, now)]))
  {
  }

  /** A transfer can be looked up by its hash exactly while fewer than `TRANSFER_LOG_CAP` newer
      ones exist, and the lookup never returns another transfer. */
  lemma {:induction false} FindsTheNewest(l: Ledger, i: nat)
    requires WellFormed(l) && i < |l.transfers|
    ensures FindTransfer(l.transfers, l.transfers[i].txHash)
            == if |l.transfers| - i <= TRANSFER_LOG_CAP then Some(l.transfers[i]) else None
  {
    hide FindIn, OncePerPayment, IdsFresh;
    var kept := LastN(l.transfers, TRANSFER_LOG_CAP);
    var skipped := |l.transfers| - |kept|;
    forall t | t in kept && t.txHash == l.transfers[i].txHash
      ensures i >= skipped && t == l.transfers[i]
    {
      var k :| 0 <= k < |kept| && kept[k] == t;
      assert l.transfers[skipped + k] == t;
    }
    var found := FindIn(kept, l.transfers[i].txHash);
    if i >= skipped {
      assert kept[i - skipped] == l.transfers[i];
    }
  }

  /** The service and nonce a transfer's hash is taken over. */
  function PaymentNamed(txHash: TxHash): (nat, nat) {
    if txHash.payload.TransferPayload? then (txHash.payload.serviceId, txHash.payload.nonce) else (0, 0)
  }

  ghost predicate HashesName(l: Ledger) {
    forall t :: t in l.transfers ==> PaymentNamed(t.txHash) == (t.serviceId, t.nonce)
  }

  /** On this chain a hash stands for one payment: that of the transfer it belongs to. */
  lemma ApplyKeepsNames(l: Ledger, op: Op, now: int)
    requires HashesName(l)
    ensures HashesName(Apply(l, op, now))
  {
  }

  lemma OfServicePush(attested: seq<Attestation>, record: Attestation, serviceId: nat)
    ensures OfService(attested + [record], serviceId) ==
            OfService(attested, serviceId) + if record.serviceId == serviceId then [record] else []
  {
    assert (attested + [record])[..|attested|] == attested;
  }

  lemma SuccessesPush(mine: seq<Attestation>, record: Attestation)
    ensures Successes(mine + [record]) == Successes(mine) + if record.success then 1 else 0
  {
    assert (mine + [record])[..|mine|] == mine;
  }

  lemma ScorePush(attested: seq<Attestation>, record: Attestation, serviceId: nat)
    ensures ScoreOf(attested + [record], serviceId) ==
            var before := ScoreOf(attested, serviceId);
            if record.serviceId != serviceId then before
            else Score(before.total + 1, before.success + if record.success then 1 else 0)
  {
    hide OfService, Successes;
    OfServicePush(attested, record, serviceId);
    var mine := OfService(attested, serviceId);
    SuccessesPush(mine, record);
    assert mine + [] == mine;
  }

  /** A service without an attestation has an empty list and a zero score. */
  lemma {:induction false} NeverAttested(attested: seq<Attestation>, serviceId: nat)
    requires forall i :: 0 <= i < |attested| ==> attested[i].serviceId != serviceId
    ensures OfService(attested, serviceId) == []
    ensures ScoreOf(attested, serviceId) == Score(0, 0)
    ensures forall txHash :: !Attested(attested, serviceId, txHash)
  {
    if attested != [] {
      NeverAttested(attested[..|attested| - 1], serviceId);
    }
  }

  /** What one more record changes: its own service's list and score, and nothing else. */
  lemma {:induction false} AttestedPush(attested: seq<Attestation>, record: Attestation)
    ensures forall id :: OfService(attested + [record], id) ==
                         OfService(attested, id) + if record.serviceId == id then [record] else []
    ensures forall id :: ScoreOf(attested + [record], id) ==
                         var before := ScoreOf(attested, id);
                         if record.serviceId != id then before
                         else Score(before.total + 1, before.success + if record.success then 1 else 0)
    ensures forall id: nat, txHash :: Attested(attested + [record], id, txHash) <==>
                                      Attested(attested, id, txHash)
                                          || (id, txHash) == (record.serviceId, record.paymentTxHash)
  {
    var longer := attested + [record];
    forall id: nat
      ensures OfService(longer, id) == OfService(attested, id) + if record.serviceId == id then [record] else []
      ensures ScoreOf(longer, id) ==
              var before := ScoreOf(attested, id);
              if record.serviceId != id then before
              else Score(before.total + 1, before.success + if record.success then 1 else 0)
    {
      OfServicePush(attested, record, id);
      ScorePush(attested, record, id);
    }
    forall id: nat, txHash
      ensures Attested(longer, id, txHash) <==>
              Attested(attested, id, txHash) || (id, txHash) == (record.serviceId, record.paymentTxHash)
    {
      if Attested(attested, id, txHash) {
        var i :| 0 <= i < |attested| && attested[i].serviceId == id && attested[i].paymentTxHash == txHash;
        assert longer[i] == attested[i];
      }
      assert longer[|attested|] == record;
    }
  }
}
