/** The class of packages/devnet/src/state.ts: its logs are capped and its lookups indexed,
    and every method is proved to act on the unbounded ledger as the ledger's function does. */
module Devnet {
  import opened Basics
  import opened ChainLedger
  import Text

  /** `table` is the map of exactly the newest of `history`, and `order` their hashes, oldest first. */
  ghost predicate KeepsTransfers(history: seq<Transfer>, order: seq<TxHash>, table: map<TxHash, Transfer>) {
    var kept := LastN(history, TRANSFER_LOG_CAP);
    && |order| == |kept|
    && (forall i :: 0 <= i < |kept| ==> order[i] == kept[i].txHash)
    && (forall txHash :: txHash in table <==> txHash in order)
    && (forall i :: 0 <= i < |kept| ==> kept[i].txHash in table && table[kept[i].txHash] == kept[i])
  }

  /** Appending a transfer with a new hash, then evicting the oldest once over the cap. */
  lemma RingPush(history: seq<Transfer>, order: seq<TxHash>, table: map<TxHash, Transfer>, record: Transfer)
    requires KeepsTransfers(history, order, table)
    requires forall i, j :: 0 <= i < j < |history| ==> history[i].txHash != history[j].txHash
    requires forall i :: 0 <= i < |history| ==> history[i].txHash != record.txHash
    ensures var pushed := order + [record.txHash];
            var grown := table[record.txHash := record];
            if |pushed| <= TRANSFER_LOG_CAP then KeepsTransfers(history + [record], pushed, grown)
            else |pushed| == TRANSFER_LOG_CAP + 1 &&
                 KeepsTransfers(history + [record], pushed[1..], grown - {pushed[0]})
  {
    var kept := LastN(history, TRANSFER_LOG_CAP);
    var pushed, grown := order + [record.txHash], table[record.txHash := record];
    var next := LastN(history + [record], TRANSFER_LOG_CAP);
    LastNPush(history, record, TRANSFER_LOG_CAP);
    assert forall i, j :: 0 <= i < j < |kept| ==> kept[i].txHash != kept[j].txHash;
    if |pushed| <= TRANSFER_LOG_CAP {
      assert next == kept + [record];
    } else {
      assert next == (kept + [record])[1..];
      var order', table' := pushed[1..], grown - {pushed[0]};
      assert forall i :: 0 <= i < |next| ==> next[i] == (kept + [record])[i + 1];
      assert forall i :: 0 <= i < |next| ==> order'[i] == next[i].txHash;
      TailIsRest(pushed);
    }
  }

  lemma TailIsRest<T>(s: seq<T>)
    requires s != [] && forall i, j :: 0 <= i < j < |s| ==> s[i] != s[j]
    ensures forall x :: x in s[1..] <==> x in s && x != s[0]
  {
    assert s == [s[0]] + s[1..];
  }

  /** Scores count the whole of `history`; only the listed attestations are capped. */
  ghost predicate KeepsScores(
    history: seq<Attestation>, ids: set<nat>, scores: map<nat, Score>,
    attestations: map<nat, seq<Attestation>>, seenPayments: set<(nat, TxHash)>)
  {
    && scores.Keys == ids
    && attestations.Keys == ids
    && (forall id :: id in ids ==> scores[id] == ScoreOf(history, id))
    && (forall id :: id in ids ==> attestations[id] == Newest(OfService(history, id), ATTESTATIONS_PER_SERVICE_CAP))
    && (forall id: nat, txHash: TxHash :: (id, txHash) in seenPayments <==> Attested(history, id, txHash))
  }

  lemma {:induction false} ScoresPush(
    history: seq<Attestation>, ids: set<nat>, scores: map<nat, Score>,
    attestations: map<nat, seq<Attestation>>, seenPayments: set<(nat, TxHash)>, record: Attestation)
    requires KeepsScores(history, ids, scores, attestations, seenPayments)
    requires record.serviceId in ids
    ensures var id := record.serviceId;
            KeepsScores(
              history + [record], ids,
              scores[id := Score(scores[id].total + 1, scores[id].success + if record.success then 1 else 0)],
              attestations[id := Truncated([record] + attestations[id], ATTESTATIONS_PER_SERVICE_CAP)],
              seenPayments + {(id, record.paymentTxHash)})
  {
    hide ScoreOf, OfService, Attested, Newest, Truncated;
    AttestedPush(history, record);
    NewestPush(OfService(history, record.serviceId), record, ATTESTATIONS_PER_SERVICE_CAP);
    forall id | id in ids && id != record.serviceId
      ensures OfService(history + [record], id) == OfService(history, id)
    {
      assert OfService(history, id) + [] == OfService(history, id);
    }
  }

  lemma ScoresKnown(
    history: seq<Attestation>, ids: set<nat>, scores: map<nat, Score>,
    attestations: map<nat, seq<Attestation>>, seenPayments: set<(nat, TxHash)>, id: nat, txHash: TxHash)
    requires KeepsScores(history, ids, scores, attestations, seenPayments)
    ensures scores.Keys == attestations.Keys == ids
    ensures (id, txHash) in seenPayments <==> Attested(history, id, txHash)
  {
  }

  lemma ScoresRegister(
    history: seq<Attestation>, ids: set<nat>, scores: map<nat, Score>,
    attestations: map<nat, seq<Attestation>>, seenPayments: set<(nat, TxHash)>, id: nat)
    requires KeepsScores(history, ids, scores, attestations, seenPayments)
    requires OfService(history, id) == [] && ScoreOf(history, id) == Score(0, 0)
    ensures KeepsScores(history, ids + {id}, scores[id := Score(0, 0)], attestations[id := []], seenPayments)
  {
    hide ScoreOf, OfService, Attested;
  }

  lemma NextIdIsNew(l: Ledger)
    requires WellFormed(l)
    ensures OfService(l.attested, l.nextServiceId) == [] && ScoreOf(l.attested, l.nextServiceId) == Score(0, 0)
  {
    hide HashesFresh, ScoreOf, OfService;
    NeverAttested(l.attested, l.nextServiceId);
  }

  lemma NextHashIsNew(l: Ledger, payload: Payload)
    requires WellFormed(l)
    ensures forall i, j :: 0 <= i < j < |l.transfers| ==> l.transfers[i].txHash != l.transfers[j].txHash
    ensures forall i :: 0 <= i < |l.transfers| ==> l.transfers[i].txHash != Sha256(payload, l.txCounter + 1)
  {
  }

  /** `ledger` is everything the chain ever did; the fields keep a bounded part of it. */
  class DevnetState {
    var balances: map<Account, int>
    var transfers: map<TxHash, Transfer>
    /** The hashes in `transfers`, in order of arrival. */
    var transferOrder: seq<TxHash>
    var services: map<nat, Service>
    var scores: map<nat, Score>
    /** Newest first, capped per service. */
    var attestations: map<nat, seq<Attestation>>
    var seenPayments: set<(nat, TxHash)>
    /** Newest first, capped. */
    var activity: seq<Activity>
    var txCounter: nat
    var nextServiceId: nat
    ghost var ledger: Ledger

    ghost predicate Valid()
      reads this
    {
      && WellFormed(ledger)
      && balances == ledger.balances
      && services == ledger.services
      && txCounter == ledger.txCounter
      && nextServiceId == ledger.nextServiceId
      && activity == Newest(ledger.activity, ACTIVITY_LOG_CAP)
      && KeepsTransfers(ledger.transfers, transferOrder, transfers)
      && KeepsScores(ledger.attested, services.Keys, scores, attestations, seenPayments)
    }

    constructor ()
      ensures Valid() && ledger == GENESIS
    {
      balances, transfers, transferOrder := map[], map[], [];
      services, scores, attestations, seenPayments := map[], map[], map[], {};
      activity, txCounter, nextServiceId := [], 0, 1;
      ledger := GENESIS;
    }

    method NextTxHash(payload: Payload) returns (txHash: TxHash)
      modifies this`txCounter
      ensures txCounter == old(txCounter) + 1
      ensures txHash == Sha256(payload, txCounter)
    {
      txCounter := txCounter + 1;
      txHash := Sha256(payload, txCounter);
    }

    method PushActivity(event: Activity, ghost history: seq<Activity>)
      requires activity == Newest(history, ACTIVITY_LOG_CAP)
      modifies this`activity
      ensures activity == Newest(history + [event], ACTIVITY_LOG_CAP)
    {
      NewestPush(history, event, ACTIVITY_LOG_CAP);
      activity := [event] + activity;
      if |activity| > ACTIVITY_LOG_CAP {
        activity := activity[..ACTIVITY_LOG_CAP];
      }
    }

    /** Append to the ring buffer, evicting from the front while it is over its cap. */
    method KeepTransfer(record: Transfer, ghost history: seq<Transfer>)
      requires KeepsTransfers(history, transferOrder, transfers)
      requires forall i, j :: 0 <= i < j < |history| ==> history[i].txHash != history[j].txHash
      requires forall i :: 0 <= i < |history| ==> history[i].txHash != record.txHash
      modifies this`transfers, this`transferOrder
      ensures KeepsTransfers(history + [record], transferOrder, transfers)
    {
      RingPush(history, transferOrder, transfers, record);
      transfers := transfers[record.txHash := record];
      transferOrder := transferOrder + [record.txHash];
      ghost var pushed, grown := transferOrder, transfers;
      while |transferOrder| > TRANSFER_LOG_CAP
        invariant (transferOrder, transfers) == (pushed, grown) ||
                  (|transferOrder| <= TRANSFER_LOG_CAP && KeepsTransfers(history + [record], transferOrder, transfers))
      {
        var evicted := transferOrder[0];
        transferOrder := transferOrder[1..];
        transfers := transfers - {evicted};
      }
    }

    method Faucet(account: Account, amountWei: nat) returns (balanceWei: int)
      requires Valid()
      modifies this
      ensures Valid()
      ensures ledger == ChainLedger.Faucet(old(ledger), account, amountWei)
      ensures balanceWei == BalanceOf(ledger.balances, account)
    {
      balanceWei := BalanceOf(balances, account) + amountWei;
      balances := balances[account := balanceWei];
      ledger := ChainLedger.Faucet(ledger, account, amountWei);
    }

    /** The debit, then the credit of the balance as the debit left it. */
    method MoveWei(from: Account, to: Account, amountWei: nat)
      modifies this`balances
      ensures balances == Moved(old(balances), from, to, amountWei)
    {
      balances := balances[from := BalanceOf(balances, from) - amountWei];
      balances := balances[to := BalanceOf(balances, to) + amountWei];
    }

    method Transfer(from: Account, to: Account, amountWei: nat, nonce: nat, serviceId: nat, now: int)
      returns (outcome: Result<Transfer, Error>)
      requires Valid()
      modifies this
      ensures Valid()
      ensures (ledger, outcome) == Pay(old(ledger), from, to, amountWei, nonce, serviceId, now)
    {
      hide KeepsScores, KeepsTransfers, WellFormed, Newest, Pay, Moved;
      var balance := BalanceOf(balances, from);
      if balance < amountWei {
        PayRefuses(ledger, from, to, amountWei, nonce, serviceId, now);
        return Err(InsufficientBalance);
      }
      ghost var after := Pay(ledger, from, to, amountWei, nonce, serviceId, now).0;
      PayAdds(ledger, from, to, amountWei, nonce, serviceId, now);
      PayKeepsWellFormed(ledger, from, to, amountWei, nonce, serviceId, now);
      NextHashIsNew(ledger, TransferPayload(from, to, amountWei, nonce, serviceId));
      var txHash := NextTxHash(TransferPayload(from, to, amountWei, nonce, serviceId));
      MoveWei(from, to, amountWei);
      var record := ChainLedger.Transfer.Transfer(txHash, from, to, amountWei, nonce, serviceId, now);
      KeepTransfer(record, ledger.transfers);
      PushActivity(PaymentMade(txHash, serviceId, amountWei, now), ledger.activity);
      ledger := after;
      outcome := Ok(record);
    }

    method GetTransfer(txHash: TxHash) returns (outcome: Result<Transfer, Error>)
      requires Valid()
      ensures outcome == match FindTransfer(ledger.transfers, txHash)
                         case Some(record) => Ok(record)
                         case None => Err(TransferNotFound)
    {
      ghost var kept := LastN(ledger.transfers, TRANSFER_LOG_CAP);
      if txHash in transfers {
        outcome := Ok(transfers[txHash]);
        ghost var found := FindIn(kept, txHash);
        ghost var i :| 0 <= i < |transferOrder| && transferOrder[i] == txHash;
        assert kept[i].txHash == txHash;
      } else {
        outcome := Err(TransferNotFound);
        assert forall t :: t in kept ==> t.txHash in transfers;
      }
    }

    method AddService(service: Service, ghost l: Ledger)
      requires WellFormed(l) && services == l.services && service.id == l.nextServiceId
      requires KeepsScores(l.attested, services.Keys, scores, attestations, seenPayments)
      modifies this`services, this`scores, this`attestations
      ensures services == l.services[service.id := service]
      ensures KeepsScores(l.attested, services.Keys, scores, attestations, seenPayments)
    {
      hide KeepsScores, WellFormed, OfService, ScoreOf;
      NextIdIsNew(l);
      ScoresRegister(l.attested, services.Keys, scores, attestations, seenPayments, service.id);
      assert services[service.id := service].Keys == services.Keys + {service.id};
      services := services[service.id := service];
      scores := scores[service.id := Score(0, 0)];
      attestations := attestations[service.id := []];
    }

    method RegisterService(
      name: string, priceWei: nat, paymentTarget: string, owner: Account, attestor: Account, now: int)
      returns (outcome: Result<nat, Error>)
      requires Valid()
      modifies this
      ensures Valid()
      ensures (ledger, outcome) == Register(old(ledger), name, priceWei, paymentTarget, owner, attestor, now)
    {
      hide KeepsScores, KeepsTransfers, WellFormed, Newest, Register, Text.Trim, Text.Lower, Text.IsAddress;
      RegisterCases(ledger, name, priceWei, paymentTarget, owner, attestor, now);
      if |services| >= MAX_SERVICES {
        return Err(ServiceLimitReached);
      }
      if Text.Trim(name) == "" {
        return Err(EmptyName);
      }
      if priceWei < MIN_PRICE_WEI {
        return Err(InvalidPrice);
      }
      var target := Text.Lower(Text.Trim(paymentTarget));
      if !Text.IsAddress(target) {
        return Err(InvalidPaymentTarget);
      }
      ghost var after := Register(ledger, name, priceWei, paymentTarget, owner, attestor, now).0;
      RegisterAdds(ledger, name, priceWei, paymentTarget, owner, attestor, now);
      RegisterKeepsWellFormed(ledger, name, priceWei, paymentTarget, owner, attestor, now);
      var id := nextServiceId;
      nextServiceId := nextServiceId + 1;
      var txHash := NextTxHash(RegisterPayload(id, name));
      AddService(Service(id, priceWei, target, owner, attestor, true), ledger);
      PushActivity(ServiceRegistered(txHash, id, now), ledger.activity);
      ledger := after;
      outcome := Ok(id);
    }

    /** Count an attestation, list it and remember its payment. */
    method AddScore(record: Attestation, ghost history: seq<Attestation>)
      requires KeepsScores(history, services.Keys, scores, attestations, seenPayments)
      requires record.serviceId in services
      modifies this`scores, this`attestations, this`seenPayments
      ensures KeepsScores(history + [record], services.Keys, scores, attestations, seenPayments)
    {
      hide KeepsScores, Attested, OfService, ScoreOf;
      var id := record.serviceId;
      ScoresKnown(history, services.Keys, scores, attestations, seenPayments, id, record.paymentTxHash);
      ScoresPush(history, services.Keys, scores, attestations, seenPayments, record);
      var score := scores[id];
      scores := scores[id := Score(score.total + 1, score.success + if record.success then 1 else 0)];
      var list := [record] + attestations[id];
      if |list| > ATTESTATIONS_PER_SERVICE_CAP {
        list := list[..ATTESTATIONS_PER_SERVICE_CAP];
      }
      attestations := attestations[id := list];
      seenPayments := seenPayments + {(id, record.paymentTxHash)};
    }

    method RecordAttestation(serviceId: nat, paymentTxHash: TxHash, success: bool, signer: Account, now: int)
      returns (outcome: Result<TxHash, Error>)
      requires Valid()
      modifies this
      ensures Valid()
      ensures (ledger, outcome) == Record(old(ledger), serviceId, paymentTxHash, success, signer, now)
    {
      hide KeepsScores, KeepsTransfers, WellFormed, Newest, Attested, OfService, ScoreOf;
      ScoresKnown(ledger.attested, services.Keys, scores, attestations, seenPayments, serviceId, paymentTxHash);
      if serviceId !in services {
        return Err(ServiceNotFound);
      }
      var service := services[serviceId];
      if signer != service.attestor && signer != service.owner {
        return Err(NotAuthorized);
      }
      if !service.active {
        return Err(ServiceInactive);
      }
      if (serviceId, paymentTxHash) in seenPayments {
        return Err(DuplicateAttestation);
      }
      ghost var after := Record(ledger, serviceId, paymentTxHash, success, signer, now).0;
      ApplyKeepsWellFormed(ledger, RecordOp(serviceId, paymentTxHash, success, signer), now);
      var txHash := NextTxHash(AttestationPayload(serviceId, paymentTxHash, success));
      AddScore(Attestation(serviceId, paymentTxHash, success, now, txHash), ledger.attested);
      PushActivity(AttestationMade(txHash, serviceId, success, now), ledger.activity);
      ledger := after;
      outcome := Ok(txHash);
    }

    method SetActive(serviceId: nat, active: bool, signer: Account) returns (outcome: Result<TxHash, Error>)
      requires Valid()
      modifies this
      ensures Valid()
      ensures (ledger, outcome) == ChainLedger.SetActive(old(ledger), serviceId, active, signer)
    {
      hide KeepsScores, KeepsTransfers, WellFormed;
      if serviceId !in services {
        return Err(ServiceNotFound);
      }
      if signer != services[serviceId].owner {
        return Err(NotAuthorized);
      }
      ghost var after := ChainLedger.SetActive(ledger, serviceId, active, signer).0;
      ApplyKeepsWellFormed(ledger, SetActiveOp(serviceId, active, signer), 0);
      assert services[serviceId := services[serviceId].(active := active)].Keys == services.Keys;
      services := services[serviceId := services[serviceId].(active := active)];
      var txHash := NextTxHash(ActivePayload(serviceId, active));
      ledger := after;
      outcome := Ok(txHash);
    }

    method GetScore(serviceId: nat) returns (score: Score)
      requires Valid()
      ensures score == ScoreOf(ledger.attested, serviceId)
    {
      if serviceId in scores {
        score := scores[serviceId];
      } else {
        score := Score(0, 0);
        NeverAttested(ledger.attested, serviceId);
      }
    }

    method ListAttestations(serviceId: nat, limit: Option<nat>) returns (list: seq<Attestation>)
      requires Valid()
      ensures list == var kept := Newest(OfService(ledger.attested, serviceId), ATTESTATIONS_PER_SERVICE_CAP);
                      if limit.Some? then Truncated(kept, limit.value) else kept
    {
      if serviceId in attestations {
        list := attestations[serviceId];
      } else {
        list := [];
        NeverAttested(ledger.attested, serviceId);
      }
      if limit.Some? && limit.value < |list| {
        list := list[..limit.value];
      }
    }

    method ListActivity(limit: nat) returns (list: seq<Activity>)
      requires Valid()
      ensures list == Truncated(Newest(ledger.activity, ACTIVITY_LOG_CAP), limit)
    {
      list := if |activity| > limit then activity[..limit] else activity;
    }
  }
}
