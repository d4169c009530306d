/** The texts that are signed (packages/shared/src/self-map.ts and payment-proof.ts) or hashed
    (packages/devnet/src/state.ts), and why no two different inputs share one. */
module SignedMessages {
  import opened Basics
  import opened Decimal
  import opened Text

  const SELF_MAP_DOMAIN := "AgentGate/self-map/v1"
  const PAYMENT_PROOF_DOMAIN := "AgentGate/payment-proof/v1"

  datatype SelfMap = SelfMap(network: string, serviceId: nat, upstreamUrl: string, timestamp: int)

  datatype PaymentProof = PaymentProof(network: string, serviceId: nat, nonce: string, transaction: string)

  /** An integer as it prints, with its sign. */
  function Numeral(n: int): string {
    if n < 0 then "-" + Print(-n) else Print(n)
  }

  function Joined(lines: seq<string>): string
    requires lines != []
  {
    if |lines| == 1 then lines[0] else lines[0] + "\n" + Joined(lines[1..])
  }

  function SelfMapMessage(m: SelfMap): string {
    Joined([SELF_MAP_DOMAIN, m.network, Numeral(m.serviceId), m.upstreamUrl, Numeral(m.timestamp)])
  }

  function PaymentProofMessage(p: PaymentProof): string {
    Joined([PAYMENT_PROOF_DOMAIN, p.network, Numeral(p.serviceId), p.nonce, Lower(p.transaction)])
  }

  // ---- readers ----------------------------------------------------------------------------

  predicate OneLine(s: string) {
    '\n' !in s
  }

  /** Cuts at the first line break. */
  function CutFirst(s: string): Option<(string, string)> {
    if s == "" then None
    else if s[0] == '\n' then Some(("", s[1..]))
    else match CutFirst(s[1..])
         case None => None
         case Some(parts) => Some(([s[0]] + parts.0, parts.1))
  }

  /** Cuts at the last line break. */
  function CutLast(s: string): Option<(string, string)> {
    if s == "" then None else
    var last := |s| - 1;
    if s[last] == '\n' then Some((s[..last], ""))
    else match CutLast(s[..last])
         case None => None
         case Some(parts) => Some((parts.0, parts.1 + [s[last]]))
  }

  function ReadNumeral(s: string): Option<int> {
    if IsCanonical(s) then Some(Value(s) as int)
    else if s != "" && s[0] == '-' && s != "-0" && IsCanonical(s[1..]) then Some(0 - Value(s[1..]) as int)
    else None
  }

  /** Reads a self-map message from both ends: the URL may hold line breaks of its own. */
  function ReadSelfMap(text: string): Option<SelfMap> {
    match CutFirst(text)
    case None => None
    case Some((domain, rest)) =>
      if domain != SELF_MAP_DOMAIN then None else
      match CutFirst(rest)
      case None => None
      case Some((network, rest)) =>
        match CutFirst(rest)
        case None => None
        case Some((id, rest)) =>
          match CutLast(rest)
          case None => None
          case Some((url, timestamp)) =>
            match (ReadNumeral(id), ReadNumeral(timestamp))
            case (Some(serviceId), Some(at)) =>
              if serviceId < 0 then None else Some(SelfMap(network, serviceId, url, at))
            case _ => None
  }

  lemma {:induction false} CutsFirst(s: string, a: string, b: string)
    ensures CutFirst(s) == Some((a, b)) <==> s == a + "\n" + b && OneLine(a)
  {
    if s != "" && s[0] != '\n' {
      if a == "" {
        assert a + "\n" + b == "\n" + b;
      } else {
        CutsFirst(s[1..], a[1..], b);
        assert s == [s[0]] + s[1..] && a == [a[0]] + a[1..];
        assert (a + "\n" + b)[1..] == a[1..] + "\n" + b;
        assert [a[0]] + (a[1..] + "\n" + b) == a + "\n" + b;
      }
    } else if s != "" {
      assert s == "\n" + s[1..];
      if a == "" {
        assert a + "\n" + b == "\n" + b;
        assert ("\n" + b)[1..] == b;
      } else {
        assert (a + "\n" + b)[0] == a[0];
      }
    }
  }

  lemma {:induction false} CutsLast(s: string, a: string, b: string)
    ensures CutLast(s) == Some((a, b)) <==> s == a + "\n" + b && OneLine(b)
  {
    if s != "" {
      var last := |s| - 1;
      assert s == s[..last] + [s[last]];
      if b == "" {
        assert a + "\n" + b == a + "\n";
        assert (a + "\n")[..|a|] == a;
      } else {
        var front := b[..|b| - 1];
        assert b == front + [b[|b| - 1]];
        assert a + "\n" + b == (a + "\n" + front) + [b[|b| - 1]];
        if s[last] != '\n' {
          CutsLast(s[..last], a, front);
        }
      }
    }
  }

  lemma NumeralOneLine(n: int)
    ensures OneLine(Numeral(n))
  {
  }

  lemma ReadsNumeral(s: string, n: int)
    ensures ReadNumeral(s) == Some(n) <==> s == Numeral(n)
  {
    hide Print, Value;
    var m := if n < 0 then -n else n;
    PrintIsCanonical(m);
    ValuePrint(m);
    if IsCanonical(s) {
      PrintValue(s);
    } else if s != "" && s[0] == '-' && IsCanonical(s[1..]) {
      PrintValue(s[1..]);
      ZeroValue(s[1..]);
      assert s == "-" + s[1..];
    }
    assert n < 0 ==> Numeral(n)[1..] == Print(m);
  }

  lemma ZeroValue(s: string)
    requires IsCanonical(s)
    ensures Value(s) == 0 <==> s == "0"
  {
    if s[0] != '0' {
      FirstDigitCounts(s);
    } else {
      assert s[..0] == "";
    }
  }

  lemma JoinFive(a: string, b: string, c: string, d: string, e: string)
    ensures Joined([a, b, c, d, e]) == a + "\n" + (b + "\n" + (c + "\n" + (d + "\n" + e)))
  {
    assert [d, e][1..] == [e];
    assert Joined([d, e]) == d + "\n" + e;
    assert [c, d, e][1..] == [d, e];
    assert Joined([c, d, e]) == c + "\n" + (d + "\n" + e);
    assert [b, c, d, e][1..] == [c, d, e];
    assert Joined([b, c, d, e]) == b + "\n" + (c + "\n" + (d + "\n" + e));
    assert [a, b, c, d, e][1..] == [b, c, d, e];
  }

  // ---- the laws -----------------------------------------------------------------------------

  /** Unique readability: the reader finds exactly the fields the message was built from, for
      every text and every one-line network name. */
  lemma {:induction false} SelfMapReadable(text: string, m: SelfMap)
    ensures ReadSelfMap(text) == Some(m) <==> text == SelfMapMessage(m) && OneLine(m.network)
  {
    hide CutFirst, CutLast, ReadNumeral, Numeral, Joined;
    var id, at := Numeral(m.serviceId), Numeral(m.timestamp);
    NumeralOneLine(m.serviceId);
    NumeralOneLine(m.timestamp);
    JoinFive(SELF_MAP_DOMAIN, m.network, id, m.upstreamUrl, at);
    var tail := m.upstreamUrl + "\n" + at;
    var rest := id + "\n" + tail;
    CutsFirst(text, SELF_MAP_DOMAIN, m.network + "\n" + rest);
    CutsFirst(m.network + "\n" + rest, m.network, rest);
    CutsFirst(rest, id, tail);
    CutsLast(tail, m.upstreamUrl, at);
    ReadsNumeral(id, m.serviceId);
    ReadsNumeral(at, m.timestamp);
    if ReadSelfMap(text) == Some(m) {
      SelfMapRebuilt(text, m);
    }
  }

  /** What the reader accepts, printed again, is the text it read. */
  lemma SelfMapRebuilt(text: string, m: SelfMap)
    requires ReadSelfMap(text) == Some(m)
    ensures text == SelfMapMessage(m) && OneLine(m.network)
  {
    hide CutFirst, CutLast, ReadNumeral, Numeral, Joined;
    var first := CutFirst(text).value;
    CutsFirst(text, first.0, first.1);
    var second := CutFirst(first.1).value;
    CutsFirst(first.1, second.0, second.1);
    var third := CutFirst(second.1).value;
    CutsFirst(second.1, third.0, third.1);
    var fourth := CutLast(third.1).value;
    CutsLast(third.1, fourth.0, fourth.1);
    ReadsNumeral(third.0, m.serviceId);
    ReadsNumeral(fourth.1, m.timestamp);
    JoinFive(SELF_MAP_DOMAIN, m.network, Numeral(m.serviceId), m.upstreamUrl, Numeral(m.timestamp));
  }

  /** Equal self-map messages have equal fields. */
  lemma {:induction false} SelfMapInjective(m: SelfMap, m': SelfMap)
    requires OneLine(m.network) && OneLine(m'.network)
    requires SelfMapMessage(m) == SelfMapMessage(m')
    ensures m == m'
  {
    SelfMapReadable(SelfMapMessage(m), m);
    SelfMapReadable(SelfMapMessage(m), m');
  }

  /** The network name must be one line: otherwise two services can share a message. */
  lemma NetworkBreaksReading()
    ensures SelfMapMessage(SelfMap("n\n1", 2, "u", 3)) == SelfMapMessage(SelfMap("n", 1, "2\nu", 3))
  {
    assert Print(1) == "1" && Print(2) == "2" && Print(3) == "3";
    JoinFive(SELF_MAP_DOMAIN, "n\n1", "2", "u", "3");
    JoinFive(SELF_MAP_DOMAIN, "n", "1", "2\nu", "3");
  }

  /** Equal payment-proof messages have equal fields, up to the case of the hash, and equal
      fields up to that case have equal messages. */
  lemma {:induction false} PaymentProofInjective(p: PaymentProof, p': PaymentProof)
    requires OneLine(p.network) && OneLine(p'.network) && OneLine(p.nonce) && OneLine(p'.nonce)
    ensures PaymentProofMessage(p) == PaymentProofMessage(p') <==>
            && p.network == p'.network && p.serviceId == p'.serviceId && p.nonce == p'.nonce
            && Lower(p.transaction) == Lower(p'.transaction)
  {
    hide Joined, Numeral, CutFirst, Lower;
    var id, id' := Numeral(p.serviceId), Numeral(p'.serviceId);
    NumeralOneLine(p.serviceId);
    NumeralOneLine(p'.serviceId);
    JoinFive(PAYMENT_PROOF_DOMAIN, p.network, id, p.nonce, Lower(p.transaction));
    JoinFive(PAYMENT_PROOF_DOMAIN, p'.network, id', p'.nonce, Lower(p'.transaction));
    if PaymentProofMessage(p) == PaymentProofMessage(p') {
      var three, three' := p.nonce + "\n" + Lower(p.transaction), p'.nonce + "\n" + Lower(p'.transaction);
      var two, two' := id + "\n" + three, id' + "\n" + three';
      SameHead(PAYMENT_PROOF_DOMAIN, p.network + "\n" + two, PAYMENT_PROOF_DOMAIN, p'.network + "\n" + two');
      SameHead(p.network, two, p'.network, two');
      SameHead(id, three, id', three');
      SameHead(p.nonce, Lower(p.transaction), p'.nonce, Lower(p'.transaction));
      ReadsNumeral(id, p.serviceId);
      ReadsNumeral(id, p'.serviceId);
    }
  }

  lemma SameHead(a: string, b: string, a': string, b': string)
    requires OneLine(a) && OneLine(a') && a + "\n" + b == a' + "\n" + b'
    ensures a == a' && b == b'
  {
    CutsFirst(a + "\n" + b, a, b);
    CutsFirst(a + "\n" + b, a', b');
  }

  /** No text is a message of both kinds, whatever the fields hold. */
  lemma {:induction false} KindsAreSeparate(m: SelfMap, p: PaymentProof)
    ensures SelfMapMessage(m) != PaymentProofMessage(p)
  {
    JoinFive(SELF_MAP_DOMAIN, m.network, Numeral(m.serviceId), m.upstreamUrl, Numeral(m.timestamp));
    JoinFive(PAYMENT_PROOF_DOMAIN, p.network, Numeral(p.serviceId), p.nonce, Lower(p.transaction));
    assert SelfMapMessage(m)[10] == SELF_MAP_DOMAIN[10];
    assert PaymentProofMessage(p)[10] == PAYMENT_PROOF_DOMAIN[10];
  }

  /** What a transaction hash of the mock chain is taken over: the payload's JSON text, then
      the transaction counter. */
  function Preimage(payload: string, counter: nat): string {
    payload + Print(counter)
  }

  lemma DigitsFollow(payload: string, counter: nat)
    ensures forall k :: |payload| <= k < |Preimage(payload, counter)| ==> IsDigit(Preimage(payload, counter)[k])
  {
  }

  /** A JSON object's text ends in a brace and the counter is digits, so different payloads or
      counters have different preimages. */
  lemma {:induction false} PreimagesDistinct(payload: string, counter: nat, payload': string, counter': nat)
    requires payload != "" && payload[|payload| - 1] == '}'
    requires payload' != "" && payload'[|payload'| - 1] == '}'
    requires Preimage(payload, counter) == Preimage(payload', counter')
    ensures payload == payload' && counter == counter'
  {
    var text := Preimage(payload, counter);
    DigitsFollow(payload, counter);
    DigitsFollow(payload', counter');
    assert text[|payload| - 1] == text[|payload'| - 1] == '}';
    assert text[..|payload|] == payload && text[|payload|..] == Print(counter);
    assert text[..|payload'|] == payload' && text[|payload'|..] == Print(counter');
    ValuePrint(counter);
    ValuePrint(counter');
  }

  // ---- the texts themselves -----------------------------------------------------------------

  /** What a service owner is asked to sign, line by line. */
  lemma {:induction false} SelfMapLines(m: SelfMap)
    requires m.timestamp >= 0
    ensures SelfMapMessage(m) ==
              "AgentGate/self-map/v1" + "\n" + (m.network + "\n" + (Print(m.serviceId) + "\n"
              + (m.upstreamUrl + "\n" + Print(m.timestamp))))
  {
    JoinFive(SELF_MAP_DOMAIN, m.network, Numeral(m.serviceId), m.upstreamUrl, Numeral(m.timestamp));
  }

  /** What a buyer signs, line by line: the hash in lower case. */
  lemma {:induction false} PaymentProofLines(p: PaymentProof)
    ensures PaymentProofMessage(p) ==
              "AgentGate/payment-proof/v1" + "\n" + (p.network + "\n" + (Print(p.serviceId) + "\n"
              + (p.nonce + "\n" + Lower(p.transaction))))
  {
    JoinFive(PAYMENT_PROOF_DOMAIN, p.network, Numeral(p.serviceId), p.nonce, Lower(p.transaction));
  }
}
