/** Finding the block a contract was created in by asking a node for its code
    (scripts/set-deployment.ts): gallop back from the head, then bisect. */
module CreationSearch {
  import opened Basics

  /** What the node says about one block; a pruned node may have dropped its state. */
  datatype CodeAt = Present | Absent | Pruned

  datatype SearchError = NoCodeAtHead | PrunedAt(block: nat)

  /** The node's answers, where it gives one, are those of a contract created in `creation`
      and never removed. */
  ghost predicate TrueOf(codeAt: nat -> CodeAt, creation: nat) {
    forall block: nat :: codeAt(block) in {Pruned, if block >= creation then Present else Absent}
  }

  ghost predicate FirstWithCode(codeAt: nat -> CodeAt, block: nat) {
    codeAt(block) == Present && (block > 0 ==> codeAt(block - 1) == Absent)
  }

  /** Like that, and with the state of every block still there. */
  ghost predicate Keeps(codeAt: nat -> CodeAt, creation: nat) {
    forall block: nat :: codeAt(block) == if block >= creation then Present else Absent
  }

  function Power(base: nat, exponent: nat): (p: nat)
    ensures base > 0 ==> p > 0
  {
    if exponent == 0 then 1 else base * Power(base, exponent - 1)
  }

  lemma {:induction false} PowerOfFour(k: nat)
    ensures 64 * Power(4, k) == Power(2, 2 * k + 6)
  {
    if k == 0 {
      assert Power(2, 6) == 2 * (2 * (2 * (2 * (2 * (2 * Power(2, 0))))));
    } else {
      PowerOfFour(k - 1);
      assert Power(2, 2 * k + 6) == 2 * Power(2, 2 * k + 5);
      assert Power(2, 2 * k + 5) == 2 * Power(2, 2 * k + 4);
    }
  }

  /** The least block with code, or an error where the node's answers do not reach; the
      number of probes is logarithmic in the distance. */
  method CreationBlockBySearch(codeAt: nat -> CodeAt, head: nat)
    returns (result: Result<nat, SearchError>, ghost gallops: nat, ghost bisections: nat)
    ensures result == Err(NoCodeAtHead) <==> codeAt(head) != Present
    ensures result.Ok? ==> result.value <= head && FirstWithCode(codeAt, result.value)
    ensures forall creation: nat :: result.Ok? && TrueOf(codeAt, creation) ==> result.value == creation
    ensures forall creation: nat :: Keeps(codeAt, creation) ==>
              result == if creation <= head then Ok(creation) else Err(NoCodeAtHead)
    ensures forall block: nat :: result == Err(PrunedAt(block)) ==> block < head && codeAt(block) == Pruned
    ensures gallops > 1 ==> 64 * Power(4, gallops - 2) < head
    ensures bisections <= 2 * gallops + 4
  {
    gallops, bisections := 0, 0;
    if codeAt(head) != Present {
      return Err(NoCodeAtHead), gallops, bisections;
    }
    var hi: nat := head;
    var lo: int := -1;
    var step := 64;
    while true
      invariant codeAt(hi) == Present && hi <= head
      invariant step == 64 * Power(4, gallops) > 0
      invariant gallops > 0 ==> hi + 64 * Power(4, gallops - 1) <= head && 0 < hi
      decreases hi
    {
      var probe := if hi > step then hi - step else 0;
      var has := codeAt(probe);
      gallops := gallops + 1;
      if has == Pruned {
        return Err(PrunedAt(probe)), gallops, bisections;
      }
      if has == Absent {
        lo := probe;
        break;
      }
      hi := probe;
      if probe == 0 {
        return Ok(0), gallops, bisections;
      }
      step := step * 4;
    }
    PowerOfFour(gallops - 1);
    while hi - lo > 1
      invariant 0 <= lo < hi <= head
      invariant codeAt(hi) == Present && codeAt(lo) == Absent
      invariant bisections <= 2 * gallops + 4
      invariant hi - lo <= Power(2, 2 * gallops + 4 - bisections)
      decreases hi - lo
    {
      var mid := (lo + hi) / 2;
      var has := codeAt(mid);
      bisections := bisections + 1;
      if has == Pruned {
        return Err(PrunedAt(mid)), gallops, bisections;
      }
      if has == Present {
        hi := mid;
      } else {
        lo := mid;
      }
    }
    result := Ok(hi);
  }
}
