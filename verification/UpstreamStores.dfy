/** The class of packages/middleware/src/upstream-store.ts, and the self-service route of
    packages/middleware/src/app.ts that writes to it. */
module UpstreamStores {
  import opened Basics
  import opened Decimal
  import opened Upstreams
  import SelfMapping

  class UpstreamStore {
    var table: Table
    /** The snapshots whose writes have not had their turn yet, oldest first. */
    var queue: seq<Table>
    var file: File

    function State(): Store
      reads this
    {
      Store(table, queue, file)
    }

    constructor (file: File)
      ensures State() == Store(map[], [], file)
    {
      table, queue := map[], [];
      this.file := file;
    }

    /** Boot: entries the guard refuses are skipped, a malformed one fails the whole load. */
    method LoadSync(accepts: (nat, string) -> bool) returns (outcome: Result<(), LoadError>)
      requires table == map[]
      modifies this`table
      ensures outcome.Ok? <==> Load(file, accepts).Ok?
      ensures outcome.Ok? ==> Load(file, accepts) == Ok(table)
    {
      if file.Missing? {
        return Ok(());
      }
      if file.Corrupt? {
        return Err(FileInvalid);
      }
      var i := 0;
      while i < |file.fields|
        invariant 0 <= i <= |file.fields|
        invariant Loaded(file.fields[i..], table, accepts) == Load(file, accepts)
      {
        var f := file.fields[i];
        assert file.fields[i..][1..] == file.fields[i + 1..];
        if !IsId(f.key) || f.value.None? {
          return Err(FileInvalid);
        }
        var id := Value(f.key);
        if accepts(id, f.value.value) {
          table := table[id := f.value.value];
        }
        i := i + 1;
      }
      outcome := Ok(());
    }

    method Persist()
      modifies this`queue
      ensures queue == old(queue) + [table]
    {
      queue := queue + [table];
    }

    method Set(serviceId: nat, url: string)
      modifies this
      ensures State() == Apply(old(State()), SetOp(serviceId, url))
    {
      table := table[serviceId := url];
      Persist();
    }

    method Delete(serviceId: nat)
      modifies this
      ensures State() == Apply(old(State()), DeleteOp(serviceId))
    {
      if serviceId !in table {
        return;
      }
      table := table - {serviceId};
      Persist();
    }

    /** The oldest queued write has its turn. A failure is its caller's to see and does not
        stop the writes behind it. */
    method WriteNext(lands: bool)
      modifies this
      ensures State() == Apply(old(State()), WriteOp(lands))
    {
      if queue == [] {
        return;
      }
      if lands {
        file := Written(queue[0]);
      }
      queue := queue[1..];
    }

    /** Waits for all queued writes; when the last of them lands the file is the last snapshot. */
    method Flush(lands: nat -> bool)
      modifies this
      ensures queue == [] && table == old(table)
      ensures old(queue) != [] && lands(1) ==> file == Written(old(queue)[|old(queue)| - 1])
      ensures old(queue) == [] ==> file == old(file)
    {
      while queue != []
        invariant |queue| <= |old(queue)| && queue == old(queue)[|old(queue)| - |queue|..] && table == old(table)
        invariant |queue| == |old(queue)| ==> file == old(file)
        invariant queue == [] && old(queue) != [] && lands(1) ==> file == Written(old(queue)[|old(queue)| - 1])
        decreases |queue|
      {
        WriteNext(lands(|queue|));
      }
    }

    method List() returns (mappings: seq<(nat, string)>)
      ensures forall id, url :: (id, url) in mappings <==> id in table && table[id] == url
      ensures forall i, j :: 0 <= i < j < |mappings| ==> mappings[i].0 < mappings[j].0
    {
      var ids := Ids(table.Keys);
      IdsAreSorted(table.Keys);
      mappings := seq(|ids|, i requires 0 <= i < |ids| && ids[i] in table reads this => (ids[i], table[ids[i]]));
      forall id, url
        ensures (id, url) in mappings <==> id in table && table[id] == url
      {
        if id in table {
          var i :| 0 <= i < |ids| && ids[i] == id;
          assert mappings[i] == (id, table[id]);
        }
      }
    }
  }

  /** The self-service mapping route. */
  class SelfMapRoute {
    const network: string
    const upstreams: UpstreamStore
    var lastSelfMapTs: map<nat, int>

    constructor (network: string, upstreams: UpstreamStore)
      ensures this.network == network && this.upstreams == upstreams && lastSelfMapTs == map[]
    {
      this.network, this.upstreams, lastSelfMapTs := network, upstreams, map[];
    }

    function State(): SelfMapping.Live
      reads this, upstreams
    {
      SelfMapping.Live(lastSelfMapTs, upstreams.table)
    }

    method Post(a: SelfMapping.Attempt) returns (outcome: Result<(), SelfMapping.Refusal>)
      modifies this, upstreams
      ensures (State(), outcome) == SelfMapping.Handle(network, old(State()), a)
      ensures upstreams.queue == if outcome.Ok? then old(upstreams.queue) + [upstreams.table] else old(upstreams.queue)
    {
      var apart := a.now - a.timestamp;
      if apart > SelfMapping.SELF_MAP_WINDOW_MS || -apart > SelfMapping.SELF_MAP_WINDOW_MS {
        return Err(SelfMapping.StaleRequest);
      }
      if a.owner.None? {
        return Err(SelfMapping.ServiceNotFound);
      }
      var signer := SelfMapping.Recovered(a.signature, SelfMapping.MessageOf(network, a));
      if signer.None? || signer != a.owner {
        return Err(SelfMapping.NotServiceOwner);
      }
      if a.serviceId in lastSelfMapTs && a.timestamp <= lastSelfMapTs[a.serviceId] {
        return Err(SelfMapping.Replayed);
      }
      if a.safeUrl.None? {
        return Err(SelfMapping.UrlRefused);
      }
      lastSelfMapTs := lastSelfMapTs[a.serviceId := a.timestamp];
      upstreams.Set(a.serviceId, a.safeUrl.value);
      outcome := Ok(());
    }
  }
}
