/**
 * The export manager: a registry of exporters keyed by name, built from the
 * configured selection, initialised once, and used to fan every payload out to
 * all exporters. What an exporter answers is data; Go's unspecified map order is
 * an arbitrary choice among the keys not yet visited.
 */
module Export {
  import opened Wrappers
  import opened Payloads

  /** An exporter (`handlers.Exporter`), described by what Initialize and Publish answer. */
  datatype Sink = Sink(initialize: Outcome, publish: Outcome)

  /** One call of an exporter's Publish: who received which payload, and the answer. */
  datatype Delivery = Delivery(exporter: string, payload: Payload, result: Outcome)

  /** The error `SetupPubHandlers` returns: the exporter that failed and its error. */
  datatype SetupError = SetupError(exporter: string, cause: string)

  /** The exporters of the register whose key is configured; unknown keys are ignored. */
  function Registered(reg: map<string, Sink>, configured: set<string>): (m: map<string, Sink>)
    ensures m.Keys == configured * reg.Keys
    ensures forall k :: k in m ==> m[k] == reg[k]
  {
    map k | k in configured && k in reg :: reg[k]
  }

  /** Registering one more configured key extends the registry by that key, if known. */
  lemma RegisteredAddKey(reg: map<string, Sink>, done: set<string>, k: string)
    ensures Registered(reg, done + {k}) ==
      if k in reg then Registered(reg, done)[k := reg[k]] else Registered(reg, done)
  {
  }

  /** Updating a merged map updates its right-hand side. */
  lemma MergeUpdate(m: map<string, Sink>, r: map<string, Sink>, k: string, v: Sink)
    ensures (m + r)[k := v] == m + r[k := v]
  {
  }

  /** No two entries of the sequence are equal. */
  ghost predicate Distinct(s: seq<string>) {
    forall i, j :: 0 <= i < j < |s| ==> s[i] != s[j]
  }

  class ExportManager {
    var exporters: map<string, Sink>

    /** `NewManager`: an empty registry filled from the configured keys. */
    constructor (reg: map<string, Sink>, configured: set<string>)
      ensures exporters == Registered(reg, configured)
    {
      exporters := map[];
      new;
      RegisterExporters(reg, configured);
    }

    /** Adds every configured key the register knows; other keys are skipped without error. */
    method RegisterExporters(reg: map<string, Sink>, configured: set<string>)
      modifies this
      ensures exporters == old(exporters) + Registered(reg, configured)
    {
      var remaining := configured;
      ghost var done: set<string> := {};
      while remaining != {}
        invariant remaining <= configured && done == configured - remaining
        invariant exporters == old(exporters) + Registered(reg, done)
        decreases remaining
      {
        var k :| k in remaining;
        RegisteredAddKey(reg, done, k);
        if k in reg {
          MergeUpdate(old(exporters), Registered(reg, done), k, reg[k]);
          exporters := exporters[k := reg[k]];
        }
        remaining := remaining - {k};
        done := done + {k};
      }
      assert done == configured;
    }

    /**
     * `SetupPubHandlers`: initialises the exporters one by one in some order and
     * stops at the first failure, which it reports with that exporter's name.
     * `initialized` lists the exporters whose Initialize was called, in order.
     */
    method SetupPubHandlers() returns (err: Option<SetupError>, initialized: seq<string>)
      ensures Distinct(initialized)
      ensures forall i :: 0 <= i < |initialized| ==> initialized[i] in exporters
      ensures err.None? <==> forall k :: k in exporters ==> exporters[k].initialize.Ok?
      ensures err.None? ==> forall k :: k in exporters ==> k in initialized
      ensures err.Some? ==>
        && |initialized| > 0
        && err.value.exporter == initialized[|initialized| - 1]
        && exporters[err.value.exporter].initialize == Err(err.value.cause)
      ensures forall i :: 0 <= i < |initialized| - 1 ==> exporters[initialized[i]].initialize.Ok?
    {
      err, initialized := None, [];
      var remaining := exporters.Keys;
      while remaining != {}
        invariant remaining <= exporters.Keys
        invariant Distinct(initialized)
        invariant forall i :: 0 <= i < |initialized| ==> initialized[i] in exporters && initialized[i] !in remaining
        invariant forall k :: k in exporters && k !in remaining ==> k in initialized
        invariant forall i :: 0 <= i < |initialized| ==> exporters[initialized[i]].initialize.Ok?
        decreases remaining
      {
        var k :| k in remaining;
        initialized := initialized + [k];
        var sink := exporters[k];
        if sink.initialize.Err? {
          err := Some(SetupError(k, sink.initialize.error));
          return;
        }
        remaining := remaining - {k};
      }
    }

    /**
     * `Publish`: every exporter receives the payload stamped with the server
     * endpoint, whatever the others answered; failures go to the log only.
     */
    method Publish(endpoint: string, p: Payload) returns (deliveries: seq<Delivery>)
      ensures forall i, j :: 0 <= i < j < |deliveries| ==> deliveries[i].exporter != deliveries[j].exporter
      ensures forall k :: k in exporters <==> exists i :: 0 <= i < |deliveries| && deliveries[i].exporter == k
      ensures forall i :: 0 <= i < |deliveries| ==>
        && deliveries[i].exporter in exporters
        && deliveries[i].payload == p.(server := endpoint)
        && deliveries[i].result == exporters[deliveries[i].exporter].publish
    {
      deliveries := [];
      var remaining := exporters.Keys;
      while remaining != {}
        invariant remaining <= exporters.Keys
        invariant forall i :: 0 <= i < |deliveries| ==> deliveries[i].exporter !in remaining
        invariant forall i, j :: 0 <= i < j < |deliveries| ==> deliveries[i].exporter != deliveries[j].exporter
        invariant forall k :: k in exporters && k !in remaining <==>
          exists i :: 0 <= i < |deliveries| && deliveries[i].exporter == k
        invariant forall i :: 0 <= i < |deliveries| ==>
          && deliveries[i].exporter in exporters
          && deliveries[i].payload == p.(server := endpoint)
          && deliveries[i].result == exporters[deliveries[i].exporter].publish
        decreases remaining
      {
        var k :| k in remaining;
        var stamped := p.(server := endpoint);
        ghost var before := deliveries;
        deliveries := deliveries + [Delivery(k, stamped, exporters[k].publish)];
        assert forall i :: 0 <= i < |before| ==> deliveries[i] == before[i];
        assert deliveries[|before|].exporter == k;
        remaining := remaining - {k};
      }
    }
  }
}
