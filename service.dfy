/**
 * The agent's server client as far as its config cache and config receivers
 * go. The client keeps the last config it fetched together with the error
 * of that fetch and the time of the fetch; while that entry is fresh,
 * GetConfig serves it as it is. Config receivers are registered in order
 * and all of them run on every RunConfigReceivers, whatever the others
 * return; the result is the aggregate of their failures.
 *
 * Time is an integer (nanoseconds), errors are opaque values. How a stale
 * entry is refetched is not visible here: it is the collaborator `refresh`,
 * whose answer becomes the new entry.
 */
module Service {
  import opened Wrappers
  import opened Errors

  /** fleet.OrbitConfig: only the raw flags are kept. */
  datatype Config = Config(flags: string)

  /** A config receiver: what its Run returns for a given config. */
  datatype Receiver = Receiver(run: Option<Config> -> Option<Error>)

  /** One call of a receiver's Run: the receiver's registration index and the config it was given. */
  datatype Invocation = Invocation(receiver: nat, cfg: Option<Config>)

  /** The cache entry fetched at `lastUpdated` is still served at `now`. */
  function Fresh(lastUpdated: int, now: int, ttl: nat): (b: bool)
    ensures now < lastUpdated ==> b
    ensures now >= lastUpdated + ttl ==> !b
  {
    now - lastUpdated < ttl
  }

  /** What each registered receiver returns when given `cfg`, in registration order. */
  function Outcomes(receivers: seq<Receiver>, cfg: Option<Config>): (r: seq<Option<Error>>)
    ensures |r| == |receivers|
    ensures forall i :: 0 <= i < |r| ==> r[i] == receivers[i].run(cfg)
  {
    if receivers == [] then [] else [receivers[0].run(cfg)] + Outcomes(receivers[1..], cfg)
  }

  /** One invocation per receiver, in registration order, all with the same config. */
  function Invocations(count: nat, cfg: Option<Config>): (r: seq<Invocation>)
    ensures |r| == count
    ensures forall i :: 0 <= i < count ==> r[i] == Invocation(i, cfg)
  {
    if count == 0 then [] else Invocations(count - 1, cfg) + [Invocation(count - 1, cfg)]
  }

  /**
   * The aggregate of a run is nil exactly when no receiver failed, and
   * every receiver's failure is found in it with errors.Is.
   */
  lemma RunOutcome(receivers: seq<Receiver>, cfg: Option<Config>)
    ensures Join(Outcomes(receivers, cfg)).None? <==> forall i :: 0 <= i < |receivers| ==> receivers[i].run(cfg).None?
    ensures forall i :: 0 <= i < |receivers| && receivers[i].run(cfg).Some? ==>
              Join(Outcomes(receivers, cfg)).Some? && Is(Join(Outcomes(receivers, cfg)).value, receivers[i].run(cfg).value)
  {
    var outcomes := Outcomes(receivers, cfg);
    JoinNilIffNoFailure(outcomes);
    forall i | 0 <= i < |receivers| && receivers[i].run(cfg).Some?
      ensures Join(outcomes).Some? && Is(Join(outcomes).value, receivers[i].run(cfg).value)
    {
      JoinKeepsEveryFailure(outcomes, i);
    }
  }

  class OrbitClient {
    /** The cache entry: the config and error of the last fetch, and when it happened. */
    var config: Option<Config>
    var err: Option<Error>
    var lastUpdated: int
    /** How long an entry is served before it is refetched. */
    const ttl: nat
    /** The answer a refetch at a given time gives. */
    const refresh: int -> (Option<Config>, Option<Error>)
    /** Registered receivers, in registration order. */
    var receivers: seq<Receiver>
    /** The times at which the config was refetched. */
    ghost var refreshes: seq<int>
    /** Every receiver call made, in order. */
    ghost var invocations: seq<Invocation>

    /** A client whose cache holds the given entry and that has no receivers. */
    constructor (config: Option<Config>, err: Option<Error>, lastUpdated: int, ttl: nat,
                 refresh: int -> (Option<Config>, Option<Error>))
      ensures this.config == config && this.err == err && this.lastUpdated == lastUpdated
      ensures this.ttl == ttl && this.refresh == refresh
      ensures receivers == [] && refreshes == [] && invocations == []
    {
      this.config := config;
      this.err := err;
      this.lastUpdated := lastUpdated;
      this.ttl := ttl;
      this.refresh := refresh;
      receivers := [];
      refreshes := [];
      invocations := [];
    }

    /**
     * A fresh entry is returned as it is, config and error alike, and
     * nothing else happens; a stale one is replaced by a refetch stamped
     * with `now`, whose answer is returned.
     */
    method GetConfig(now: int) returns (cfg: Option<Config>, e: Option<Error>)
      modifies this`config, this`err, this`lastUpdated, this`refreshes
      ensures Fresh(old(lastUpdated), now, ttl) ==>
                cfg == old(config) && e == old(err) &&
                config == old(config) && err == old(err) && lastUpdated == old(lastUpdated) &&
                refreshes == old(refreshes)
      ensures !Fresh(old(lastUpdated), now, ttl) ==>
                (cfg, e) == refresh(now) &&
                config == cfg && err == e && lastUpdated == now &&
                refreshes == old(refreshes) + [now]
    {
      if Fresh(lastUpdated, now, ttl) {
        return config, err;
      }
      cfg, e := refresh(now).0, refresh(now).1;
      config, err, lastUpdated := cfg, e, now;
      refreshes := refreshes + [now];
    }

    /** Receivers are appended, with no de-duplication. */
    method RegisterConfigReceiver(r: Receiver)
      modifies this`receivers
      ensures receivers == old(receivers) + [r]
    {
      receivers := receivers + [r];
    }

    /**
     * Runs every registered receiver once, in registration order, on `cfg`;
     * a failing receiver does not stop the later ones. The result is the
     * aggregate of the failures (see RunOutcome).
     */
    method RunConfigReceivers(cfg: Option<Config>) returns (e: Option<Error>)
      modifies this`invocations
      ensures invocations == old(invocations) + Invocations(|receivers|, cfg)
      ensures e == Join(Outcomes(receivers, cfg))
    {
      var outcomes: seq<Option<Error>> := [];
      var i := 0;
      while i < |receivers|
        invariant 0 <= i <= |receivers|
        invariant |outcomes| == i && forall k :: 0 <= k < i ==> outcomes[k] == receivers[k].run(cfg)
        invariant invocations == old(invocations) + Invocations(i, cfg)
      {
        var outcome := receivers[i].run(cfg);
        outcomes := outcomes + [outcome];
        invocations := invocations + [Invocation(i, cfg)];
        i := i + 1;
      }
      assert outcomes == Outcomes(receivers, cfg);
      e := Join(outcomes);
    }
  }

  /** An hour, in nanoseconds. */
  const OneHour: int := 3_600_000_000_000

  /** A fresh entry holding a config is served: that config, and no error. */
  method ServeCachedConfig(c: Config, now: int, ttl: nat, refresh: int -> (Option<Config>, Option<Error>))
    returns (cfg: Option<Config>, e: Option<Error>)
    ensures cfg == Some(c) && e.None?
  {
    var client := new OrbitClient(Some(c), None, now + 1_000_000_000, ttl, refresh);
    cfg, e := client.GetConfig(now);
  }

  /** A fresh entry holding an error is served as it is: that error, and no config. */
  method ServeCachedError(cached: Error, now: int, ttl: nat, refresh: int -> (Option<Config>, Option<Error>))
    returns (cfg: Option<Config>, e: Option<Error>)
    ensures cfg.None? && e == Some(cached)
  {
    var client := new OrbitClient(None, Some(cached), now + 1_000_000_000, ttl, refresh);
    cfg, e := client.GetConfig(now);
  }

  /** The tests' client: a cache holding `cfg`, stamped an hour ahead of `now`, and no receivers. */
  method ClientWithConfig(cfg: Config, now: int, refresh: int -> (Option<Config>, Option<Error>))
    returns (client: OrbitClient)
    ensures fresh(client)
    ensures client.config == Some(cfg) && client.err.None? && client.lastUpdated == now + OneHour
    ensures Fresh(client.lastUpdated, now, client.ttl)
    ensures client.receivers == [] && client.invocations == []
  {
    client := new OrbitClient(Some(cfg), None, now + OneHour, 0, refresh);
  }

  /**
   * Two receivers that succeed, registered on a client and run on the
   * configuration its cache returns: both are called, once each and in
   * order, and the result is nil.
   */
  method RunSucceedingReceivers(cfg: Config, ok1: Receiver, ok2: Receiver, now: int,
                                refresh: int -> (Option<Config>, Option<Error>))
    returns (e: Option<Error>, ghost calls: seq<Invocation>)
    requires ok1.run(Some(cfg)).None? && ok2.run(Some(cfg)).None?
    ensures e.None?
    ensures calls == [Invocation(0, Some(cfg)), Invocation(1, Some(cfg))]
  {
    var client := ClientWithConfig(cfg, now, refresh);
    client.RegisterConfigReceiver(ok1);
    client.RegisterConfigReceiver(ok2);
    var current, _ := client.GetConfig(now);
    e := client.RunConfigReceivers(current);
    RunOutcome(client.receivers, current);
    calls := client.invocations;
  }

  /**
   * Receivers registered as [fail1, ok1, fail2, ok2] and run on the cached
   * configuration: every one is called,
   * so the two that succeed still run after a failure, and both failures are
   * found in the result with errors.Is.
   */
  method RunFailingReceivers(cfg: Config, fail1: Receiver, ok1: Receiver, fail2: Receiver, ok2: Receiver,
                             err1: Error, err2: Error, now: int, refresh: int -> (Option<Config>, Option<Error>))
    returns (e: Option<Error>, ghost calls: seq<Invocation>)
    requires fail1.run(Some(cfg)) == Some(err1) && fail2.run(Some(cfg)) == Some(err2)
    requires ok1.run(Some(cfg)).None? && ok2.run(Some(cfg)).None?
    ensures e.Some? && Is(e.value, err1) && Is(e.value, err2)
    ensures calls == [Invocation(0, Some(cfg)), Invocation(1, Some(cfg)), Invocation(2, Some(cfg)), Invocation(3, Some(cfg))]
  {
    var client := ClientWithConfig(cfg, now, refresh);
    client.RegisterConfigReceiver(fail1);
    client.RegisterConfigReceiver(ok1);
    client.RegisterConfigReceiver(fail2);
    client.RegisterConfigReceiver(ok2);
    var current, _ := client.GetConfig(now);
    e := client.RunConfigReceivers(current);
    RunOutcome(client.receivers, current);
    assert client.receivers[0] == fail1 && client.receivers[2] == fail2;
    calls := client.invocations;
  }
}
