/** The metrics controller of the ReadMe Metrics Python SDK
    (`readme_metrics.Metrics.Metrics`): it filters requests by host, queues the
    payload built for each request/response pair and triggers batch publishing
    when the queue reaches the configured buffer length and at process exit. */
module ReadmeMetrics {
  import opened Wrappers

  // ---------------------------------------------------------------------------
  // Configuration
  // ---------------------------------------------------------------------------

  /** The `GROUPING_FUNCTION` setting: either a dotted name such as
      "myapp.metrics.group", or any other value, which is used as it is. The
      other value is opaque here and stands for the object's identity. */
  datatype GroupingSetting = Dotted(name: string) | Object(id: nat)

  /** The grouping function the controller hands to the payload builder:
      the attribute `functionName` of the module `moduleName`, or the
      configured object itself. */
  datatype GroupingFunction = Imported(moduleName: string, functionName: string) | Given(id: nat)

  /** The parts of `MetricsApiConfig` the controller reads. The buffer length
      is an unconstrained integer: the controller itself does not validate it. */
  datatype Config = Config(
    bufferLength: int,
    backgroundMode: bool,
    allowedHosts: Option<set<string>>,
    grouping: GroupingSetting)

  /** Errors the controller's own code raises. */
  datatype Error =
    | NotEnoughValuesToUnpack   // `rsplit(".", 1)` found no dot
    | ZeroDivision              // `qsize() / BUFFER_LENGTH` with a zero length
    | ImportFailed              // `import_module` or `getattr` raised

  // ---------------------------------------------------------------------------
  // Grouping-function resolution (the constructor)
  // ---------------------------------------------------------------------------

  /** The index of the last occurrence of `c` in `s`, if any. */
  function LastIndexOf(s: string, c: char): (r: Option<nat>)
    ensures r.None? <==> c !in s
    ensures r.Some? ==> r.value < |s| && s[r.value] == c && c !in s[r.value + 1..]
    decreases |s|
  {
    if |s| == 0 then None
    else if s[|s| - 1] == c then Some(|s| - 1)
    else
      var r := LastIndexOf(s[..|s| - 1], c);
      assert r.Some? ==> s[r.value + 1..] == s[..|s| - 1][r.value + 1..] + [s[|s| - 1]];
      assert r.None? ==> s == s[..|s| - 1] + [s[|s| - 1]];
      r
  }

  /** `name.rsplit(".", 1)` unpacked into a module part and a function part.
      Without a dot the split yields one item and the unpacking raises. */
  function SplitLast(name: string): (r: Result<(string, string), Error>)
    ensures r.Success? <==> '.' in name
    ensures r.Failure? ==> r.error == NotEnoughValuesToUnpack
    ensures r.Success? ==> '.' !in r.value.1 && r.value.0 + "." + r.value.1 == name
  {
    match LastIndexOf(name, '.')
    case None => Failure(NotEnoughValuesToUnpack)
    case Some(i) =>
      assert name == name[..i] + "." + name[i + 1..];
      Success((name[..i], name[i + 1..]))
  }

  /** The split is the only one whose function part has no dot: every other way
      of writing `name` as module + "." + function puts a dot in the function. */
  lemma SplitLastUnique(name: string, moduleName: string, functionName: string)
    requires '.' !in functionName
    requires moduleName + "." + functionName == name
    ensures SplitLast(name) == Success((moduleName, functionName))
  {
    var k := |moduleName|;
    assert name[k] == '.';
    assert name[..k] == moduleName;
    assert name[k + 1..] == functionName;
  }

  /** The grouping function chosen by `Metrics.__init__`: a string setting is
      split at its last dot into the module to import and the attribute to
      fetch from it; any other setting is used unchanged. */
  function ResolveGrouping(g: GroupingSetting): (r: Result<GroupingFunction, Error>)
    ensures g.Object? ==> r == Success(Given(g.id))
    ensures g.Dotted? ==> (r.Success? <==> '.' in g.name)
    ensures g.Dotted? && r.Success? ==>
      r.value.Imported? && '.' !in r.value.functionName &&
      r.value.moduleName + "." + r.value.functionName == g.name
    ensures g.Dotted? && r.Failure? ==> r.error == NotEnoughValuesToUnpack
  {
    match g
    case Object(id) => Success(Given(id))
    case Dotted(name) =>
      match SplitLast(name)
      case Failure(e) => Failure(e)
      case Success((m, f)) => Success(Imported(m, f))
  }

  // ---------------------------------------------------------------------------
  // Host filter
  // ---------------------------------------------------------------------------

  /** `host_allowed`: an unset or empty allow-list admits every host (the
      Python test is the truthiness of `ALLOWED_HTTP_HOSTS`); otherwise a host
      is admitted exactly when it is a member. A missing host header (`None`)
      is a member of no set of strings. */
  function HostAllowed(host: Option<string>, allowed: Option<set<string>>): (r: bool)
    ensures allowed.None? || allowed == Some({}) ==> r
    ensures allowed.Some? && allowed.value != {} ==> (r <==> host.Some? && host.value in allowed.value)
  {
    match allowed
    case Some(hosts) =>
      if hosts != {} then host.Some? && host.value in hosts else true
    case None => true
  }

  /** Adding hosts to a non-empty allow-list never turns a host away (an
      empty list is different: it admits every host). */
  lemma HostAllowedMonotone(host: Option<string>, hosts: set<string>, more: set<string>)
    requires hosts != {} && hosts <= more
    requires HostAllowed(host, Some(hosts))
    ensures HostAllowed(host, Some(more))
  {
  }

  // ---------------------------------------------------------------------------
  // One request: what `process` puts on the queue
  // ---------------------------------------------------------------------------

  /** What the opaque `PayloadBuilder` call did: returned a payload, returned
      `None` (the grouping function asked not to log the request), or raised. */
  datatype BuildOutcome<P> = Built(payload: P) | NoPayload | Raised

  /** The queue after `process` has filtered the host and called the builder,
      before any flush. When the builder raised, the `except` branch falls
      through to `queue.put(payload)` with `payload` still `None`. */
  function Enqueued<P>(config: Config, queue: seq<Option<P>>, host: Option<string>,
                       built: BuildOutcome<P>): (q: seq<Option<P>>)
    ensures q == queue <==> !HostAllowed(host, config.allowedHosts) || built.NoPayload?
    ensures q != queue ==> q == queue + [if built.Built? then Some(built.payload) else None]
  {
    if !HostAllowed(host, config.allowedHosts) then queue
    else
      match built
      case NoPayload => queue
      case Built(p) => queue + [Some(p)]
      case Raised => queue + [None]
  }

  /** As written, a raising builder still gets an entry queued: `None`. */
  lemma RaisedBuildEnqueuesNone<P>(config: Config, queue: seq<Option<P>>, host: Option<string>)
    requires HostAllowed(host, config.allowedHosts)
    ensures Enqueued(config, queue, host, Raised) == queue + [None]
    ensures |Enqueued(config, queue, host, Raised)| == |queue| + 1
  {
  }

  /** `process` triggers a flush exactly when it enqueued something (the host
      was admitted and the builder did not return `None`) and the queue has
      then reached the buffer length. */
  predicate FlushDue<P>(config: Config, queue: seq<Option<P>>, host: Option<string>,
                        built: BuildOutcome<P>): (due: bool)
    ensures due <==>
      HostAllowed(host, config.allowedHosts) && !built.NoPayload? &&
      |queue| + 1 >= config.bufferLength
  {
    var q := Enqueued(config, queue, host, built);
    |q| > |queue| && |q| >= config.bufferLength
  }

  // ---------------------------------------------------------------------------
  // Shutdown: the number of flush rounds
  // ---------------------------------------------------------------------------

  /** The iteration count of `for _ in range(math.ceil(n / b))`. For a
      positive `b` it is the ceiling of n / b; for a negative `b` the ceiling
      is at most zero and the range is empty. */
  function Rounds(n: nat, b: int): (k: nat)
    requires b != 0
    ensures b > 0 ==> k * b - b < n <= k * b
    ensures b < 0 ==> k == 0
  {
    if b > 0 then
      var t := n + b - 1;
      assert t == (t / b) * b + t % b && 0 <= t % b < b;
      t / b
    else 0
  }

  /** For positive `x`, multiplication by `x` preserves strict order. */
  lemma MulStrictlyMonotone(a: int, c: int, x: int)
    requires x > 0 && a * x < c * x
    ensures a < c
  {
  }

  /** The ceiling is the only count of rounds of `b` that covers `n` payloads
      without a round to spare. */
  lemma RoundsUnique(n: nat, b: int, k: nat)
    requires b > 0
    requires k * b - b < n <= k * b
    ensures Rounds(n, b) == k
  {
    var r := Rounds(n, b);
    assert (r - 1) * b == r * b - b && (k - 1) * b == k * b - b;
    MulStrictlyMonotone(r - 1, k, b);
    MulStrictlyMonotone(k - 1, r, b);
  }

  /** A queue of three buffers and one more payload needs four rounds. */
  lemma RoundsThreeBuffersAndOne(b: int)
    requires b > 0
    ensures Rounds(3 * b + 1, b) == 4
  {
    RoundsUnique(3 * b + 1, b, 4);
  }

  /** An empty queue needs no round, and a queue of at most one buffer one. */
  lemma RoundsSmallQueues(n: nat, b: int)
    requires b > 0
    ensures Rounds(0, b) == 0
    ensures 0 < n <= b ==> Rounds(n, b) == 1
  {
    RoundsUnique(0, b, 0);
    if 0 < n <= b {
      RoundsUnique(n, b, 1);
    }
  }

  // ---------------------------------------------------------------------------
  // The controller
  // ---------------------------------------------------------------------------

  /** One call of `publish_batch(config, queue)`: whether it ran on a
      detached thread, and the queue's contents when the flush was triggered
      (for a detached thread, when it was started; the worker gets the queue
      object itself and reads it whenever it runs). */
  datatype FlushCall<P> = FlushCall(spawned: bool, pending: seq<Option<P>>)

  /** The outcome of `exit_handler` up to the final `queue.join()`, which is
      not modelled. `Completed` means only that the round loop ended, not
      that `exit_handler` returned: `join` waits until `task_done` has been
      called for every entry ever put, which depends on the opaque
      `publish_batch` (and, in background mode, on its workers). In
      foreground mode with a negative buffer length and a non-empty queue no
      round runs, nothing calls `task_done`, and the source blocks there
      forever. */
  datatype ExitResult = Completed | Failed(error: Error)

  /** `readme_metrics.Metrics.Metrics`. */
  class Metrics<P> {
    const config: Config
    const groupingFunction: GroupingFunction
    /** The contents of the `queue.Queue`, oldest first; `None` entries are
        what a raising payload builder leaves behind. */
    var queue: seq<Option<P>>
    /** Every flush triggered so far, in order. */
    ghost var flushes: seq<FlushCall<P>>

    /** The success path of `__init__`: the grouping setting splits, and the
        import and attribute lookup of a dotted setting are taken to succeed.
        `Create` models the failure paths. */
    constructor (config: Config)
      requires ResolveGrouping(config.grouping).Success?
      ensures this.config == config
      ensures groupingFunction == ResolveGrouping(config.grouping).value
      ensures queue == [] && flushes == []
    {
      this.config := config;
      groupingFunction := ResolveGrouping(config.grouping).value;
      queue := [];
      flushes := [];
    }

    /** `Metrics(config)`: raises when a string grouping setting has no dot,
        or when importing its module part or fetching its function part
        raises (`importable` is the opaque outcome of `import_module` and
        `getattr`, which only a dotted setting calls), and otherwise yields a
        controller with an empty queue. */
    static method Create(config: Config, importable: bool) returns (r: Result<Metrics<P>, Error>)
      ensures config.grouping.Object? ==> r.Success?
      ensures config.grouping.Dotted? ==>
        (r.Success? <==> '.' in config.grouping.name && importable)
      ensures ResolveGrouping(config.grouping).Failure? ==>
        r == Failure(ResolveGrouping(config.grouping).error)
      ensures ResolveGrouping(config.grouping).Success? && config.grouping.Dotted? && !importable ==>
        r == Failure(ImportFailed)
      ensures r.Success? ==>
        fresh(r.value) && r.value.config == config &&
        r.value.groupingFunction == ResolveGrouping(config.grouping).value &&
        r.value.queue == [] && r.value.flushes == []
    {
      match ResolveGrouping(config.grouping)
      case Failure(e) =>
        r := Failure(e);
      case Success(g) =>
        if g.Imported? && !importable {
          r := Failure(ImportFailed);
        } else {
          var m := new Metrics(config);
          r := Success(m);
        }
    }

    /** Hands the queue to `publish_batch`, inline or on a detached thread.
        What the publisher takes off the queue is not modelled, so the queue
        is arbitrary afterwards. */
    method TriggerFlush()
      modifies this
      ensures flushes == old(flushes) + [FlushCall(config.backgroundMode, old(queue))]
    {
      flushes := flushes + [FlushCall(config.backgroundMode, queue)];
      queue := *;
    }

    /** `process(request, response)` for a request with the given host header
        and the given outcome of the payload builder. */
    method Process(host: Option<string>, built: BuildOutcome<P>)
      modifies this
      ensures |flushes| <= |old(flushes)| + 1
      ensures !HostAllowed(host, config.allowedHosts) ==>
        queue == old(queue) && flushes == old(flushes)
      ensures built.NoPayload? ==> queue == old(queue) && flushes == old(flushes)
      ensures HostAllowed(host, config.allowedHosts) && built.Raised? &&
              |old(queue)| + 1 < config.bufferLength ==>
        queue == old(queue) + [None]
      ensures !FlushDue(config, old(queue), host, built) ==>
        queue == Enqueued(config, old(queue), host, built) && flushes == old(flushes)
      ensures FlushDue(config, old(queue), host, built) ==>
        flushes == old(flushes) +
          [FlushCall(config.backgroundMode, Enqueued(config, old(queue), host, built))]
    {
      if !HostAllowed(host, config.allowedHosts) {
        return;
      }
      var payload: Option<P> := None;
      match built {
        case Built(p) =>
          payload := Some(p);
        case NoPayload =>
          return;
        case Raised =>
      }
      queue := queue + [payload];
      if |queue| >= config.bufferLength {
        TriggerFlush();
      }
    }

    /** `exit_handler()`: on a non-empty queue, triggers as many flushes as
        the ceiling of the queue size at entry over the buffer length; the
        count does not depend on what the flushes take off the queue. */
    method ExitHandler() returns (r: ExitResult)
      modifies this
      ensures |old(queue)| == 0 ==>
        r == Completed && queue == old(queue) && flushes == old(flushes)
      ensures config.bufferLength < 0 ==> r == Completed && queue == old(queue) && flushes == old(flushes)
      ensures |old(queue)| > 0 && config.bufferLength == 0 ==>
        r == Failed(ZeroDivision) && queue == old(queue) && flushes == old(flushes)
      ensures |old(queue)| > 0 && config.bufferLength != 0 ==>
        r == Completed &&
        |flushes| == |old(flushes)| + Rounds(|old(queue)|, config.bufferLength) &&
        flushes[..|old(flushes)|] == old(flushes) &&
        (forall i :: |old(flushes)| <= i < |flushes| ==> flushes[i].spawned == config.backgroundMode) &&
        (|flushes| > |old(flushes)| ==> flushes[|old(flushes)|].pending == old(queue))
    {
      if |queue| == 0 {
        return Completed;
      }
      if config.bufferLength == 0 {
        return Failed(ZeroDivision);
      }
      var rounds := Rounds(|queue|, config.bufferLength);
      var i := 0;
      while i < rounds
        invariant 0 <= i <= rounds
        invariant |flushes| == |old(flushes)| + i
        invariant flushes[..|old(flushes)|] == old(flushes)
        invariant forall j :: |old(flushes)| <= j < |flushes| ==> flushes[j].spawned == config.backgroundMode
        invariant i > 0 ==> flushes[|old(flushes)|].pending == old(queue)
        invariant i == 0 ==> queue == old(queue)
      {
        TriggerFlush();
        i := i + 1;
      }
      return Completed;
    }
  }

  /** The two-request example with a buffer length of 2 in foreground mode:
      the second request triggers exactly one inline flush, which sees both
      payloads in arrival order. */
  method TwoRequestsFillTheBuffer<P>(a: P, b: P) returns (m: Metrics<P>)
    ensures m.flushes == [FlushCall(false, [Some(a), Some(b)])]
  {
    var config := Config(2, false, None, Object(0));
    m := new Metrics(config);
    m.Process(Some("x.com"), Built(a));
    assert Enqueued(config, [], Some("x.com"), Built(a)) == [Some(a)];
    assert m.queue == [Some(a)] && m.flushes == [];
    assert Enqueued(config, [Some(a)], Some("x.com"), Built(b)) == [Some(a), Some(b)];
    m.Process(Some("x.com"), Built(b));
  }
}
