# ReadMe Metrics controller, in Dafny

This project models the metrics controller of the ReadMe Metrics Python SDK,
the class `Metrics` in `packages/python/readme_metrics/Metrics.py`. The
controller receives each request/response pair from the web-framework
middleware, drops it when its host is not in `ALLOWED_HTTP_HOSTS`, asks the
`PayloadBuilder` for a payload, puts the result on an in-memory FIFO queue and
calls `publish_batch` once the queue holds `BUFFER_LENGTH` entries. At process
exit, `exit_handler` calls `publish_batch` as many times as the ceiling of the
queue size over `BUFFER_LENGTH`.

Files:

- `wrappers.dfy`: module `Wrappers`, the `Option` and `Result` datatypes.
- `metrics.dfy`: module `ReadmeMetrics`. It holds the configuration, the
  grouping-name resolution done by the constructor, the host filter, pure
  functions for what one `process` call enqueues and for the number of
  shutdown rounds, and the class `Metrics`, whose methods update the queue.

How the model stands for the program:

- The host header is an input `Option<string>`. The ASGI/WSGI lookup that
  produces it is not modelled.
- The `PayloadBuilder` call is an input of type `BuildOutcome`. The builder
  either returned a payload, returned `None`, or raised. Payloads are a type
  parameter `P`.
- `publish_batch` is opaque. `TriggerFlush` records each call in the ghost
  trace `flushes`: whether it ran on a detached thread, and the queue contents
  at the call. Afterwards the queue holds an arbitrary value (`queue := *`), so
  nothing is claimed about what the publisher removes. This applies in both
  modes, because the code of `publish_batch` is not part of this model; in
  background mode the detached worker may in addition drain the queue later.
- `BUFFER_LENGTH` is an unconstrained `int`, because the controller does not
  validate it. With a length of zero or less, every enqueue triggers a flush.
  With a negative length, `exit_handler` runs zero rounds. With a length of
  zero and a non-empty queue, `exit_handler` raises `ZeroDivisionError`.
- A string `GROUPING_FUNCTION` without a dot makes `rsplit(".", 1)` return a
  single item, and the unpacking then raises. `Metrics.Create` returns
  `Failure(NotEnoughValuesToUnpack)` in that case.
- Whether `importlib.import_module` and `getattr` succeed on the two parts
  (a missing module, an empty module name as in ".f", a missing attribute as
  in "os.") is an input `importable` of `Metrics.Create`. When it is false
  for a dotted setting, `Create` returns `Failure(ImportFailed)`.

Where the code and its design intent disagree, the model follows the code.
When the payload builder raises, the `except` branch at Metrics.py:80-85 logs
"Not enqueueing request" but does not return. Control then reaches
`self.queue.put(payload)` with `payload` still `None`, so `None` is enqueued.
It also counts toward the flush threshold. `Enqueued`,
`RaisedBuildEnqueuesNone` and `Metrics.Process` all state this behaviour.

## Model

| member | source | states |
|---|---|---|
| `ReadmeMetrics.LastIndexOf` | packages/python/readme_metrics/Metrics.py:36 | the result is absent exactly when the character does not occur; otherwise it is an index holding the character with no later occurrence |
| `ReadmeMetrics.SplitLast` | packages/python/readme_metrics/Metrics.py:36 | `rsplit(".", 1)` unpacked into two names succeeds exactly when the name has a dot; the function part then has no dot and module + "." + function rebuilds the name; otherwise the unpacking error |
| `ReadmeMetrics.SplitLastUnique` | packages/python/readme_metrics/Metrics.py:36 | any way of writing the name as module + "." + function with a dot-free function part is the one the split returns (the split is at the last dot) |
| `ReadmeMetrics.ResolveGrouping` | packages/python/readme_metrics/Metrics.py:35-40 | a non-string grouping setting is used unchanged; a string setting resolves to an import of its module part and function part, or fails with the unpacking error exactly when it has no dot |
| `ReadmeMetrics.HostAllowed` | packages/python/readme_metrics/Metrics.py:109-115 | an unset or empty allow-list admits every host; a non-empty one admits exactly its members, and never a missing host; as a function, two calls with the same inputs agree |
| `ReadmeMetrics.HostAllowedMonotone` | packages/python/readme_metrics/Metrics.py:110-111 | enlarging a non-empty allow-list never rejects a host that was admitted |
| `ReadmeMetrics.Enqueued` | packages/python/readme_metrics/Metrics.py:65-87 | the queue is unchanged exactly when the host is rejected or the builder returned `None`; otherwise exactly one entry is appended at the end, earlier entries untouched: the payload, or `None` when the builder raised |
| `ReadmeMetrics.RaisedBuildEnqueuesNone` | packages/python/readme_metrics/Metrics.py:72-87 | for an admitted host, a raising builder still grows the queue by one `None` entry |
| `ReadmeMetrics.FlushDue` | packages/python/readme_metrics/Metrics.py:88 | a flush is due exactly when the call enqueued an entry (host admitted, builder did not return `None`) and the new queue size is at least the buffer length |
| `ReadmeMetrics.Rounds` | packages/python/readme_metrics/Metrics.py:99 | for a positive buffer length the round count k is the ceiling: k·B − B < n ≤ k·B; for a negative length the range is empty |
| `ReadmeMetrics.RoundsUnique` | packages/python/readme_metrics/Metrics.py:99 | the ceiling is the only round count that covers the queue without a round to spare |
| `ReadmeMetrics.RoundsThreeBuffersAndOne` | packages/python/readme_metrics/Metrics.py:96-106 | a queue of 3·B + 1 entries takes exactly 4 rounds |
| `ReadmeMetrics.RoundsSmallQueues` | packages/python/readme_metrics/Metrics.py:97-99 | an empty queue takes no round; a queue of at most B entries takes one |
| `ReadmeMetrics.Metrics.constructor` | packages/python/readme_metrics/Metrics.py:24-49 | keeps the configuration, stores the resolved grouping function, starts with an empty queue and no flush |
| `ReadmeMetrics.Metrics.Create` | packages/python/readme_metrics/Metrics.py:24-49 | a non-string setting always constructs; a dotted setting constructs exactly when it has a dot and its import and attribute lookup succeed; a missing dot gives the unpacking error, a failed import or lookup `ImportFailed`; on success a fresh controller with the resolved grouping function and an empty queue |
| `ReadmeMetrics.Metrics.TriggerFlush` | packages/python/readme_metrics/Metrics.py:89-94 | one `publish_batch` call is recorded, inline or on a detached thread per the background flag, with the queue's contents when the flush was triggered (for a detached thread, when it was started); nothing is claimed about the queue afterwards |
| `ReadmeMetrics.Metrics.Process` | packages/python/readme_metrics/Metrics.py:53-94 | a rejected host or a `None` payload leaves queue and trace unchanged; otherwise the entry is appended, and a flush seeing the new queue is triggered exactly when its size reaches the buffer length; at most one flush per call |
| `ReadmeMetrics.Metrics.ExitHandler` | packages/python/readme_metrics/Metrics.py:96-107 | an empty queue triggers nothing; a negative buffer length triggers nothing and leaves the queue as it was; a zero buffer length with a non-empty queue raises division by zero; otherwise exactly `Rounds(size at entry, B)` flushes in the configured mode, the first triggered when the queue held its contents at entry, whatever each flush drains |
| `ReadmeMetrics.TwoRequestsFillTheBuffer` | packages/python/readme_metrics/Metrics.py:87-94 | with a buffer length of 2 in foreground mode, two admitted requests make exactly one inline flush, which sees both payloads in arrival order |

## Left out

- `publish_batch` (module `readme_metrics.publisher`) and `PayloadBuilder` are not part of this model. Their effects are inputs or arbitrary values, as described above. `TriggerFlush` always returns, so the model takes an inline `publish_batch` never to raise, as the publisher is designed to swallow delivery failures. Were it to raise, the shutdown loop would end before `Rounds(n, B)` calls (Metrics.py:106) and `process` would leave with the exception (Metrics.py:94), to be caught by the middleware.
- `ReadmeMetrics.Metrics.TriggerFlush`: does not say what the publisher removes from the queue, because that code is not part of this model. So the model cannot show that a foreground flush leaves the queue empty.
- `ReadmeMetrics.Metrics.ExitHandler`: does not model `queue.join()` (Metrics.py:107), in either mode. `join` blocks until `task_done()` has been called once for every entry ever put, whoever calls it, and only the opaque `publish_batch` (inline, or on its workers in background mode) calls it. So the result `Completed` means that the round loop ended, not that `exit_handler` returned. In foreground mode with a negative buffer length and a non-empty queue, no round runs and the source blocks at `join` forever.
- `ReadmeMetrics.Metrics.constructor`: is the success path of `__init__` only; it takes the import and attribute lookup of a dotted setting to succeed. `ReadmeMetrics.Metrics.Create` holds the failure paths.
- Background mode: thread creation and concurrent draining (Metrics.py:90-92, 100-104) appear only as trace entries with `spawned = true`. Interleavings with other threads are not modelled.
- The request's host lookup (Metrics.py:60-63), including the `KeyError` a WSGI environment without `HTTP_HOST` raises, is abstracted into the host input.
- `ReadmeMetrics.Metrics.Create`: `importlib.import_module` and `getattr` (Metrics.py:37-38) are foreign dynamic loading. Their success is the opaque input `importable`, so the model does not say which names import, and all their exceptions (`ModuleNotFoundError`, `ValueError` for an empty module name, `AttributeError`) become one error, `ImportFailed`.
- Logging, the development-mode `print(traceback.format_exc())`, and `atexit.register` have no effect on the queue and are not modelled.
- `ReadmeMetrics.Rounds`: uses integer ceiling in place of `math.ceil` on a float quotient. The two can differ for queue sizes beyond 2^53.
- The Django middleware (`packages/python/readme_metrics/django.py`) and the AWS webhook fixture (`packages/sdk-snippets/src/targets/node/aws/webhooks/fixtures/server-variables.js`) are framework glue and example code, not part of the controller.
