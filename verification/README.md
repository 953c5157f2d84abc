# Autoscaling decision and message store of a Django Kubernetes dashboard

This Dafny project models the two pieces of logic in the dashboard's view
module (`app/kube/views.py`) that are more than calls into the Kubernetes
client or the ORM.

1. **The metrics view's scaling decision** (`get_simulated_metrics`).
   - The pod metrics from the metrics API are flattened into one row per
     container. A missing `usage` entry raises, and a missing cpu or memory
     key shows as `"N/A"`.
   - Each row's CPU usage string is converted to millicores by its last
     character: `n` nanocores, `u` microcores, `m` millicores, anything
     else whole cores. The amount goes through Python's `int()`.
   - The values are summed and divided by the number of container entries.
   - An average above 10 requests 3 replicas. An average below 5 with more
     than one entry requests 1 replica. Otherwise nothing is requested.
   - Any exception along the way (an unparsable amount, no containers to
     divide by, a missing `usage` entry) becomes the page's error message,
     and no scaling happens.
2. **The message endpoints** (`save_message`, `list_messages`).
   - A POST's `message_text` is stripped of surrounding whitespace.
   - Blank text is refused with status 400. Any other text is stored as one
     record with the time of the save, answered with 201.
   - Any other method gets 200.
   - Listing returns the 20 newest records, newest first.

Modules, one per concern:

- `Wrappers` (`wrappers.dfy`): `Option` and `Result`.
- `PyInt` (`py_int.dfy`): Python's `int()` on strings, and its inverse `str()`.
- `PyStrip` (`py_strip.dfy`): Python's `str.strip()` with `str.isspace()`'s
  character set.
- `CpuQuantity` (`cpu_quantity.dfy`): usage string to millicores.
- `Autoscale` (`autoscale.dfy`): averaging and the threshold decision, as a
  function (`Decide`) and as the view's loop (`DecideScaling`), proved equal.
- `MetricsView` (`metrics_view.dfy`): flattening the metrics list, error
  reporting, and the recorded scale request.
- `Messages` (`messages.dfy`): the store as an immutable sequence of
  `(text, createdAt)` records, with save and list as functions over it.

The code and its comments disagree in two places. The model follows the
code's literal values:
- `app/kube/views.py:236` speaks of a 400m threshold, but the code compares
  the average with 10 (and with 5).
- `app/kube/views.py:238` says "Increase to 5", but the call requests 3
  replicas.

Divisions are over exact reals: the view's float arithmetic is abstracted
away. The call to `scale_deployment` becomes the page's `scaleRequest`
field. Its result is ignored by the view, so nothing depends on it. The
clock reading stored in `created_at` is a parameter of `SaveMessage`.

## Model

| member | source | states |
|---|---|---|
| PyInt.ParseIntAccepts | app/kube/views.py:225-231 | `int()` succeeds exactly on a non-empty run of decimal digits with at most one leading sign, and the sign decides the sign of the value |
| PyInt.ParsePaddedInt | app/kube/views.py:225-231 | any run of leading zeros followed by the digits of `n` reads as `n`, unsigned or after `+`, and as `-n` after `-` |
| PyInt.ParseFormat | app/kube/views.py:231 | `int()` inverts decimal rendering: every integer written out in decimal parses back to itself |
| CpuQuantity.ParseQuantity | app/kube/views.py:224-231 | a usage string splits into the unit named by its last character and an amount that is `int()` of the text before that character (of the whole string for cores), and fails exactly when `int()` rejects that text |
| CpuQuantity.ToMillicoresBySuffix | app/kube/views.py:224-231 | `n` gives int(prefix)/1,000,000 millicores, `u` gives int(prefix)/1,000, `m` gives int(prefix), any other ending gives int(whole string)*1,000, and a rejected amount gives no value |
| CpuQuantity.ParseRender | app/kube/views.py:224-231 | reading a rendered quantity (decimal amount plus unit letter) recovers the quantity |
| CpuQuantity.ToMillicoresRender | app/kube/views.py:224-231 | every amount in every unit, rendered as a usage string, converts to that amount's exact millicore value |
| CpuQuantity.RejectedUsages | app/kube/views.py:217-231 | the "N/A" placeholder, a bare `m` or `n`, a decimal like "1.5" and the empty string all make the conversion fail |
| CpuQuantity.AcceptedUsages | app/kube/views.py:224-231 | sample readings "250m", "2", "500n" and "750u" convert to 250, 2000, 0.0005 and 0.75 millicores |
| Autoscale.FirstInvalid | app/kube/views.py:222-231 | the position where the loop raises: every earlier usage string converts and the one there does not, or there is no such string |
| Autoscale.Decide | app/kube/views.py:221-240 | the decision is an error exactly when there are no entries or some usage string does not convert, and a conversion error names a failing string all of whose predecessors convert; with no entries the error is the division by zero (`NoContainers`) |
| Autoscale.DecideThresholds | app/kube/views.py:234-240 | 3 replicas exactly when the average exceeds 10; 1 replica exactly when the average is below 5 with more than one entry; no request exactly when the average is in [5, 10] or a lone entry is below 5 |
| Autoscale.TotalMillicores | app/kube/views.py:221-232 | the accumulating loop finishes exactly when every usage string converts, with the sum of all their millicore values, and otherwise stops with the first string that does not convert |
| Autoscale.DecideScaling | app/kube/views.py:221-240 | the view's accumulate-then-divide loop produces the same outcome as the functional decision, including which error it stops at |
| Autoscale.AllBusyScalesUp | app/kube/views.py:234-238 | if every container's usage exceeds 10 millicores, the deployment is scaled to 3 replicas |
| Autoscale.AllIdleScalesDown | app/kube/views.py:234-240 | if there are at least two containers and each uses less than 5 millicores, the deployment is scaled to 1 replica |
| Autoscale.SingleEntryNeverScalesDown | app/kube/views.py:239-240 | a single container entry never triggers a scale-down |
| Autoscale.SingleEntryAverage | app/kube/views.py:234 | the average over one entry is that entry's millicores |
| MetricsView.CollectContainers | app/kube/views.py:214-219 | one row per container, in order, holding the pod name and the cpu and memory strings or "N/A"; stops at the first container lacking `usage`, which marks the list incomplete |
| MetricsView.Collect | app/kube/views.py:209-219 | the rows are, in order, those of the pod-by-pod, container-by-container list up to the first container lacking `usage`, and the rows appended before it are kept; the list is complete exactly when every container has a `usage` entry, and then has one row per container |
| MetricsView.EntriesAt | app/kube/views.py:209-214 | container `i` of pod `p` is visited right after all containers of the earlier pods |
| MetricsView.RowPresent | app/kube/views.py:209-219 | every container of a complete list appears as a row |
| MetricsView.GetSimulatedMetrics | app/kube/views.py:209-249 | the page shows the collected rows and an error exactly when a `usage` entry is missing or the decision fails, and that error is the missing `usage` or the decision's own error (the first rejected string, or no entries); a scale request is made only without error and is the decision's target; no request means the decision was to do nothing |
| MetricsView.ScaleRequestTargets | app/kube/views.py:237-240 | a scale request asks for 3 or 1 replicas |
| MetricsView.MissingCpuReportsError | app/kube/views.py:217-249 | a container without a cpu reading makes the page report an error and request no scaling |
| MetricsView.NoContainersReportsError | app/kube/views.py:234-249 | with no container entries the page reports the division-by-zero error and no scaling is requested |
| PyStrip.Strip | app/kube/views.py:288 | stripping yields the infix of the text that has only whitespace before and after it and does not begin or end with whitespace; it is empty exactly when the text is all whitespace |
| PyStrip.StripIdempotent | app/kube/views.py:288 | stripping stripped text changes nothing |
| Messages.SaveMessage | app/kube/views.py:286-301 | a POST with blank text gets 400 and a POST with text gets 201; any other method gets 200; only a 201 changes the store, by appending exactly one record with the stripped text and the save time |
| Messages.SortNewestFirst | app/kube/views.py:305 | ordering by `-created_at` gives a permutation of the store whose creation times never increase |
| Messages.ListMessages | app/kube/views.py:305-306 | at most 20 records (fewer only when the store is smaller), newest first, all taken from the store, and every record left out is no newer than any record listed |
| Messages.ListedAreStored | app/kube/views.py:305-306 | every listed record is a stored record with its text and timestamp unchanged |
| Messages.ListChronological | app/kube/models.py:9-15 | when records were saved at strictly increasing times, the listing is exactly the most recent saves, latest first |
| Messages.SaveThenListShowsNewest | app/kube/views.py:288-305 | text saved later than everything stored is listed first, stripped |

## Left out

- `_load_kube_config_once` and the module-level client globals (`app/kube/views.py:14-61`), and the early return when loading the configuration fails (`app/kube/views.py:174-176`): these load SDK configuration files and keep mutable global state.
- `list_pods`, `list_nodes`, `create_dummy_resource`, `index`, `health_check`: direct pass-throughs to the Kubernetes client or to templates. `create_dummy_resource` also uses `random`.
- The metrics API request (`app/kube/views.py:178-193`): a remote call. Its answer is the input of `MetricsView.GetSimulatedMetrics`, a list of pods, each with an optional name and a list of containers. An absent `items` or `containers` list is the empty list.
- The body of `scale_deployment` (`app/kube/views.py:256-281`): a remote call. Only the replica count requested is recorded, because the view ignores the result.
- The `ApiException` branch's message text and the other error strings, the `print` calls, template rendering, `JsonResponse` construction, the Persian response messages and `strftime` formatting: these are presentation only. Errors are an abstract `MetricsError`, and responses are a status and a code.
- Messages.SaveMessage: the database failures caught at `app/kube/views.py:293-298` (`IntegrityError` giving 400, `OperationalError` and others giving 500) are not modelled. The abstract store never fails to insert.
- Messages.ListMessages: the database failures caught at `app/kube/views.py:308-311` (status 500) are not modelled. Records with equal `created_at` may come in any order, because the database does not fix their order either.
- PyInt.ParseIntAccepts: Python's `int()` also accepts surrounding whitespace, underscores between digits and non-ASCII decimal digits. The model accepts only an optional sign followed by ASCII digits. Metrics-server quantities never use those forms.
- PyInt.ParseIntAccepts: CPython 3.11 and later raise `ValueError` for a string of more than 4300 digits. The model parses integers of any length, so such a reading gives a decision where the view would show an error.
- CpuQuantity.ToMillicoresBySuffix: amounts are exact reals, not IEEE doubles, so the rounding of `/ 1e6` and `/ 1000` is not modelled.
- CpuQuantity.ToMillicoresBySuffix: the `OverflowError`s of Python's float arithmetic are not modelled. They arise when an integer above about 1.8e308 is converted to a float (`app/kube/views.py:225`, and `232` once the total is a float), and when an integer true division gives a quotient too large for a float (`app/kube/views.py:227` only for amounts above about 1.8e311, and `app/kube/views.py:234`). The view shows such a failure as an error and scales nothing (`app/kube/views.py:247-249`). The model instead returns a value for every integer, so `Autoscale.Decide` returns a decision.
- CpuQuantity.ToMillicoresBySuffix: a float sum can overflow to infinity, and adding infinities of opposite sign gives NaN. NaN passes neither comparison at `app/kube/views.py:237-239`, so the view requests nothing. The exact-real sum has no infinities and no NaN.
- Autoscale.DecideThresholds: the average is compared as an exact real. A float average that rounds across 5 or 10 is not modelled.
- A cpu value that is not a string (the metrics API always sends strings) and the `memory_usage` column: the memory column is only displayed. It is carried in each row but not interpreted.
- The `Message.__str__` method (`app/kube/models.py:11-12`), settings, URL routing and the load-test script: these contain no behaviour of the core.
