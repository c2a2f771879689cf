# Thoth user API: a Dafny model of its decision logic

Thoth's user API takes requests to analyse a container image, check an
application stack's provenance, compute advice for a Python stack, analyse a
build, or run Kebechet on a webhook. For each request it:

- decides whether a cached analysis can answer it;
- otherwise publishes a message that starts a workflow;
- answers later queries by reconciling three sources: the result store, the
  workflow orchestrator and the store of recorded requests.

Next to the handlers sit small pure pieces:

- the pagination arithmetic of the listing endpoints;
- the `skopeo inspect` command builder and its error classifier;
- the GitHub webhook filter;
- the pip3 and yum build-log parsers;
- a set of cache-hit counters.

This project models all of that as pure Dafny functions over immutable
values. The parts of the world a handler touches are one `Dispatch.World`
value that each handler takes and gives back along with its reply
(`Dispatch.Handled`):

- the caches, the result stores, the build-log store and the workflow-log store;
- the orchestrator's reports;
- the message bus, as a list of published messages;
- the callback and graph-database side effects.

A Python exception is a `Raise` result. Writes made before it stay in the
world.

Some inputs come from outside the program. They are parameters, bundled in
`Dispatch.Env`:

- the clock;
- the random part of generated ids;
- whether the bus accepts a message;
- the id the build-log store assigns.

The deployment settings are `Dispatch.Config`.

Other foreign calls are function-typed parameters:

- `run_command` for skopeo;
- the stack, runtime-environment and constraint parsers;
- image metadata inside `post_build`;
- the regular expressions of the pip3 parser.

`post_analyze` is modelled with `_do_get_image_metadata` over the skopeo
runner, so its metadata check runs through the modelled image code.
`Analyze.Handle` follows it as written, with the environment type always
`runtime`; `Analyze.HandleCorrected` keeps the requested type (see Findings).

The provenance and adviser handlers check tokens with `Dispatch.TokenGate`,
the gate as intended, against a configured token. As written the
configuration declares no `API_TOKEN`, so any supplied token raises
(`Dispatch.TokenGateAsWritten`, see Findings).

The digest `_compute_digest_params` is SHA-256 over key-sorted JSON. It is
modelled as `Digest.Fingerprint`: the key-sorted item list of a dictionary,
or the value itself. Two requests therefore share a cache key exactly when
their parameter maps have the same contents, which is what the sorted keys
are for. The hash is taken to be collision-free.

Modules, one per file:

- **Common, Json:** Python string and dictionary behaviour.
- **Ordering:** Python's string order and `sorted`.
- **PyRepr:** `repr` of a string and its inverse.
- **Url:** `urllib.parse.urlparse`.
- **Digest:** request fingerprints.
- **Pagination.**
- **Reconcile:** `_get_document`, `_get_status`, `_get_status_with_queued`, `_get_log`.
- **Dispatch:** the world, `_send_schedule_message`, the token gate, cache freshness.
- **Image.**
- **Analyze, Provenance, Advise, Build:** the four POST handlers and their read endpoints.
- **Dependencies:** argument checks of the dependency query.
- **PayloadFilter, Webhook:** the Kebechet webhook and `initialize_repo`.
- **Pip3, Yum:** the build-log parsers.

The yum handler exists twice in the repository with the same logic. The
`Yum` rows below cite thoth/user_api/parsing/handlers/yum.py. The older copy
in thoth_user_api/parsing/handlers/yum.py has the heading check at lines
23-37, the table parser at 40-97 and `run` at 99-120, with the same index
step at line 116.
- **Metrics.**

## Model

| member | source | states |
|---|---|---|
| Common.Find | thoth_user_api/parsing/handlers/pip3.py:46-52 | `str.index`: the result is the first position where the pattern occurs, and none when it occurs nowhere |
| Common.Split | thoth_user_api/parsing/handlers/pip3.py:72 | `str.split(sep)`: at least one part, no part contains the separator, and joining the parts with it gives the input back |
| Common.RSplitOnce | thoth_user_api/parsing/handlers/pip3.py:37-40 | `rsplit(c, maxsplit=1)`: two parts around the last `c` exactly when `c` occurs, else the input alone |
| Common.Strip | thoth/user_api/api_v1.py:1240 | `strip('/')`: the result is the infix of the input left once every leading and every trailing `/` is gone, so it neither starts nor ends with one |
| Common.StripExactly | thoth/user_api/api_v1.py:1240 | an infix preceded and followed only by the stripped character, and neither starting nor ending with it, is what `strip` returns |
| Common.StripIdempotent | thoth/user_api/api_v1.py:1240 | stripping twice is stripping once |
| Common.PyMod | thoth/user_api/api_v1.py:215 | Python's `%`: the remainder takes the divisor's sign and `a == b * (a // b) + r` |
| PyRepr.HexValue | thoth/user_api/image.py:64 | reading a hex digit inverts writing it, and every hex digit reads |
| PyRepr.QuoteFor | thoth/user_api/image.py:64 | `repr` quotes with `"` exactly when the text holds a single quote and no double quote |
| PyRepr.Repr | thoth/user_api/image.py:64 | `repr` of a string opens and closes with the chosen quote; the characters below U+0020, U+007F-U+00A0 and U+00AD are written as `\x` escapes |
| PyRepr.Latin1Escapes | thoth/user_api/image.py:64 | U+0080 and the no-break space U+00A0 print as `\x80` and `\xa0` |
| PyRepr.SoftHyphenEscaped | thoth/user_api/image.py:64 | the soft hyphen prints as `\xad` while `é` is kept as it is |
| PyRepr.ReadReprOf | thoth/user_api/image.py:64 | reading a `repr` back from the front of any text recovers the string and leaves the rest |
| PyRepr.ReprRoundTrip | thoth/user_api/image.py:64 | `repr` is inverted by its reader |
| PyRepr.ReprInjective | thoth/user_api/image.py:64 | two strings with the same `repr` are equal |
| Url.Lower | thoth/user_api/api_v1.py:1242 | lower-casing keeps length and lowers character by character |
| Url.Remove | thoth/user_api/api_v1.py:1242 | the characters `urlparse` discards are gone, and text without them is unchanged |
| Url.FirstOf | thoth/user_api/api_v1.py:1242 | the first position at or after `start` holding a delimiter, or the end |
| Url.SplitFirst | thoth/user_api/api_v1.py:1242 | splitting at the first occurrence rebuilds the input, and the head is free of the separator |
| Url.SplitScheme | thoth/user_api/api_v1.py:1242 | a recognised scheme is lower case, and without one the rest is the whole URL |
| Url.SplitParams | thoth/user_api/api_v1.py:1242 | the path part is a prefix of the path |
| Url.SplitNetloc | thoth/user_api/api_v1.py:1242 | netloc and rest rebuild the input, after the leading `//` when there is one |
| Url.Parse | thoth/user_api/api_v1.py:1241-1244 | `urlparse` raises ValueError exactly when the netloc has an unbalanced `[` or `]` |
| Url.SchemeSplitOff | thoth/user_api/api_v1.py:1242 | a plain scheme before `:` is split off unchanged |
| Url.NetlocSplitOff | thoth/user_api/api_v1.py:1242 | after `//`, a netloc free of `/?#` is split off before a path starting with `/` |
| Url.PathSplitOff | thoth/user_api/api_v1.py:1242 | a path free of `?#;` has no parameters, query or fragment |
| Url.ParseComposed | thoth/user_api/api_v1.py:1242 | parsing `scheme://netloc/path` built from clean parts gives those parts back |
| Metrics.Initial | thoth/user_api/metrics.py:28-33 | a fresh set of counters sums to zero, so all four are zero |
| Metrics.UpdateAdviserCacheHit | thoth/user_api/metrics.py:35-40 | only the authenticated or only the anonymous adviser counter goes up by one; the total goes up by one |
| Metrics.UpdateProvenanceCheckerCacheHit | thoth/user_api/metrics.py:42-47 | the same for the two provenance-checker counters |
| Metrics.TotalCountsCalls | thoth/user_api/metrics.py:28-47 | after any sequence of updates the counters' sum grew by the number of calls |
| Metrics.CountersCountTheirCalls | thoth/user_api/metrics.py:35-47 | each counter grew by the number of calls of its own kind |
| Pagination.ClampPerPage | thoth/user_api/api_v1.py:320 | `min(per_page, PAGINATION_SIZE_MAX)` never exceeds either bound and is one of them |
| Pagination.PageCount | thoth/user_api/api_v1.py:338 | `ceil(entries / per_page)` raises ZeroDivisionError exactly for 0; otherwise it is the least page count covering every entry |
| Pagination.ComputeOffset | thoth/user_api/api_v1.py:209-218 | no pages gives 0; a non-negative page gives `page * per_page`; a page in `[-page_count, -1]` counts from the end |
| Pagination.NegativePageWraps | thoth/user_api/api_v1.py:214-216 | a negative page has the offset of the page `page_count` further on, as Python indexing does |
| Pagination.NegativePageInRange | thoth/user_api/api_v1.py:214-216 | any negative page lands on an offset between 0 and the last page's |
| Pagination.PrevNextPage | thoth/user_api/api_v1.py:194-206 | a previous link exists exactly off page 0 and a next link exactly before the last page; each is one page away or the last page, whichever `min` picks |
| Pagination.LinksStepOnePage | thoth/user_api/api_v1.py:194-206 | inside the range the links point one page back and one page on |
| Pagination.PrevFromPastEnd | thoth/user_api/api_v1.py:197-199 | past the end, the previous link points at the last page and there is no next link |
| Pagination.NegativePagePrevStepsBack | thoth/user_api/api_v1.py:194-218 | on a negative page counted from the end, the previous link is one further back and its offset one page size lower |
| Pagination.PackagesPage | thoth/user_api/api_v1.py:780-828 | the package listing raises exactly for a zero page size; its offset and links are those of the computed page count |
| Pagination.ContainerImagesPage | thoth/user_api/api_v1.py:306-390 | the container-image listing is the same except that its links use the page size as the page count |
| Pagination.NextHasEntries | thoth/user_api/api_v1.py:194-218 | a next link computed from the true page count points at a page whose offset is below the entry count |
| Pagination.PackagesNextHasEntries | thoth/user_api/api_v1.py:802-816 | every next link of the package listing points at a page holding entries |
| Pagination.ContainerImagesNextPastEnd | thoth/user_api/api_v1.py:375 | with 10 entries and 25 per page there is one page, yet the listing still offers a next page |
| Ordering.LexLeTotal | thoth/user_api/api_v1.py:600 | Python's string order compares any two strings |
| Ordering.LexLeAntisymmetric | thoth/user_api/api_v1.py:600 | strings that are each at most the other are equal |
| Ordering.LexLeTransitive | thoth/user_api/api_v1.py:600 | the string order is transitive |
| Ordering.Insert | thoth/user_api/api_v1.py:600 | insertion adds exactly the one element |
| Ordering.InsertSorted | thoth/user_api/api_v1.py:600 | inserting into a sorted list keeps it sorted |
| Ordering.SortBy | thoth/user_api/api_v1.py:600 | `sorted` is a permutation of its input |
| Ordering.SortBySorted | thoth/user_api/api_v1.py:600 | the output of `sorted` is in order |
| Ordering.HeadsEqual | thoth/user_api/api_v1.py:600 | two sorted permutations with distinct keys start with the same element |
| Ordering.SortedEqual | thoth/user_api/api_v1.py:600 | two sorted permutations of the same elements with distinct keys are equal, so `sorted` does not depend on input order |
| Ordering.InsertByInt | thoth/user_api/api_v1.py:600 | inserting by number adds exactly the one element |
| Ordering.InsertByIntSorted | thoth/user_api/api_v1.py:600 | inserting by number into a sorted list keeps it sorted |
| Ordering.SortByInt | thoth/user_api/api_v1.py:600 | `sorted` on numbers is a permutation of its input |
| Ordering.SortByIntSorted | thoth/user_api/api_v1.py:600 | the output of `sorted` on numbers is in ascending order |
| Ordering.MinKey | thoth/user_api/api_v1.py:600 | a non-empty set of strings has a least element, and it is one of them |
| Ordering.SortedKeys | thoth/user_api/api_v1.py:600 | the keys of a dictionary in ascending order, each exactly once |
| Digest.DigestParams | thoth/user_api/api_v1.py:189-191 | the fingerprint of a parameter dictionary holds exactly its items |
| Digest.Extend | thoth/user_api/api_v1.py:470-475 | `dict(**project, k=v, ...)` raises TypeError exactly when a keyword repeats a project key; otherwise it appends the items |
| Digest.ExtendKeepsUnique | thoth/user_api/api_v1.py:621-645 | a successful extension of duplicate-free items stays duplicate-free |
| Digest.Membership | thoth/user_api/api_v1.py:189-191 | in a duplicate-free item list, an item is present exactly when its key maps to its value, and at most once |
| Digest.DigestIgnoresInsertionOrder | thoth/user_api/api_v1.py:189-191 | dictionaries with the same contents get the same fingerprint, whatever their insertion order |
| Digest.DigestDeterminesContent | thoth/user_api/api_v1.py:189-191 | equal fingerprints mean equal contents, so different requests never share a cache key |
| Digest.ToMapUpdateAt | thoth/user_api/api_v1.py:598-600 | replacing one item's value in place is a dictionary update of that key |
| Digest.Chars | thoth/user_api/api_v1.py:600 | iterating over a string gives its characters as one-character strings, in order |
| Digest.PySorted | thoth/user_api/api_v1.py:600 | `sorted` raises TypeError exactly on `None`, a boolean, a number, or a list of two or more elements that are neither all strings nor all numbers; a sorted list is a permutation of the input, a sorted string its characters, a sorted dictionary its keys |
| Digest.PySortedOrdered | thoth/user_api/api_v1.py:600 | what `sorted` returns is ascending: by code point for strings, characters and keys, by value for numbers |
| Digest.PySortedStrings | thoth/user_api/api_v1.py:600 | on a list of strings `sorted` is the sort by code point |
| Digest.PySortedNumbers | thoth/user_api/api_v1.py:600 | on a list of numbers `sorted` is the stable sort by value |
| Digest.SortsNumbers | thoth/user_api/api_v1.py:600 | `sorted([2, 1])` is `[1, 2]` and `sorted([True, 0])` is `[0, True]` |
| Digest.SortsCharacters | thoth/user_api/api_v1.py:600 | `sorted("ba")` is `["a", "b"]` |
| Digest.SortsShortLists | thoth/user_api/api_v1.py:600 | `sorted([None])` and `sorted([])` succeed, since nothing is compared |
| Digest.SortRaises | thoth/user_api/api_v1.py:600 | `sorted(["a", 1])`, `sorted([None, None])` and `sorted(3)` raise TypeError |
| Digest.NormalizeLibraryUsage | thoth/user_api/api_v1.py:597-600 | a falsy `library_usage` is kept; a truthy non-dictionary raises AttributeError; otherwise only the report changes, and only TypeError or AttributeError can be raised |
| Digest.SortReport | thoth/user_api/api_v1.py:598-600 | the loop raises TypeError exactly when some entry cannot be passed to `sorted`; otherwise it keeps the report's keys and every entry becomes the list `sorted` returns |
| Digest.SortReportPermutes | thoth/user_api/api_v1.py:599-600 | each sorted report entry is a list, and a permutation of the original when that was a list |
| Digest.SortReportCanonical | thoth/user_api/api_v1.py:598-600 | reports that differ only in list order become identical once sorted |
| Digest.LibraryUsageOrderIrrelevant | thoth/user_api/api_v1.py:598-600 | two `library_usage` values whose report lists differ only in order normalise to the same value, so they share a cache key |
| Digest.NormalizeSortsReport | thoth/user_api/api_v1.py:598-600 | a non-empty sortable report is replaced by its sorted lists and nothing else changes |
| Reconcile.ConstructStatusQueued | thoth/user_api/api_v1.py:1353-1360 | the queued payload reports state `pending` with no start, finish or reason, and echoes the analysis id |
| Reconcile.FromReport | thoth/user_api/api_v1.py:1382-1391 | a workflow report yields 202 or 400, or raises |
| Reconcile.GetDocument | thoth/user_api/api_v1.py:1363-1396 | a prefix mismatch is a 400 and a stored document a 200; every status is one of 200, 202, 400, 404 |
| Reconcile.PrefixCheckFirst | thoth/user_api/api_v1.py:1369-1370 | a prefix mismatch gives the same 400 whatever the stores and the orchestrator hold |
| Reconcile.StoredDocumentWins | thoth/user_api/api_v1.py:1375-1377 | a stored document is returned whatever the orchestrator says |
| Reconcile.WorkflowStateDecides | thoth/user_api/api_v1.py:1379-1391 | `running` and `pending` give 202, `failed` and `error` give 400, any other state raises |
| Reconcile.QueuedOrNotFound | thoth/user_api/api_v1.py:1392-1396 | with no workflow, a recorded request gives the queued payload with 202, otherwise 404 |
| Reconcile.NotFoundExactly | thoth/user_api/api_v1.py:1363-1396 | 404 exactly when the prefix fits, nothing is stored, and either there is no namespace or neither a workflow nor a request exists |
| Reconcile.GetStatus | thoth/user_api/api_v1.py:1399-1409 | 200 with the node status exactly when the orchestrator knows the node, otherwise 404 |
| Reconcile.GetStatusWithQueued | thoth/user_api/api_v1.py:1412-1425 | the result is 200 or 404 |
| Reconcile.StatusWithQueuedCases | thoth/user_api/api_v1.py:1412-1425 | a known node passes through; otherwise a recorded request turns the 404 into the queued payload with 200; 404 only when both miss |
| Reconcile.QueuedAgreesAcrossEndpoints | thoth/user_api/api_v1.py:1353-1425 | for a recorded request with no result or workflow yet, the document endpoint says queued with 202 and the status endpoint says queued with 200 |
| Reconcile.GetLog | thoth/user_api/api_v1.py:738-756 | the log endpoint returns 200 or 404 |
| Reconcile.LogSources | thoth/user_api/api_v1.py:738-756 | 404 exactly when both the orchestrator and the durable log store miss; otherwise the orchestrator's log is preferred |
| Reconcile.DropRequestMetadataSpec | thoth/user_api/api_v1.py:727-729 | dropping the adviser's request metadata removes only that key, fails exactly without the nested section, and is idempotent |
| Reconcile.GetWithoutMetadata | thoth/user_api/api_v1.py:722-730 | `get_advise_python` passes every non-200 reply through and strips metadata from a stored document |
| Dispatch.GenerateId | thoth/user_api/api_v1.py:498 | a generated id starts with its prefix and a dash, so it passes the read endpoints' prefix check |
| Dispatch.Stamp | thoth/user_api/api_v1.py:1437-1438 | stamping adds the service version and component name and keeps every other field |
| Dispatch.StampKeeps | thoth/user_api/api_v1.py:1437-1439 | a field other than the two stamped ones is in the stamped message exactly when it was in the original |
| Dispatch.SendScheduleMessage | thoth/user_api/api_v1.py:1428-1463 | the message is published before the `job_id` check; with a job id the reply is a 202 echoing it as `analysis_id`, without one ValueError; a refused publish changes nothing |
| Dispatch.TokenGate | thoth/user_api/api_v1.py:441-452 | the gate as intended, with a configured token: a request passes exactly with the right token, or with no token and no protected field; a wrong token is "Bad token supplied" with 401 |
| Dispatch.TokenGateAsWritten | thoth/user_api/api_v1.py:441-452 | as written, any supplied token raises AttributeError, since the configuration declares no `API_TOKEN`; without a token a protected field is refused |
| Dispatch.SuppliedTokenRaises | thoth/user_api/api_v1.py:445 | as written a supplied token raises even when it is the right one, which the intended gate lets through |
| Dispatch.FreshWindow | thoth/user_api/api_v1.py:485 | a record is fresh for strictly less than 10800 s after its timestamp, and stale from then on |
| Dispatch.CachedReply | thoth/user_api/api_v1.py:486-494 | a cache hit answers 202 with the stored id and `cached` true |
| Dispatch.InvalidStack | thoth/user_api/api_v1.py:460-463 | an unparsable stack answers 400 with the parameters |
| Image.CheckCredentials | thoth/user_api/image.py:53-59 | exactly one of user and password is a bad request; both give the pair; neither gives no credentials |
| Image.BuildCommand | thoth/user_api/image.py:52-64 | the command fails exactly on a half-given credential pair, and never raises |
| Image.ParseCommandOf | thoth/user_api/image.py:52-64 | with credentials free of the flag's separators, the command reads back as the image, credentials and TLS choice it was built from |
| Image.CredentialsInjectOptions | thoth/user_api/image.py:55 | a password ending in ` --tls-verify=false` gives the same command as turning TLS verification off |
| Image.ParseQuotedCommandOf | thoth/user_api/image.py:52-64 | with quoted credentials every command reads back as its request |
| Image.QuotedCommandInjective | thoth/user_api/image.py:52-64 | with quoted credentials, different requests never give the same command |
| Image.TablesInverse | thoth/user_api/image.py:34-45 | the key translation table and its reverse are inverse on their domains |
| Image.TranslateKeys | thoth/user_api/image.py:67-72 | translation succeeds exactly when every key is known; each value moves to the translated key; an unknown key raises KeyError |
| Image.TranslateKeysRoundTrip | thoth/user_api/image.py:67-72 | translating back through the reverse table restores skopeo's output |
| Image.ClassifyFailure | thoth/user_api/image.py:74-86 | first match wins: `manifest unknown`, then authentication required or x509, otherwise a generic error |
| Image.GetImageMetadata | thoth/user_api/image.py:48-86 | a bad credential pair fails before anything runs; success translates stdout; a failure classifies stderr |
| Image.CredentialCheckFirst | thoth/user_api/image.py:53-59 | a half-given credential pair fails the same way whatever skopeo would do |
| Image.StatusFor | thoth/user_api/api_v1.py:1477-1491 | authentication required maps to 401, invalid credentials to 403, everything else to 400 |
| Image.DoGetImageMetadata | thoth/user_api/api_v1.py:1466-1493 | the wrapper answers 200, 400, 401 or 403 |
| Image.MetadataStatus | thoth/user_api/api_v1.py:1466-1493 | success is 200 with the metadata; each failure carries its kind's status and message; only non-image exceptions propagate |
| Analyze.ParametersWith | thoth/user_api/api_v1.py:232-237 | the request's parameter dictionary has no repeated key |
| Analyze.ParametersAsWritten | thoth/user_api/api_v1.py:232-237 | as written the parameters hold `environment_type` `runtime` and `is_external` true, with no repeated key |
| Analyze.Parameters | thoth/user_api/api_v1.py:232-237 | corrected, `environment_type` is the requested type, or `runtime` when none is given |
| Analyze.ParametersWithMap | thoth/user_api/api_v1.py:236 | the parameters with a given environment type differ from the as-written ones only in that key |
| Analyze.EnvironmentTypeDiscarded | thoth/user_api/api_v1.py:236 | the environment type is always `runtime`, even when the caller asked for `buildtime` |
| Analyze.EnvironmentTypeKept | thoth/user_api/api_v1.py:226-236 | the corrected parameters carry the caller's environment type, default `runtime`, and otherwise agree with the as-written ones |
| Analyze.ImageDigest | thoth/user_api/api_v1.py:253 | reading the metadata's digest succeeds exactly when it is a string field |
| Analyze.Handle | thoth/user_api/api_v1.py:221-284 | the handler as written, on the parameters with environment type `runtime`: it touches neither callbacks nor the graph database |
| Analyze.HandleCorrected | thoth/user_api/api_v1.py:221-284 | the handler on the corrected parameters touches neither callbacks nor the graph database |
| Analyze.HandleWith | thoth/user_api/api_v1.py:238-284 | the handler body for given parameters touches neither callbacks nor the graph database |
| Analyze.EnvironmentTypeIgnored | thoth/user_api/api_v1.py:236 | as written the handler answers and writes the same whatever environment type is asked for, as the corrected handler does when none is asked for |
| Analyze.CorrectedAgreesOnRuntime | thoth/user_api/api_v1.py:236 | the correction changes nothing when no environment type or `runtime` is asked for |
| Analyze.Schedule | thoth/user_api/api_v1.py:268-284 | one message is published; the reply is stored by image digest whatever its status; the cache and the request are written on a 202 |
| Analyze.MetadataFailureFirst | thoth/user_api/api_v1.py:239-246 | a metadata error is returned as is, with 400, 401 or 403, and nothing is written |
| Analyze.CacheHit | thoth/user_api/api_v1.py:253-264 | without `force` a known image digest and as-written parameter fingerprint answers from the cache and writes nothing |
| Analyze.Dispatched | thoth/user_api/api_v1.py:268-282 | with `force` or on a miss, exactly one message is published and the new id is cached and recorded |
| Analyze.GetResult | thoth/user_api/api_v1.py:296-303 | an id without the `package-extract-` prefix is a 400; a stored analysis is returned with 200 |
| Analyze.GetStatus | thoth/user_api/api_v1.py:419-423 | the status is 404 exactly when the orchestrator knows no status and no request was stored |
| Analyze.GetLogOf | thoth/user_api/api_v1.py:414-416 | the log is 404 exactly when neither the orchestrator nor the log store has it |
| Advise.Upper | thoth/user_api/api_v1.py:628 | `str.upper` on ASCII: same length, each lower-case letter becomes its upper-case letter 32 code points down, every other character stays, and no lower-case letter remains |
| Advise.UpperIdempotent | thoth/user_api/api_v1.py:628 | upper-casing twice is upper-casing once |
| Advise.UpperAppend | thoth/user_api/api_v1.py:628 | upper-casing works character by character: it distributes over concatenation |
| Advise.Parameters | thoth/user_api/api_v1.py:559-596 | the request parameters lose `input` and `force` and carry the normalised `library_usage` |
| Advise.AnonymousExtras | thoth/user_api/api_v1.py:636-645 | the anonymous digest keys are distinct and never include `origin` |
| Advise.AuthenticatedExtras | thoth/user_api/api_v1.py:622-634 | the authenticated digest keys are distinct and include `origin` |
| Advise.AuthenticatedKeyDiffers | thoth/user_api/api_v1.py:621-645 | an authenticated and an anonymous request never share a cache key |
| Advise.Handle | thoth/user_api/api_v1.py:548-719 | the adviser endpoint answers 202, 400 or 401 |
| Advise.Admitted | thoth/user_api/api_v1.py:581-719 | past the token gate it answers 202 or 400 |
| Advise.GateRunsFirst | thoth/user_api/api_v1.py:568-579 | a refused token gives the same 401 and an unchanged world, whatever the parsers, the clock or the caches |
| Advise.Reuse | thoth/user_api/api_v1.py:647-681 | a fresh cache hit answers from the cache and publishes nothing; only a callback can be registered or forwarded, and without a callback nothing changes |
| Advise.ForwardedResult | thoth/user_api/api_v1.py:665-667 | a finished result loses its request metadata before it is forwarded; any other answer is forwarded as it came |
| Advise.CallbackInfoErrors | thoth/user_api/api_v1.py:658-673 | a `callback_info` that is not a dictionary raises TypeError at `["url"]` for a running analysis and AttributeError at `.get` when the result is forwarded |
| Advise.CacheHit | thoth/user_api/api_v1.py:647-681 | a fresh record without `force` answers with its id and `cached` true, publishing and storing nothing |
| Advise.AdviserMessage | thoth/user_api/api_v1.py:691-696 | the message drops the fields passed through Ceph, carries the job id and `authenticated`, and keeps every other parameter |
| Advise.StampedAdviserMessage | thoth/user_api/api_v1.py:691-699 | stamping keeps the Ceph fields out and the job id in |
| Advise.Publish | thoth/user_api/api_v1.py:686-699 | exactly one adviser message is published, free of Ceph fields, and nothing else changes |
| Advise.AfterPublish | thoth/user_api/api_v1.py:701-719 | after dispatch the cache record carries the new id and time, the request is stored, and a callback is registered when asked for |
| Advise.Schedule | thoth/user_api/api_v1.py:686-719 | a miss publishes one message, then caches, registers the callback and stores the request |
| Advise.Dispatched | thoth/user_api/api_v1.py:647-719 | a stale or missing record, or `force`, publishes one message and refreshes the cache record |
| Advise.GetResult | thoth/user_api/api_v1.py:722-730 | an id without the `adviser-` prefix is a 400; a 200 is the stored document without its request metadata |
| Advise.GetStatus | thoth/user_api/api_v1.py:759-763 | the status is 404 exactly when the orchestrator knows no status and no request was stored |
| Advise.GetLogOf | thoth/user_api/api_v1.py:733-735 | the log is 404 exactly when neither the orchestrator nor the log store has it |
| Provenance.Parameters | thoth/user_api/api_v1.py:434-468 | the parameters are exactly the translated body fields, `debug`, `origin` and the index URLs |
| Provenance.Handle | thoth/user_api/api_v1.py:426-519 | the endpoint answers 202, 400 or 401; stores change only on a 202; a refused publish changes nothing |
| Provenance.Admitted | thoth/user_api/api_v1.py:454-519 | past the gate it answers 202 or 400 |
| Provenance.Lookup | thoth/user_api/api_v1.py:469-496 | a lookup answers 202 |
| Provenance.Schedule | thoth/user_api/api_v1.py:498-519 | one message without the stack is published; the cache record and the request are written; results and workflows are untouched |
| Provenance.GateRunsFirst | thoth/user_api/api_v1.py:441-452 | a refused token gives the same 401 and an unchanged world, whatever else |
| Provenance.CacheHit | thoth/user_api/api_v1.py:482-494 | a fresh record without `force` answers from the cache and changes nothing |
| Provenance.Dispatched | thoth/user_api/api_v1.py:498-517 | otherwise one message is published and the cache and request are written |
| Provenance.HandleSchedules | thoth/user_api/api_v1.py:441-519 | a gated, parsed request without a fresh record goes straight to scheduling |
| Provenance.BusFailureLeavesNoTrace | thoth/user_api/api_v1.py:501-519 | a refused publish leaves the world as it was |
| Provenance.AuthenticatedKeyDiffers | thoth/user_api/api_v1.py:469-476 | authenticated and anonymous requests never share a cache key |
| Provenance.ScheduledIsQueued | thoth/user_api/api_v1.py:498-545 | right after scheduling, the result endpoint says queued with 202 and the status endpoint says queued with 200 |
| Provenance.QueuedOnceRequested | thoth/user_api/api_v1.py:522-545 | a recorded provenance request with no result or workflow yet reads as queued on both endpoints |
| Provenance.GetResult | thoth/user_api/api_v1.py:522-533 | an id without the `provenance-checker-` prefix is a 400; a 200 is the stored document without its request metadata |
| Provenance.GetStatus | thoth/user_api/api_v1.py:541-545 | the status is 404 exactly when the orchestrator knows no status and no request was stored |
| Provenance.GetLogOf | thoth/user_api/api_v1.py:536-538 | the log is 404 exactly when neither the orchestrator nor the log store has it |
| Build.StoreBuildLog | thoth/user_api/api_v1.py:1182-1199 | the log is always stored; a cached parser id is returned exactly without `force` and on a cache hit |
| Build.AnalyseImage | thoth/user_api/api_v1.py:1042-1081 | no image means no analysis; a metadata error stops with the world unchanged; otherwise the analysis is cached exactly on a hit and recorded by digest |
| Build.TriggeredId | thoth/user_api/api_v1.py:1129-1132 | the message names an analysis id exactly when an analysis exists and was not cached |
| Build.MessageParameters | thoth/user_api/api_v1.py:1015-1032 | the analysis ids are null exactly for missing or cached images; the job and parser ids are set |
| Build.BuildMessage | thoth/user_api/api_v1.py:1015-1132 | the published message suppresses cached ids and names the parser exactly for a new log |
| Build.Trigger | thoth/user_api/api_v1.py:1137-1179 | a refused publish raises and changes nothing; otherwise one message is published and the ids are recorded before the 202 |
| Build.TriggerPublishes | thoth/user_api/api_v1.py:1137-1179 | exactly one build message is published and the reply reports both image analyses |
| Build.RecordIds | thoth/user_api/api_v1.py:1144-1166 | every analysed image is cached under its key; a new log's parser id is cached; nothing else is touched |
| Build.Response | thoth/user_api/api_v1.py:1168-1179 | the reply reports the image analyses, the log document, and the log analysis as cached exactly when it was |
| Build.EmptyRequestRejected | thoth/user_api/api_v1.py:1007-1008 | no output image, base image or log is a 400 and nothing changes |
| Build.HandleTriggers | thoth/user_api/api_v1.py:988-1179 | when both image steps succeed the handler is the trigger of their analyses |
| Build.Handle | thoth/user_api/api_v1.py:988-1179 | no output image, base image or build log is a 400 with nothing changed; no path touches callbacks or the graph database |
| Build.CachedImageNotRetriggered | thoth/user_api/api_v1.py:1061-1132 | a cached base image is not re-analysed: its id is null in the message exactly when it was cached |
| Build.CachedBuildLogReused | thoth/user_api/api_v1.py:1012-1175 | a cached log is reported as cached, no parser is requested, and the log cache is unchanged |
| Build.NewBuildLogParsed | thoth/user_api/api_v1.py:1012-1175 | a new log is stored, a parser is requested and cached, and the reply names it |
| Build.OutputFailureKeepsEarlierWrites | thoth/user_api/api_v1.py:1095-1099 | an output-image failure returns after the log and the base analysis were written, before any publish or cache write |
| Dependencies.Check | thoth/user_api/api_v1.py:914-928 | a refusal is a 400 carrying the parameters |
| Dependencies.CheckAcceptsWellSpecified | thoth/user_api/api_v1.py:914-928 | a query is accepted exactly when the OS is fully given or absent, and a marker result comes with OS and Python version |
| PayloadFilter.Repositories | thoth/user_api/payload_filter.py:97-108 | iterating the repositories raises TypeError exactly for a non-iterable; a list gives its records |
| PayloadFilter.Records | thoth/user_api/payload_filter.py:97-102 | the records are exactly the dictionary entries of the list, in order |
| PayloadFilter.InstallEvent | thoth/user_api/payload_filter.py:93-102 | one installation per repository record, failing exactly when iteration fails |
| PayloadFilter.RemoveEvent | thoth/user_api/payload_filter.py:104-115 | one deactivation per repository record, failing exactly when iteration fails |
| PayloadFilter.Process | thoth/user_api/payload_filter.py:45-91 | a forwarded payload is the identical input with no graph effects; graph effects come only from `installation_repositories` |
| PayloadFilter.ProcessPassesRelevant | thoth/user_api/payload_filter.py:45-91 | a payload is forwarded exactly when it is relevant; a non-string `ref` raises |
| PayloadFilter.NonGithubPassed | thoth/user_api/payload_filter.py:52-91 | a non-GitHub payload is forwarded unchanged |
| PayloadFilter.DeprecatedDropped | thoth/user_api/payload_filter.py:57-61 | the deprecated integration events are dropped |
| PayloadFilter.InstallationRecorded | thoth/user_api/payload_filter.py:62-68 | `added` installs and drops, `removed` deactivates and drops, any other action is forwarded |
| PayloadFilter.BotPushDropped | thoth/user_api/payload_filter.py:69-76 | a push with no `ref` or on a Kebechet branch is dropped |
| Webhook.ScheduleKebechetWebhook | thoth/user_api/api_v1.py:1207-1234 | without a GitHub or GitLab header the answer is 501 and nothing changes; the graph only grows |
| Webhook.Forward | thoth/user_api/api_v1.py:1225-1234 | forwarding only adds graph effects and messages |
| Webhook.Act | thoth/user_api/api_v1.py:1226-1234 | the filter's graph calls are appended and no store changes; a dropped webhook answers an empty 200 and publishes nothing |
| Webhook.KebechetMessage | thoth/user_api/api_v1.py:1232-1233 | the message is the webhook payload and a `kebechet-job` id |
| Webhook.RelevantWebhookPublished | thoth/user_api/api_v1.py:1212-1234 | a relevant GitHub webhook publishes one Kebechet message carrying event, body and service |
| Webhook.IrrelevantWebhookDropped | thoth/user_api/api_v1.py:1226-1230 | an irrelevant webhook answers an empty 200 and publishes nothing |
| Webhook.InitializeRepo | thoth/user_api/api_v1.py:1237-1255 | on success the stripped `project_url` parsed, has two path segments and a GitHub host, and one message was published; on failure nothing changes |
| Webhook.UrlProblem | thoth/user_api/api_v1.py:1241-1248 | some check fails exactly when the URL is not a parsable two-segment GitHub URL, and a URL that does not parse is reported as such |
| Webhook.InitializeUrl | thoth/user_api/api_v1.py:1241-1255 | the same for an already stripped URL |
| Webhook.RepoInitMessage | thoth/user_api/api_v1.py:1250-1253 | the message carries the URL and a `thoth-repo-init` job id |
| Webhook.SplitTwo | thoth/user_api/api_v1.py:1245 | two slash-free segments split into exactly two parts |
| Webhook.StripKeeps | thoth/user_api/api_v1.py:1240 | stripping keeps a URL without edge slashes and removes one trailing slash |
| Webhook.GithubUrlStripped | thoth/user_api/api_v1.py:1240 | a GitHub repository URL, with or without a trailing slash, strips to itself |
| Webhook.GithubUrlParsed | thoth/user_api/api_v1.py:1241-1248 | such a URL parses with a GitHub host and two path segments |
| Webhook.GithubUrlChecks | thoth/user_api/api_v1.py:1239-1248 | every check of `initialize_repo` passes on it |
| Webhook.GithubRepositoryAccepted | thoth/user_api/api_v1.py:1237-1255 | every `https://github.com/owner/repo` URL is accepted and publishes the init message |
| Pip3.EarliestOperator | thoth_user_api/parsing/handlers/pip3.py:44-52 | the position is the earliest at which any operator occurs, and there is none when no operator occurs |
| Pip3.DoParsePackage | thoth_user_api/parsing/handlers/pip3.py:29-57 | `git+` splits at the last `@`, default `master`; otherwise name and version rebuild the input, split at the earliest operator; an operator at index 0 gives no version |
| Pip3.ParsePackage | thoth_user_api/parsing/handlers/pip3.py:60-70 | a plain specifier is parsed, with installed version and already-satisfied unset |
| Pip3.ParseFrom | thoth_user_api/parsing/handlers/pip3.py:71-79 | a `from` chain gives one parsed entry per `->` segment, in order |
| Pip3.ParseArtifact | thoth_user_api/parsing/handlers/pip3.py:103-113 | no match gives None; a match names the artifact and trims ` (` and `)` from the size |
| Pip3.CheckEntry | thoth_user_api/parsing/handlers/pip3.py:82-100 | exactly the entries of that package get the installed version; all others stay as they were |
| Pip3.Installed | thoth_user_api/parsing/handlers/pip3.py:162-167 | every token must contain `-`, else ValueError; the package list is unchanged |
| Pip3.Collected | thoth_user_api/parsing/handlers/pip3.py:129-144 | a Collecting line on the last line raises IndexError; otherwise the dependency is parsed |
| Pip3.Step | thoth_user_api/parsing/handlers/pip3.py:126-170 | one step only appends to the result |
| Pip3.Append | thoth_user_api/parsing/handlers/pip3.py:133-158 | appending keeps the earlier entries |
| Pip3.ScanExtends | thoth_user_api/parsing/handlers/pip3.py:121-172 | the scan's result extends its starting list |
| Pip3.CollectingLastLineFails | thoth_user_api/parsing/handlers/pip3.py:128-144 | a Collecting line as the last line raises IndexError |
| Pip3.OtherLineSkipped | thoth_user_api/parsing/handlers/pip3.py:170 | an unrecognised line is skipped |
| Pip3.Scan | thoth_user_api/parsing/handlers/pip3.py:126-170 | past the last line the result is what was found; the loop never drops an entry |
| Pip3.UnrecognisedSkipped | thoth_user_api/parsing/handlers/pip3.py:126-170 | lines no pattern recognises add nothing |
| Pip3.Run | thoth_user_api/parsing/handlers/pip3.py:121-172 | a log in which no line is recognised yields no dependencies |
| Yum.Heading | thoth/user_api/parsing/handlers/yum.py:41-57 | the heading offset is 0, 1 or 2; 1 exactly when one line's tokens are the five titles; IndexError exactly when the second line is needed but missing |
| Yum.HeadingOneLine | thoth/user_api/parsing/handlers/yum.py:44-57 | a one-line title row gives offset 1 |
| Yum.HeadingTwoLines | thoth/user_api/parsing/handlers/yum.py:49-55 | titles broken across two lines give offset 2 |
| Yum.EpochVersion | thoth/user_api/parsing/handlers/yum.py:92-97 | with an epoch, the version is the non-empty text after a colon; without one, it is the whole field |
| Yum.EpochRoundTrip | thoth/user_api/parsing/handlers/yum.py:92-97 | `D:rest` reads back as epoch D and version rest |
| Yum.NoColonNoEpoch | thoth/user_api/parsing/handlers/yum.py:92-97 | a version without a colon has no epoch |
| Yum.Rows | thoth/user_api/parsing/handlers/yum.py:85-127 | the row scan ends within the input and yields at most one package per line |
| Yum.RowsStep | thoth/user_api/parsing/handlers/yum.py:88-125 | a non-rule line contributes its package exactly when it is a row |
| Yum.RowsAtRule | thoth/user_api/parsing/handlers/yum.py:119-123 | a closing rule ends the table one line past it |
| Yum.RowsEnd | thoth/user_api/parsing/handlers/yum.py:119-127 | the table ends one past the first closing rule, or at the end of input |
| Yum.RowsDependency | thoth/user_api/parsing/handlers/yum.py:87-118 | once set, the dependency flag stays set, and it stays unset without a dependency heading |
| Yum.RowsUpgrading | thoth/user_api/parsing/handlers/yum.py:76-109 | every row carries the table's upgrading flag |
| Yum.RowOfWords | thoth/user_api/parsing/handlers/yum.py:91-110 | a six-word row gives name, arch, version and epoch, repository, and the last two words as size |
| Yum.ParseTable | thoth/user_api/parsing/handlers/yum.py:61-127 | a failed table is `([], 0)`; a parsed one ends within the input; a rule on the last line raises IndexError |
| Yum.TableAt | thoth/user_api/parsing/handlers/yum.py:69-127 | after the heading, a table ends at least three lines later |
| Yum.ParseTableAt | thoth/user_api/parsing/handlers/yum.py:63-69 | a table is parsed from the line after its heading |
| Yum.TableShape | thoth/user_api/parsing/handlers/yum.py:71-83 | without a rule, or without `Installing:` or `Upgrading:`, the table is `([], 0)` |
| Yum.RuleOnLastLine | thoth/user_api/parsing/handlers/yum.py:44-50 | a rule on the last line raises IndexError |
| Yum.NextAsWritten | thoth/user_api/parsing/handlers/yum.py:150 | the index advances by `table_end_idx or 1`, so it always grows |
| Yum.Next | thoth/user_api/parsing/handlers/yum.py:150 | the corrected scan moves to the table's end, and always moves forward |
| Yum.ScanAsWritten | thoth/user_api/parsing/handlers/yum.py:129-154 | the scan ends, and only ever raises IndexError |
| Yum.Scan | thoth/user_api/parsing/handlers/yum.py:129-154 | the corrected scan ends, and only ever raises IndexError |
| Yum.RunAsWritten | thoth/user_api/parsing/handlers/yum.py:129-154 | `run` as written raises only IndexError, and a log without a table rule yields no packages |
| Yum.Run | thoth/user_api/parsing/handlers/yum.py:129-154 | the corrected `run` raises only IndexError, and a log without a table rule yields no packages |
| Yum.ScansSkipPlainLines | thoth/user_api/parsing/handlers/yum.py:146-152 | lines not starting with a rule are skipped by both scans |
| Yum.RuleAtEndRaises | thoth/user_api/parsing/handlers/yum.py:146-148 | a rule as the last line makes both scans raise |
| Yum.ScanResumes | thoth/user_api/parsing/handlers/yum.py:146-150 | after a table the corrected scan resumes at its end; the as-written scan resumes at the index plus the end |
| Yum.TableOfNoRows | thoth/user_api/parsing/handlers/yum.py:61-127 | a heading, rule, `Installing:` and rule make an empty table ending past the second rule |
| Yum.TableOfOneRow | thoth/user_api/parsing/handlers/yum.py:61-127 | with one row in between, the table holds exactly that package |
| Yum.TwoTablesParse | thoth/user_api/parsing/handlers/yum.py:61-127 | a log with an empty table and then a one-row table parses each table on its own |
| Yum.SecondTableSkipped | thoth/user_api/parsing/handlers/yum.py:150 | the as-written scan of that log finds no package |
| Yum.SecondTableFound | thoth/user_api/parsing/handlers/yum.py:129-154 | the corrected scan finds the second table's package |
| Yum.TwoTablesAsText | thoth/user_api/parsing/handlers/yum.py:129-154 | on the same log as one text, `run` as written reports nothing and the corrected one reports the package |

## Left out

- SHA-256 and `json.dumps` (api_v1.py:191) are not modelled. A fingerprint is the key-sorted item list, so the hash is taken to be collision-free. Nested dictionaries are compared by content.
- Callback secrets (api_v1.py:116-186) and the synchronous `requests.post` (api_v1.py:672) are recorded as `Registered` and `Forwarded` events. Secret generation, base64 and HTTP are left out.
- Foreign parsers are function-typed parameters: `Project.from_strings`, `RuntimeEnvironment.from_dict` and `Constraints.from_string`. Their outputs are inputs, not checked.
- Graph-database queries are left out: package and container listings, package metadata, dependencies, environments and imported packages. Only the pagination arithmetic of two listings and the argument checks of the dependency query are modelled. `get_analyze_by_hash` is a single store read and is left out.
- The graph-database writes of `_install_event`/`_remove_event` become `GraphEffect` events. Their caught exceptions and logging are left out.
- Configuration comes from the environment. It is a `Config` value, with `THOTH_CACHE_EXPIRATION` fixed at its default of 10800 seconds.
- `page_count = ceil(entries / per_page)` goes through floating point in the source. Pagination.PageCount uses exact integer ceiling, which differs only for entry counts beyond 2^53.
- The URL text of prev/next links (`request.path`, `urlencode`) is not modelled, only the page numbers they carry.
- The id `BuildLogsStore` assigns is an `Env` input. `OpenShift.generate_id` is its prefix, a dash and an input suffix.
- Pip3's regular expressions and ANSI-escape removal are the `Patterns` parameter. Only the epoch pattern of yum is modelled directly. Yum's `_RE_DEPENDENCY` is unused in the source.
- Url.Parse follows `urlparse` for what `initialize_repo` depends on: scheme, netloc, path and the bracket check. It leaves out the legacy-scheme port rule and the NFKC netloc check.
- HTTP header names are a lookup function. Their case-insensitivity is whatever that function does.
- Metrics: the counters are modelled, but `MetricsValues` is not called from api_v1.py, so no handler updates them.
- exceptions.py does not define the image error classes the code imports. Image uses one error datatype with a variant per class named in api_v1.py. image.py raises `ImageAuthenticationRequired` and api_v1.py catches `ImageAuthenticationRequiredError`; both are taken as the same class.
- Concurrency (two requests racing on one cache key) and logging are not modelled.
- Pagination.ContainerImagesPage keeps the source's use of `per_page` where the page count belongs (see Findings), because that is what the listing does.
- Digest.SortReport: a list of two or more lists is reported as TypeError, where Python compares lists element by element, because list ordering is not modelled. Floats are not modelled at all.
- Digest.PySorted: the same narrowing as Digest.SortReport for lists of lists.
- Advise.Upper: maps only the ASCII letters, where Python's `str.upper` also maps other cased letters (`é` to `É`, `ß` to `SS`), because the Unicode case tables are not modelled.
- PyRepr.Repr: characters from U+0100 on that `str.isprintable` rejects (U+200B, unassigned code points) are kept as they are, where CPython writes `\u` or `\U` escapes, because the Unicode character database is not modelled.
- Dispatch.TokenGate: the handlers use the gate as intended, with the token as a `Config` field. As written the configuration has no such attribute, so any supplied token raises AttributeError; Dispatch.TokenGateAsWritten models that (see Findings).
- Metrics.Initial states that the sum is zero. The counters are natural numbers, so each of the four is zero.

## Findings

| source | as written | input that shows it | evidently intended | confidence | as-written member | corrected member |
|---|---|---|---|---|---|---|
| thoth/user_api/parsing/handlers/yum.py:150 (and thoth_user_api/parsing/handlers/yum.py:116) | `index += table_end_idx or 1` adds the absolute end index returned by `_parse_yum_table` to the current index | a log whose first table starts at line 6 and ends at 11, with a second table at lines 11-17: the scan jumps to 17 and never reads the second table | continue at `table_end_idx`, the line after the table | not executed | Yum.SecondTableSkipped | Yum.SecondTableFound |
| thoth/user_api/api_v1.py:236 | `parameters.get("runtime_environment") or "runtime"` reads a key `post_analyze` never has | `environment_type="buildtime"`: the analysis is requested and cached as `runtime` | use the `environment_type` argument, defaulting to `runtime` | not executed | Analyze.EnvironmentTypeDiscarded | Analyze.EnvironmentTypeKept |
| thoth/user_api/image.py:55 | credentials are pasted into the shell command unescaped (the source's own TODO) | password `p --tls-verify=false` with verification on gives the same command as password `p` with verification off | quote the user and password so every request gives its own command | not executed | Image.CredentialsInjectOptions | Image.QuotedCommandInjective |
| thoth/user_api/api_v1.py:375 | `_compute_prev_next_page(page, per_page)` passes the page size as the page count | 10 entries, 25 per page, page 0: there is one page, but a next link is offered | pass `page_count`, as `list_python_packages` does at line 816 | not executed | Pagination.ContainerImagesNextPastEnd | Pagination.PackagesNextHasEntries |
| thoth/user_api/api_v1.py:445 (and :572) | `Configuration.API_TOKEN != token` reads an attribute the configuration class never declares | any provenance or advise request that carries a `token`, even the right one: AttributeError instead of a token check | compare the token with a configured API token | not executed | Dispatch.SuppliedTokenRaises | Dispatch.TokenGate |
