# check_cachet — a Dafny model

`check_cachet.py` is a Nagios plugin for Cachet status pages. It fetches the
page at a URL, walks the page's `li` elements, and keeps those that carry
both component classes (`list-group-item` and `sub-component`). Each kept
component gets a code from the status class of its `small` badge:

- `status-1` and `greens` mean OK;
- `status-2`, `yellows`, `blues` and `status-3` mean WARNING;
- `status-4`, `status-5` and `reds` mean CRITICAL.

The plugin then exits with the largest code found. It prints one line per
non-empty tier, in the order UNKNOWN, CRITICAL, WARNING, OK, e.g.
`CRITICAL: API: Major Outage`. A page with no components gives exit code
UNKNOWN (3) with an "Unable to parse" line.

The project is split into modules that follow the program's structure:

- `wrappers.dfy` (`Wrappers`): `Option` and `Result`.
- `text.dfy` (`Text`): the parts of Python's string handling the plugin uses.
  - `str.strip()` with Python's whitespace set.
  - `sep.join(parts)`.
  - The four-character prefix `url[:4]`.
- `status.dfy` (`Status`): the exit codes, the status class table, the key
  list `status_list`, the marker classes, and the tier labels.
- `probe.dfy` (`Probe`): the `li` elements as values and the probe's
  extraction loop as pure functions.
  - Which items are component entries.
  - How one badge resolves to a code.
  - How an entry's description is built.
  - Which item ends the loop with an exception.
- `report.dfy` (`Report`): `run()` after the probe.
  - The placeholder when nothing was found.
  - The maximum exit code.
  - The four buckets and the report lines.
  - A method that builds the report the way the source does and is proved
    equal to the pure report text.
- `check_cachet.dfy` (`Plugin`): the program itself.
  - URL normalisation.
  - The class `CheckCachet`, with the probe loop as a method proved against
    the pure extraction.
  - `Run`.
  - The as-written model of the non-200 branch (see Findings).

The probe loop stops at the first malformed component entry, raising in
Python. The model returns `Failure(Fault(index, kind))` for the first such
item in document order. The three kinds are:

- `MissingBadge`: `item.small` is `None`, which raises `AttributeError`.
- `BadgeWithoutClass`: `small.get('class')` is `None`, so `set(None)` raises `TypeError`.
- `NoStatusClass`: no class of the badge is in the table, so `class_status[0]` raises `IndexError`.

## Model

| member | source | states |
|---|---|---|
| Text.StripLeftSpec | check_cachet.py:51-52 | the left strip is a suffix of the input, everything dropped is whitespace, and it does not start with whitespace |
| Text.StripRightSpec | check_cachet.py:51-52 | the right strip is a prefix of the input, everything dropped is whitespace, and it does not end with whitespace |
| Text.StripSpec | check_cachet.py:51-52 | `strip()` yields the contiguous slice of the input between its leading and trailing whitespace, and that slice neither starts nor ends with whitespace |
| Text.StripIdempotent | check_cachet.py:51-52 | stripping twice gives the same as stripping once |
| Text.StripUnchanged | check_cachet.py:51-52 | a text with no whitespace at either end is left unchanged by `strip()` |
| Text.JoinLength | check_cachet.py:95-104 | the length of `sep.join(parts)` is the sum of the part lengths plus one separator between each pair of neighbouring parts |
| Text.JoinAppend | check_cachet.py:95-104 | joining a list with one more part appends the separator and that part to the previous join |
| Text.FirstFour | check_cachet.py:78 | `s[:4]` has length `min(len(s), 4)` and is a prefix of `s` |
| Text.FirstFourIsPrefix | check_cachet.py:78 | for a four-character `p`, `s[:4] == p` exactly when `s` starts with `p` |
| Status.StatusListIsKeys | check_cachet.py:17-31 | `status_list` holds each key of the status table exactly once and nothing else |
| Status.TagCode | check_cachet.py:17-27 | a known badge class maps to OK, WARNING or CRITICAL, never UNKNOWN |
| Status.TableCodes | check_cachet.py:17-27 | each of the nine classes maps to the code the table lists for it |
| Status.TierName | check_cachet.py:95-102 | every tier has a non-empty label |
| Probe.CandidateIff | check_cachet.py:43-47 | the size-2 intersection test holds exactly when `class` is present and contains both `list-group-item` and `sub-component`, whatever other classes it has |
| Probe.ResolveTag | check_cachet.py:54-58 | the chosen tag exists exactly when some badge class is a known status; it is a known status class of the badge, and no earlier class of the badge is known |
| Probe.Describe | check_cachet.py:51-62 | the description starts with the stripped item text; it is exactly that text iff the code is OK, and otherwise it continues with `": "` and the stripped badge text |
| Probe.ClassifySpec | check_cachet.py:43-64 | an item is skipped iff it is not a component entry, is kept iff it is a well-formed component entry, and a kept entry's code is OK, WARNING or CRITICAL |
| Probe.Accepted | check_cachet.py:40-66 | the loop returns at most one entry per item, and every entry's code is OK, WARNING or CRITICAL |
| Probe.Candidates | check_cachet.py:41-47 | the items that pass the class filter are component entries of the page, and there are no more of them than items |
| Probe.CandidatesComplete | check_cachet.py:41-47 | every component entry of the page passes the class filter, so the filter keeps nothing exactly when the page has no component entry |
| Probe.FirstCrash | check_cachet.py:41-66 | there is no fault iff no item breaks the loop; otherwise the fault names an item that breaks it, its kind, and no earlier item breaks it |
| Probe.ExtractStep | check_cachet.py:41-66 | past a prefix without faults, the next item either extends the returned entries by its own entry (or by nothing) or ends the whole extraction with its fault |
| Probe.ExtractSucceedsIff | check_cachet.py:41-66 | extraction succeeds exactly when every component entry has a badge with a class list naming a known status |
| Probe.AcceptedConcat | check_cachet.py:41-66 | the entries of two pages' items put together are the entries of each, in document order |
| Probe.NonCandidateIgnored | check_cachet.py:44-47 | inserting an item that is not a component entry leaves the returned entries unchanged |
| Probe.AcceptedMatchesCandidates | check_cachet.py:41-66 | when nothing breaks off there is exactly one entry per component entry, in document order, and it is that item's classification |
| Probe.CriticalExample | check_cachet.py:43-64 | a component entry `API` whose badge has class `status-4` and text `Major Outage` becomes the CRITICAL entry `API: Major Outage` |
| Probe.CriticalTag | check_cachet.py:54-59 | the badge class list `[status-4]` resolves to `status-4`, which stands for CRITICAL |
| Probe.CriticalDescription | check_cachet.py:51-62 | a CRITICAL item with text `API` and badge text `Major Outage` is described as `API: Major Outage` |
| Report.Padded | check_cachet.py:84-85 | the aggregated list is never empty, and it is the probe's list whenever that is non-empty |
| Report.MaxCode | check_cachet.py:87 | the exit code is the code of some entry and no entry has a larger one |
| Report.DescriptionsEmptyIff | check_cachet.py:89-92 | a bucket is empty exactly when no entry has its code |
| Report.DescriptionsConcat | check_cachet.py:89-92 | bucketing preserves entry order across concatenation |
| Report.EveryEntryInOneTier | check_cachet.py:89-92 | when every code is one of the four exit codes, the four bucket sizes add up to the number of entries |
| Report.TierLinesInOrder | check_cachet.py:94-102 | the report lines are the UNKNOWN, CRITICAL, WARNING and OK lines, in that order, each present only when its bucket is non-empty |
| Report.TierLinesPrefix | check_cachet.py:94-102 | taking one more tier appends exactly that tier's line, or nothing |
| Report.TierLinesConcat | check_cachet.py:94-102 | the lines for two tier lists put together are the lines of each, in order |
| Report.LabelledLine | check_cachet.py:95-102 | a tier line is its label, `": "` and the bucket joined with `", "`, and the four labels are `UNKNOWN: `, `CRITICAL: `, `WARNING: ` and `OK: ` |
| Report.OtherSlotsLackLine | check_cachet.py:94-102 | one tier's line never appears among another tier's lines |
| Report.TierLinesDiffer | check_cachet.py:94-102 | the lines of two different tiers are different |
| Report.TierLinePresentIff | check_cachet.py:89-102 | a tier's line is in the report exactly when some entry has that tier's code |
| Report.ReportHasALine | check_cachet.py:84-102 | after padding, the report always has at least one line |
| Report.UnknownIffNothingFound | check_cachet.py:84-87 | with probe codes in OK..CRITICAL, the exit code is a valid exit code, and it is UNKNOWN exactly when the probe found nothing |
| Report.PlaceholderBuckets | check_cachet.py:84-92 | the lone placeholder fills the UNKNOWN bucket only |
| Report.NothingFoundReport | check_cachet.py:84-104 | with no entries, the exit code is UNKNOWN and the report is the single line `UNKNOWN: Unable to parse "<url>".` |
| Report.MixedBuckets | check_cachet.py:89-92 | for entries (OK,A), (CRITICAL,B), (OK,C) the buckets are CRITICAL `[B]` and OK `[A, C]`, with the others empty |
| Report.MixedExample | check_cachet.py:87-104 | entries (OK,A), (CRITICAL,B), (OK,C) give exit code CRITICAL and the text `CRITICAL: B` newline `OK: A, C` |
| Report.BuildReport | check_cachet.py:84-104 | the method's exit code and text are the maximum code and the report text of the padded entries |
| Report.FormatReport | check_cachet.py:89-104 | the four buckets and four conditional appends produce exactly the report text |
| Report.AppendTier | check_cachet.py:94-102 | one conditional append extends the lines of the earlier tiers by exactly the current tier's line, or by nothing |
| Plugin.NormalizeUrl | check_cachet.py:77-79 | the normalised URL starts with `http`; a URL that already did is unchanged, and any other gets `https://` in front |
| Plugin.NormalizeIdempotent | check_cachet.py:77-79 | normalising twice is the same as normalising once |
| Plugin.CheckCachet.constructor | check_cachet.py:29-31 | the checker keeps the given URL; its status list, which the probe resolves badge classes against, is the table's key list |
| Plugin.CheckCachet.Probe | check_cachet.py:33-66 | on a 200 page the loop returns exactly the pure extraction: the first fault, or all entries in document order; on a non-200 status it returns the corrected one-entry UNKNOWN list of the Findings row |
| Plugin.CheckCachet.Inspect | check_cachet.py:43-64 | the loop body for one `li` gives exactly that item's classification (skip, entry or fault) |
| Plugin.Run | check_cachet.py:77-105 | a run of the normalised URL passes on the probe's fault, or else yields the maximum code and the report text of the padded entries; on a non-200 status this is the corrected behaviour of the Findings row |
| Plugin.FetchedPageCode | check_cachet.py:35-87 | on a 200 page that extracts, the exit code is a valid code, and it is UNKNOWN exactly when the page has no component entry |
| Plugin.RequestFailureIsUnknown | check_cachet.py:35-36 | with the corrected non-200 branch, the run exits UNKNOWN with the single line `UNKNOWN: Unable to request url "<url>"` |
| Plugin.RequestFailureCrashesAsWritten | check_cachet.py:35-36 | as written, every non-200 response makes the run fail when it indexes an integer; on 200 responses the as-written run and the corrected run agree |

## Left out

- The HTTP request (`requests.get`, its ten-second timeout, network errors)
  is not modelled. A `Response` carries the HTTP status and the page's `li`
  elements instead. The `int(...)` conversion of the status is not modelled.
- HTML parsing with BeautifulSoup/lxml is not modelled either: no
  `find_all('li')`, no `get_text()`.
  - Each `li` is given as its `class` attribute (absent or a list), its
    first `small` descendant, and its text with the badge detached.
  - A badge is given as its `class` attribute and its text.
  - `extract()` removes the badge from the tree. `find_all('li')` yields an
    enclosing `li` before the `li` elements nested in it, so when the
    enclosing item's first `small` lies inside a nested `li`, that nested
    `li` has lost its badge by the time the loop reaches it. The model
    takes each item's badge as given and does not capture this.
- Probe.ResolveTag: when a badge carries several known status classes,
  Python picks the first element of a set intersection, whose order is
  hash-dependent. The model picks the first such class in the badge's own
  order. The "multiple status class found" message is output and is not
  modelled.
- Python's `print`, `sys.exit` and `argparse` are left out.
  - `Run` returns the exit code and the text.
  - A missing `-u` argument is not modelled.
  - `-w` and `-c` are parsed but never used by the program, so they are
    left out.
- An uncaught exception makes Python print a traceback and exit with
  status 1. The model returns the `Fault` and does not model that exit
  status.
- `str.isspace()` is modelled by listing its code points explicitly. No
  Unicode database is consulted.
- Where the documented behaviour and the code disagree, the model follows
  the code, except for the non-200 branch of the Findings row:
  - A malformed component entry ends the run with an exception; it is not
    skipped.
  - A badge whose classes name no known status is a `NoStatusClass` fault,
    not a precondition.
- Plugin.CheckCachet.Probe: on a non-200 status it returns the corrected
  value, a list holding the one UNKNOWN entry, and not the bare pair the
  code returns. The as-written branch is `Plugin.ProbeAsWritten`.
- Plugin.Run: on a non-200 status it reports UNKNOWN with the
  request-failure line. The code instead raises `TypeError` when taking
  the maximum code. The as-written run is `Plugin.RunAsWritten`, and
  `Plugin.RequestFailureCrashesAsWritten` proves that it fails there.
- Status.TierName: its own contract states only that a label is non-empty.
  The four literal labels are stated by Report.LabelledLine.

## Findings

| source | as written | input that shows it | evidently intended | confidence | as-written member | corrected member |
|---|---|---|---|---|---|---|
| check_cachet.py:35-36 | on a non-200 status, `probe()` returns the bare pair `(STATUS_UNKNOWN, msg)`; `run()` sees a non-empty value, and `max([x[0] for x in items])` evaluates `3[0]`, raising `TypeError` | any response with HTTP status 503 | a list holding the one UNKNOWN entry, so the plugin exits UNKNOWN with `UNKNOWN: Unable to request url "<url>"` | high, not executed | Plugin.RequestFailureCrashesAsWritten | Plugin.RequestFailureIsUnknown |
