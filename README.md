# delivery-tracker: the run's selection and summary logic in Dafny

`delivery-tracker` is a scheduled script. One run does these steps in order:

1. It lists the deliveries in transit from a delivery API.
2. It looks up each delivery's tracking code on a parcel-tracking site.
3. It marks as completed every delivery whose status is `DELIVERED`.
4. It posts a summary to a Slack webhook.

Most of the script is I/O glue. This project models the two pure parts that sit between the I/O calls. The I/O results become plain inputs.

- **Selection** (`bootstrap`, `src/index.js`). The deliveries are projected to their tracking codes. The cuids (delivery ids) of the deliveries whose code maps to `DELIVERED` are picked out. The steps run in a fixed order, and each step feeds the next (module `Bootstrap`).
- **Summary** (`NotificationService`, `src/modules/notifications/notification.service.js`). The constructor checks its configuration (module `Notification`). `notify` builds the message:
  - the status map's entries counted by status (lodash `countBy` then `toPairs`, module `Lodash`);
  - one line per completed delivery, with the code put into the tracking URL template by `String.prototype.replace` (module `JsStrings`);
  - a fixed layout joined with `'\n'`.
  Then `notify` posts the message and returns it together with the webhook's response.

Representation choices:

- The tracker's JavaScript `Map` is kept as its entries in insertion order (`Deliveries.StatusMap`). Counting by status depends on that order. `Deliveries.Keyed` turns the entries into the Dafny `map` that `statuses.get` consults. The tracker's answer holds each code once (`Deliveries.JsMap`).
- Status values are strings. `PackageStatuses.DELIVERED` is taken to be `"DELIVERED"`, the text the summary prints for it.
- The package-tracker module is not part of this model.
- The formatted date is the `today` input.
- The webhook post is the `send` input. The delivery API and the tracker are fields of `Bootstrap.Services`. Each of these calls returns a value or a failure reason.
- `process.env.TRACKING_URL` and `process.env.SLACK_WEBHOOK_URL` are `Bootstrap.Env`: a string, or `undefined` when the variable is unset.

The array that `notify` joins has five fixed elements around the count lines and the completed lines. So it has 5 + (number of count lines) + `completed.length` elements.

## Model

| member | source | states |
|---|---|---|
| `Bootstrap.TrackingCodes` | src/index.js:30 | the tracking codes list has one element per delivery, and element i is delivery i's code |
| `Bootstrap.DeliveredOnly` | src/index.js:41 | the filter keeps at most all deliveries, and every delivery it keeps is a fetched one whose code maps to `DELIVERED` |
| `Bootstrap.Cuids` | src/index.js:40 | `map('cuid')` yields one cuid per delivery, in order |
| `Bootstrap.IsDelivered` | src/index.js:41 | `statuses.get(code) === DELIVERED`, a missing code reading as `undefined`; `DeliveredIffEntry` states that over the tracker's map it holds iff the entry (code, `DELIVERED`) is present |
| `Bootstrap.SelectedCuids` | src/index.js:39-42 | `compose(map('cuid'), filter(...))`: never more cuids than deliveries, and a cuid is selected iff some fetched delivery with that cuid has a code whose status is `DELIVERED`; `SelectionSpec` adds the positions and their order |
| `Bootstrap.DeliveredPositionsSpec` | src/index.js:39-42 | the reference positions are ascending, in range, and hold exactly the indices whose code maps to `DELIVERED` |
| `Bootstrap.SelectionSpec` | src/index.js:39-42 | the selected cuids are the cuids at ascending positions (a subsequence, never longer than the deliveries); an index is selected iff its code is in the map with value `DELIVERED`, so a missing code or any other status is excluded |
| `Bootstrap.NothingSelected` | src/index.js:39-44 | the cuid list passed to completion is empty iff no delivery's code maps to `DELIVERED` |
| `Bootstrap.SameCodeSameFate` | src/index.js:41 | two deliveries with the same tracking code are both selected or both excluded |
| `Bootstrap.SelectedWithinFetched` | src/index.js:39-44 | as a multiset, the cuids sent to completion are contained in the fetched deliveries' cuids |
| `Bootstrap.DeliveredIffEntry` | src/index.js:36-42 | over the tracker's map, `statuses.get(code) === DELIVERED` holds iff the entry (code, `DELIVERED`) is in the map |
| `Bootstrap.EnvValue` | src/index.js:23-24 | an environment variable reads as a string exactly when it is set |
| `Bootstrap.Bootstrap` | src/index.js:10-49 | the finished steps are always a prefix of configure, fetch, extract, resolve, filter, complete, notify; the run succeeds iff all finished; a failure names the next step, which is one that calls out; configuration, fetching, tracking, completion and the post each let the run go on exactly when their call succeeds, and otherwise the run fails with that call's own error; on success, the tracker got the fetched codes, completion got the selected cuids, and the webhook got the message built from the same deliveries and statuses and the completion's answer |
| `Bootstrap.AsWrittenConfigurationAlwaysFails` | src/index.js:22-26 | with the constructor as written, every environment makes construction throw on `slackWebhookUrl` |
| `Bootstrap.ConfigurationSucceedsWhenSet` | src/index.js:22-26 | with the corrected constructor, the first step finishes iff both variables are set |
| `Bootstrap.RunCountsMatchMapSize` | src/index.js:36-47 | in a finished run the summary's counts add up to the size of the tracker's map, because the map holds each code once |
| `Bootstrap.TwoDeliveriesScenario` | src/index.js:22-47 | a run over two fetched deliveries, with T1 `DELIVERED` and T2 `IN_TRANSIT`, succeeds and completes only `c1`; the posted message joins eight lines, among them `DELIVERED - 1 packages`, `IN_TRANSIT - 1 packages` and `Cuid: c1 - Book - ` followed by T1's tracking link |
| `Notification.NewNotificationService` | src/modules/notifications/notification.service.js:15-21 | construction succeeds iff `slackWebhookUrl` is a non-null object and `trackingUrl` a string; the first failed check names its argument and expected type; on success the template is kept |
| `Notification.ConstructorRejectsUrlString` | src/modules/notifications/notification.service.js:16 | a webhook URL given as a string is always rejected by `assert.object` |
| `Notification.NewNotificationServiceCorrected` | src/modules/notifications/notification.service.js:16-17 | with `assert.string` for the webhook URL, construction succeeds iff both arguments are strings |
| `Notification.CountLines` | src/modules/notifications/notification.service.js:31-35 | one count line per `[status, count]` pair, each of the form `<status> - <count> packages` |
| `Notification.StatusCounts` | src/modules/notifications/notification.service.js:31-35 | each `[status, count]` pair counts the entries with that status, at least 1, and the counts add up to the number of entries; `StatusCountsSpec` adds distinctness and first-occurrence order |
| `Notification.CountLine` | src/modules/notifications/notification.service.js:32 | `<status> - <count> packages`, the count written by `NatToString`, which `ParseNatToString` reads back; `CountLinesSingle` shows it stays on one line when the status does |
| `Notification.StatusCountsSpec` | src/modules/notifications/notification.service.js:31-35 | one pair per distinct status value, with no repeats; ordered by first occurrence among the map's entries; each count is the status's number of entries and at least 1; the counts sum to the number of entries, which is the map's size |
| `Notification.CompletedLines` | src/modules/notifications/notification.service.js:37 | one line per completed delivery, in order, each `Cuid: <cuid> - <item name> - <link>` |
| `Notification.CompletedLine` | src/modules/notifications/notification.service.js:37 | `Cuid: <cuid> - <item name> - <link>`; `CompletedLinesSingle` shows it stays on one line when its inputs do |
| `Notification.TrackingLink` | src/modules/notifications/notification.service.js:37 | the template with its first `{trackingCode}` replaced; `TrackingLinkNoPlaceholder` and `TrackingLinkFirstPlaceholder` state both cases |
| `Notification.TrackingLinkNoPlaceholder` | src/modules/notifications/notification.service.js:37 | a template without `{trackingCode}` is returned unchanged |
| `Notification.TrackingLinkFirstPlaceholder` | src/modules/notifications/notification.service.js:37 | only the first `{trackingCode}` is replaced by a `$`-free code; later placeholders are kept |
| `Notification.MessageLayout` | src/modules/notifications/notification.service.js:39-47 | the joined array is the date line, the in-transit line, the 17track line, the count lines, an empty line, the completion header, then the completed lines: five lines besides the count lines and the `completed.length` completed lines |
| `Notification.MessageLines` | src/modules/notifications/notification.service.js:39-47 | the array `notify` joins; `MessageLayout` states it element by element |
| `Notification.Message` | src/modules/notifications/notification.service.js:39-47 | the array joined with `'\n'`; `MessageDisplay` shows that splitting it at `'\n'` gives back the displayed lines |
| `Notification.MessageDisplay` | src/modules/notifications/notification.service.js:39-47 | when no input text holds a line break, splitting the message at `'\n'` gives exactly the displayed lines, with the blank lines the trailing `\n`s add |
| `Notification.Notify` | src/modules/notifications/notification.service.js:30-55 | `notify` succeeds iff the post succeeds; the returned message is the composed one and is exactly what was posted; the response is the post's; a failed post is passed on |
| `Lodash.CountBySpec` | src/modules/notifications/notification.service.js:31-35 | `toPairs(countBy(...))` gives the distinct keys in first-occurrence order, each with its number of occurrences (at least 1), and the counts sum to the number of elements |
| `Lodash.CountBy` | src/modules/notifications/notification.service.js:31-35 | `toPairs(countBy(...))` as a fold of `Bump` over the elements; `CountBySpec` states its pairs, order and counts |
| `Lodash.Bump` | src/modules/notifications/notification.service.js:31-35 | one more element with key `k`: `BumpKeys` keeps the keys when `k` is among them and appends `k` otherwise, `BumpCounts` raises only `k`'s count, by one, and `BumpSum` raises the total by one |
| `Lodash.DistinctProperties` | src/modules/notifications/notification.service.js:31-35 | the distinct keys have no repeats, are exactly the keys that occur, and are ordered by first occurrence |
| `Lodash.CountByKeys` | src/modules/notifications/notification.service.js:31-35 | the pairs' keys are exactly the distinct keys in first-occurrence order |
| `Lodash.CountByCounts` | src/modules/notifications/notification.service.js:31-35 | each pair's count is its key's number of occurrences |
| `Lodash.CountBySum` | src/modules/notifications/notification.service.js:31-35 | the counts add up to the number of elements counted |
| `Lodash.FirstIndex` | src/modules/notifications/notification.service.js:31-35 | the first-occurrence position is in range, holds the key, and no earlier position holds it |
| `Deliveries.StatusValues` | src/modules/notifications/notification.service.js:34-35 | `countBy('1')` over `Array.from(statuses)` reads each entry's status, in entry order |
| `Deliveries.Keyed` | src/index.js:41 | the map `statuses.get` reads; `KeyedLookup`, `KeyedDomain` and `KeyedSize` state its lookups, its keys and its size |
| `Deliveries.KeyedLookup` | src/index.js:41 | `statuses.get(code)` gives `s` iff (code, s) is an entry of the map |
| `Deliveries.KeyedDomain` | src/index.js:41 | `statuses.get(code)` is defined iff some entry has that code |
| `Deliveries.KeyedSize` | src/modules/notifications/notification.service.js:31-35 | a map with unique keys has as many keys as entries |
| `JsStrings.NatToString` | src/modules/notifications/notification.service.js:32 | `${n}` for a count is a non-empty string of decimal digits with no leading zero |
| `JsStrings.ParseNatToString` | src/modules/notifications/notification.service.js:32 | reading the rendered digits back gives the count |
| `JsStrings.NatToStringInjective` | src/modules/notifications/notification.service.js:32 | different numbers render differently |
| `JsStrings.IndexOfFrom` | src/modules/notifications/notification.service.js:37 | the search finds the first occurrence at or after the start, or reports that there is none |
| `JsStrings.Substitution` | src/modules/notifications/notification.service.js:37 | the replacement with `$$`, `$&`, `` $` `` and `$'` expanded; `SubstitutionLiteral` shows a `$`-free one is inserted as is |
| `JsStrings.ReplaceFirst` | src/modules/notifications/notification.service.js:37 | `String.prototype.replace` with a string pattern; `ReplaceFirstNoMatch`, `ReplaceFirstAt`, `ReplaceFirstLiteral` and `ReplaceFirstAvoids` state what it returns |
| `JsStrings.SubstitutionLiteral` | src/modules/notifications/notification.service.js:37 | a replacement without `$` is inserted verbatim |
| `JsStrings.ReplaceFirstNoMatch` | src/modules/notifications/notification.service.js:37 | `replace` returns a string without the pattern unchanged |
| `JsStrings.ReplaceFirstAt` | src/modules/notifications/notification.service.js:37 | `replace` rewrites only the first occurrence, with `$$`, `$&`, `` $` `` and `$'` expanded; the text after the match is kept as is |
| `JsStrings.ReplaceFirstLiteral` | src/modules/notifications/notification.service.js:37 | with a `$`-free replacement, the first occurrence is swapped for it |
| `JsStrings.ReplaceFirstAvoids` | src/modules/notifications/notification.service.js:37 | `replace` brings in no character that neither the string nor the replacement has |
| `JsStrings.Join` | src/modules/notifications/notification.service.js:39-47 | `Array.prototype.join`; `JoinAppend`, `SplitJoinAll` and `SplitJoin` state how it splits back |
| `JsStrings.JoinAppend` | src/modules/notifications/notification.service.js:39-47 | joining a concatenation is joining the halves around one separator |
| `JsStrings.SplitJoinAll` | src/modules/notifications/notification.service.js:39-47 | splitting a joined text at the separator gives the pieces of the parts, in order |
| `JsStrings.SplitJoin` | src/modules/notifications/notification.service.js:39-47 | joining parts that lack the separator can be undone by splitting |

## Findings

| source | as written | input that shows it | evidently intended | confidence | as-written member | corrected member |
|---|---|---|---|---|---|---|
| src/modules/notifications/notification.service.js:16 | `assert.object(slackWebhookUrl)` requires a non-null object. `bootstrap` passes `process.env.SLACK_WEBHOOK_URL` (src/index.js:23), which is a string or `undefined`. | `SLACK_WEBHOOK_URL=https://hooks.slack.com/services/x`: `assert.object` throws, and the run stops before fetching anything | `assert.string(slackWebhookUrl)`. The JSDoc at line 12 types the argument as `{String}`, and `IncomingWebhook` takes a URL string | high; not executed | `Bootstrap.AsWrittenConfigurationAlwaysFails` | `Notification.NewNotificationServiceCorrected` |

`Bootstrap.Bootstrap` uses the corrected constructor. That lets the model describe the steps after configuration.

## Left out

- `DeliveryService` and `PackageTrackerService`, with their constructors (src/index.js:11-20), are not part of this model. Their source is not available, and they do HTTP calls and HTML scraping. Their results are the `inTransit`, `track` and `complete` fields of `Bootstrap.Services`. So the model does not cover status normalisation, per-code failure isolation, or the behaviour of `completeDeliveries` on an empty list.
- The webhook (`new IncomingWebhook(...)` and `send`, notification.service.js:20 and 49) is network I/O through a library. It is the `send` parameter. The stored webhook URL is kept but not used.
- The date (`format(new Date(), 'DD MMMM YYYY')`, notification.service.js:40) depends on the clock. It is the `today` input.
- The `TRACKED` event subscription and every `logger.info` call (src/index.js:29, 32-34, 37, 45, 48) only log.
- The other environment variables (src/index.js:12-14, 19) configure only the services left out above.
- `async`/`await`: the run is sequential. It is modelled as one function whose steps run one after another.
- assert-plus turns every check into a no-op when `NODE_NDEBUG` is set. The model always applies the checks.
- A JavaScript object lists integer-like string keys (`"0"`, `"1"`, …) first, in numeric order. `toPairs` would list such status values ahead of the others. The model keeps first-occurrence order for every key, which is right for status names.
- JsStrings.NatToString: does not model the exponent notation JavaScript uses for numbers of 10^21 and above, because no count of deliveries or map entries reaches that.
- JavaScript strings are UTF-16 code units and Dafny strings are characters. No modelled operation depends on the difference.
