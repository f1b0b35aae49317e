# Login-attempt collector of the OpenShift audit exporter, in Dafny

The OpenShift audit exporter is a Prometheus exporter. One of its scrapers,
`ScrapeLogginAttempts`, reads the logs of the pods in the
`openshift-authentication` namespace. It extracts every successful and every
failed login with four regular expressions, two for the htpasswd provider and
two for OAuth providers. Each pattern captures the provider in group 1 and the
user in group 2. The scraper counts the logins per (group 1, group 2) pair and
reports the counts as two counters,
`openshift_audit_login_attempts_successful` and
`openshift_audit_login_attempts_failed`. Both counters have the labels
`auth_provider` and `user`.

One scrape cycle has these steps:

1. It obtains the Kubernetes configuration and client and lists the pods. An
   error in any of these ends the cycle.
2. It fetches each pod's log. A failed fetch gives an empty log.
3. For each pod and each of the four patterns, it builds a partial
   aggregate: a nested map from group 1 to group 2 to a count. It sends the
   partial into the success channel or the failed channel. Each channel has
   room for four partials per pod and receives two per pod.
4. Per channel, it merges the partials into one aggregate.
5. It emits one counter observation per stored pair of the merged aggregate.

The project has six modules:

- `Wrappers` holds `Option` and `Result`.
- `Sums` sums the values of a finite map.
- `Extraction` covers `getLoginMatchesByRegex` and `countLogsByRegex`. The
  regular-expression engine is a function parameter, `Matcher`.
- `Aggregation` holds the `LoginAttempts` class, with `addAttempt`,
  `getUserList`, `getProviderList` and `countLoginAttempts`, and
  `loginMatchesToLoginAttempts`. Each operation has a value-level
  specification on `map<string, map<string, int>>`.
- `Emission` covers `pushLoginAttemptsIntoMetricsChannel`, modelled as its
  two loops: the merge and the emission.
- `Scraper` holds the patterns, the descriptors, `Name`/`Help`/`Version`,
  `getLoginActions` and `Scrape` over an abstract `Cluster`.

### How the code behaves, and how the model reads it

- **Key order.** `addAttempt(user string, provider string)`
  (collector/log_attempts.go:68) and the comment "User: 0; Provider: 1" at
  :205 name the first-level key the user. But every caller passes capture
  group 1 first, and in all four patterns group 1 is the provider. The first
  level therefore holds providers, and the emission puts it into the
  `auth_provider` label. The model calls the keys `key1` and `key2`.
- **The merge is not an exact sum.** The comment on `LoginAttempts` at :63
  says it counts "how many login attempts were performed by each user and
  each provider". The merge loop at :215-225 walks every first-level key of
  a partial against the partial's whole provider list. That list holds a
  second-level key once for each first-level key that stores it. A
  partial's count of `(key1, key2)` is therefore added once for every
  first-level key of that partial under which `key2` is stored.
  - `Emission.MergedCount` is the merge as written.
  - `Emission.MergeOverCountsSharedKey2` gives the smallest input that shows
    the over-count.
  - `Emission.MergeExactWithoutSharedKey2` and
    `Emission.SingleIncrementsMergeToTheirNumber` give the conditions under
    which the merge is exact.
- **Only stored pairs are emitted.** The loops at :228-238 send one
  observation for each pair stored in the merged aggregate.
- **`countLoginAttempts`** (:105-112) lets its lookup run only when the
  first-level key is missing, where the inner lookup always misses. It
  therefore always returns 0. The model keeps it as written and proves that
  it returns 0.
- **Map order.** Go leaves the order of `range` over a map unspecified, and
  the code ranges over maps at :89, :97-98 and :228-229. The model picks the
  next key with `:|`, so its contracts hold for every order.

## Model

| member | source | states |
|---|---|---|
| Extraction.Groups | collector/log_attempts.go:247-253 | one pair per match of a line, in match order, made of capture group 1 and capture group 2 |
| Extraction.GetLoginMatchesByRegex | collector/log_attempts.go:242-257 | the loop over lines and matches returns exactly the pairs of every match, line after line |
| Extraction.LoginMatchesAppend | collector/log_attempts.go:245-254 | extracting from two logs in a row gives the pairs of the first log followed by the pairs of the second |
| Extraction.LoginMatchesAtLine | collector/log_attempts.go:245-254 | line i contributes exactly its own matches' pairs, placed between those of the earlier and those of the later lines |
| Extraction.MatchingLines | collector/log_attempts.go:245-246 | the kept lines are exactly the lines of the log in which the pattern matches |
| Extraction.NonMatchingLinesContributeNothing | collector/log_attempts.go:245-254 | dropping the lines without a match changes no extracted pair |
| Extraction.CountLogsByRegex | collector/log_attempts.go:259-268 | the number of matches over all lines equals the number of pairs that extraction returns for the same log |
| Aggregation.AddPair | collector/log_attempts.go:68-85 | adding a pair raises its count by one and leaves every other count unchanged; it creates the first-level and second-level entries when they are missing and keeps every count at least 1 |
| Aggregation.CountPositiveIffStored | collector/log_attempts.go:79-84 | in an aggregate built by addAttempt, a pair is stored exactly when its count is positive, and no count is negative |
| Aggregation.CountDeterminesAttempts | collector/log_attempts.go:63-85 | two such aggregates with equal counts for every pair are equal |
| Aggregation.TotalAddPair | collector/log_attempts.go:79-84 | one addAttempt raises the total of all counts by exactly one |
| Aggregation.LoginAttempts.constructor | collector/log_attempts.go:203 | the zero-valued aggregate is empty |
| Aggregation.LoginAttempts.AddAttempt | collector/log_attempts.go:68-85 | the in-place update equals AddPair on the old map and keeps the aggregate valid |
| Aggregation.LoginAttempts.GetUserList | collector/log_attempts.go:87-93 | the list holds every first-level key exactly once and nothing else |
| Aggregation.LoginAttempts.GetProviderList | collector/log_attempts.go:95-103 | a second-level key appears once for each first-level key that stores it; the list is as long as there are stored pairs |
| Aggregation.AppendKeys | collector/log_attempts.go:98-100 | the inner loop keeps the list built so far as a prefix and appends after it every key of one inner map exactly once |
| Aggregation.LoginAttempts.CountLoginAttempts | collector/log_attempts.go:105-112 | returns 0 for every aggregate and pair, which is less than the count of any stored pair |
| Aggregation.AggregateCounts | collector/log_attempts.go:202-209 | the aggregate of a list of pairs is valid, counts each pair exactly as often as the list holds it, and is empty exactly when the list is |
| Aggregation.AggregateTotal | collector/log_attempts.go:202-209 | the counts of the aggregate sum to the length of the list |
| Aggregation.LoginMatchesToLoginAttempts | collector/log_attempts.go:202-209 | returns a fresh, valid aggregate equal to the aggregate of its input, pair by pair in list order |
| Emission.MergedCountAppend | collector/log_attempts.go:215-225 | the merged count over two runs of arrivals is the sum of the merged counts of each run |
| Emission.MergedCountPermutation | collector/log_attempts.go:215-225 | the merged counts do not depend on the order in which the pods' partials arrive |
| Emission.ContributionBounds | collector/log_attempts.go:218-224 | a valid partial adds at least its own count of a pair, and adds something exactly when it stores the pair |
| Emission.MergedCountBounds | collector/log_attempts.go:215-225 | the merge loses no login: each merged count is at least the sum of the partials' counts, and it is positive exactly when some partial stores the pair |
| Emission.MergeExactWithoutSharedKey2 | collector/log_attempts.go:215-225 | when no partial stores the second-level key under two first-level keys, the merged count is the exact sum |
| Emission.SingleIncrementsMergeToTheirNumber | collector/log_attempts.go:215-225 | N partials that each counted the same pair once merge to a count of N |
| Emission.MergeOverCountsSharedKey2 | collector/log_attempts.go:216-222 | one partial storing "alice" once under "htpasswd" and once under "github" merges to 2 for each of the two pairs, although each was counted once |
| Emission.EmptyChannelSendsNothing | collector/log_attempts.go:211-240 | a channel that delivered no partial leads to no observation |
| Emission.AddRepeated | collector/log_attempts.go:220-222 | the innermost loop adds the partial's count of the pair, and zero when the count is not positive |
| Emission.AbsorbRow | collector/log_attempts.go:219-223 | for one first-level key, every entry of the provider list adds the partial's count of that pair once |
| Emission.AbsorbPartial | collector/log_attempts.go:216-224 | absorbing one partial adds its count of each pair times the number of first-level keys that store the second-level key |
| Emission.MergePartials | collector/log_attempts.go:212-225 | the merged aggregate is fresh and valid, and its counts are the merged counts of the partials in arrival order |
| Emission.EmitRow | collector/log_attempts.go:229-237 | one observation per key of the row, with that pair's count and the labels (key1, key2), each pair once |
| Emission.Emit | collector/log_attempts.go:228-238 | reports every stored pair of the merged aggregate exactly once, with its count, and nothing else; the number of observations is the number of stored pairs |
| Emission.EmissionOfMergedCounts | collector/log_attempts.go:211-240 | emitting the merged aggregate reports exactly the pairs with a positive merged count, with those counts |
| Emission.EmitsMergedPermutation | collector/log_attempts.go:211-240 | observations that report the merged counts of the partials in one arrival order report them for every other arrival order too |
| Emission.PushLoginAttempts | collector/log_attempts.go:211-240 | the observations report each pair whose merged count over the received partials is positive, exactly once and with that count, and nothing else |
| Scraper.ScraperIdentity | collector/log_attempts.go:117-130 | the scraper's name is the metrics' subsystem, the two counters are named openshift_audit_login_attempts_successful and _failed, the help text is not empty, and the scraper is available from version 1.0 |
| Scraper.PodLogs | collector/log_attempts.go:161-172 | one log per pod, in pod order, each the fetched lines of that pod |
| Scraper.GetLoginActions | collector/log_attempts.go:196-200 | returns a fresh, valid aggregate of one pattern's matches in one log |
| Scraper.PodPartials | collector/log_attempts.go:178-181 | each channel receives two partials per pod |
| Scraper.PodPartialsAppend | collector/log_attempts.go:161-184 | the partials of two groups of pods are those of the first group followed by those of the second |
| Scraper.PodWithoutLinesSendsEmpty | collector/log_attempts.go:172-181 | a pod whose log could not be fetched sends two empty partials into each channel |
| Scraper.PodWithoutLinesChangesNothing | collector/log_attempts.go:172 | a pod whose log could not be fetched changes no merged count, so one unhealthy pod does not affect the others' metrics |
| Scraper.PartialChannel.constructor | collector/log_attempts.go:157-158 | a new channel is empty and has the given capacity |
| Scraper.PartialChannel.Send | collector/log_attempts.go:178-181 | a send needs a free slot in the buffer and appends the partial |
| Scraper.SendLoginActions | collector/log_attempts.go:178 | one send appends the aggregate of one pattern's matches to the channel |
| Scraper.SendPair | collector/log_attempts.go:178-179 | one success send and one failure send, each into its own channel |
| Scraper.ProcessPod | collector/log_attempts.go:171-181 | one pod appends the htpasswd and then the OAuth success aggregates to the success channel, and the matching failure aggregates to the failed channel |
| Scraper.ProcessPods | collector/log_attempts.go:161-185 | after all pods, each channel holds the partials of every pod, in pod order |
| Scraper.SuccessThenFailed | collector/log_attempts.go:190-191 | the success observations followed by the failed observations report the logins, and no success observation comes after a failed one |
| Scraper.PushChannel | collector/log_attempts.go:190-191 | pushing one channel reports the merged counts of that channel's partials |
| Scraper.ScrapePods | collector/log_attempts.go:155-193 | each channel's capacity is four per pod, and the two sends per pod into each channel never exceed it; the metrics report the merged success counts and then the merged failure counts of all pods' logs |
| Scraper.Scrape | collector/log_attempts.go:133-194 | a configuration, client or pod-listing error is returned with no metric sent; otherwise there is no error, and the metrics report every pod's logins as in ScrapePods |

## Left out

- The Kubernetes client is not part of this model: `getK8sConfig`, `getK8sClient`, `getAuthPods` and `getPodLogs` (collector/k8s_common.go). The `Cluster` value states what each call answers, and each pod's log is given already split into lines.
- Goroutines, the `WaitGroup` and the channels' concurrency are not modelled. The pods are processed one after the other, and a channel is a bounded buffer. `Emission.MergedCountPermutation` shows that the merged counts do not depend on the order in which partials arrive. `Emission.EmitsMergedPermutation` shows the same for the emitted metrics. `Scraper.Scrape` states its result only for partials in pod order; by these two lemmas, any other arrival order gives metrics that satisfy the same report.
- The Go `regexp` engine is not modelled; it is the `Matcher` parameter. Compiling the four constant patterns cannot fail in the source, so the `MustCompile` panic is not modelled.
- Extraction.CountLogsByRegex: counts with the same `Matcher` that extraction uses. It therefore relies on the engine's `FindAllString` and `FindAllStringSubmatch` finding the same matches.
- The Prometheus library: descriptors are plain values and emitted metrics are observations collected in a sequence. Counter values are integers rather than `float64`, `MustNewConstMetric` panics are not modelled, and neither is the metrics channel.
- Scraper.BuildFQName: joins three non-empty parts with underscores. Prometheus' rule of skipping empty parts is not modelled, since every name here is non-empty.
- Scraper.Version: returns a `real` 1.0 for Go's `float64`.
- Logging (`level.Error`, `level.Info`) is not modelled, nor is the error of `getPodLogs` beyond its effect: the pod's lines are empty.
- A Go nil map and an empty map are the same value here. No operation of the core tells them apart.
- The code that is commented out in `Scrape` (the `getterFunc` helper) was left out.
- collector/scraper.go (the `Scraper` interface) and collector/collector.go (the exporter's `namespace` constant, an unused `logRE` pattern and the `newDesc` helper) are not part of this model. Only the `namespace` value is copied.
