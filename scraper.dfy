/** `ScrapeLogginAttempts`: the scraper that reads the authentication pods'
    logs, counts successful and failed logins per (provider, user) and reports
    them as two counters.

    The Kubernetes client is not modelled: a `Cluster` value says what each of
    its calls answers. The pods are processed one after the other; each channel
    is a bounded buffer whose `Send` demands a free slot. */
module Scraper {
  import opened Wrappers
  import opened Extraction
  import opened Aggregation
  import opened Emission

  // ---------------------------------------------------------------------------
  // Constants

  /** The four patterns. For the engine they are only tags; each captures the
      provider in group 1 and the user in group 2. */
  const LoginSuccessHtpasswdRegex: string := "Login with provider \"(.*?)\" succeeded for \"(.*?)\""
  const LoginFailHtpasswdRegex: string := "Login with provider \"(.*?)\" failed for \"(.*?)\""
  const LoginSuccessOAuthRegex: string := ".*\\] (.*?) authentication succeeded:.*\\{Name:\"(.*?)\",.*"
  const LoginFailOAuthRegex: string := ".*\\] (.*?) authentication failed:.*\\{Name:\"(.*?)\",.*"

  /** All patterns; its length sizes the channels. */
  const ListOfRegex: seq<string> :=
    [LoginSuccessHtpasswdRegex, LoginSuccessOAuthRegex, LoginFailHtpasswdRegex, LoginFailOAuthRegex]

  /** The exporter's metric namespace and this scraper's subsystem. */
  const Namespace: string := "openshift_audit"
  const LoginAttemptsSubsystem: string := "login_attempts"

  /** The fully-qualified metric name for a non-empty namespace, subsystem and
      name: the three joined by underscores. */
  function BuildFQName(namespace: string, subsystem: string, name: string): string
  {
    namespace + "_" + subsystem + "_" + name
  }

  /** The label names of both counters: the first-level key of the merged
      aggregate goes into "auth_provider", the second-level key into "user". */
  const AuthLabels: seq<string> := ["auth_provider", "user"]

  const LoginsSucceededDesc: Desc :=
    Desc(BuildFQName(Namespace, LoginAttemptsSubsystem, "successful"), "The ammount of succeeded login actions", AuthLabels)
  const LoginsFailedDesc: Desc :=
    Desc(BuildFQName(Namespace, LoginAttemptsSubsystem, "failed"), "The ammount of failed login actions", AuthLabels)

  // ---------------------------------------------------------------------------
  // The scraper contract

  function Name(): string
  {
    "login_attempts"
  }

  function Help(): string
  {
    "Collect from Openshift Authentication Operator pod's logs"
  }

  function Version(): real
  {
    1.0
  }

  /** The scraper is named after the subsystem of the metrics it reports,
      describes itself, and is available from version 1.0. */
  lemma ScraperIdentity()
    ensures Name() == LoginAttemptsSubsystem
    ensures LoginsSucceededDesc.fqName == "openshift_audit_" + Name() + "_successful"
    ensures LoginsFailedDesc.fqName == "openshift_audit_" + Name() + "_failed"
    ensures |Help()| > 0 && Version() == 1.0
  {
  }

  // ---------------------------------------------------------------------------
  // The cluster, as inputs

  datatype Pod = Pod(name: string, namespace: string)

  datatype K8sError = K8sError(message: string)

  /** What the Kubernetes calls answer: the configuration and client errors
      (if any), the list of authentication pods or an error, and each pod's log
      lines or an error. */
  datatype Cluster = Cluster(
    config: Option<K8sError>,
    client: Option<K8sError>,
    pods: Result<seq<Pod>, K8sError>,
    logs: Pod -> Result<seq<string>, K8sError>)

  /** `logs, _ := getPodLogs(...)`: the error is dropped and a failed fetch
      yields no lines. */
  function FetchedLines(r: Result<seq<string>, K8sError>): (lines: seq<string>)
    ensures r.Err? ==> lines == []
    ensures r.Ok? ==> lines == r.value
  {
    match r
    case Ok(lines) => lines
    case Err(_) => []
  }

  /** The lines each pod contributes, pod by pod. */
  function PodLogs(cluster: Cluster, pods: seq<Pod>): (r: seq<seq<string>>)
    ensures |r| == |pods|
    ensures forall i :: 0 <= i < |pods| ==> r[i] == FetchedLines(cluster.logs(pods[i]))
  {
    if pods == [] then [] else PodLogs(cluster, pods[..|pods| - 1]) + [FetchedLines(cluster.logs(pods[|pods| - 1]))]
  }

  lemma PodLogsSnoc(cluster: Cluster, pods: seq<Pod>, k: nat)
    requires k < |pods|
    ensures PodLogs(cluster, pods[..k + 1]) == PodLogs(cluster, pods[..k]) + [FetchedLines(cluster.logs(pods[k]))]
  {
    assert pods[..k + 1][..k] == pods[..k];
  }

  // ---------------------------------------------------------------------------
  // Extraction per pod

  /** `getLoginActions`: the aggregate of one pattern's matches in one log. */
  method GetLoginActions(matcher: Matcher, regex: string, logLines: seq<string>) returns (la: LoginAttempts)
    ensures fresh(la) && la.Valid()
    ensures la.attempts == Aggregate(LoginMatches(matcher, regex, logLines))
  {
    var matches := GetLoginMatchesByRegex(matcher, regex, logLines);
    la := LoginMatchesToLoginAttempts(matches);
  }

  /** The partials one channel receives when every pod sends the aggregate of
      pattern `first` and then that of pattern `second`, pods in order. */
  ghost function PodPartials(matcher: Matcher, first: string, second: string, podLines: seq<seq<string>>): (r: seq<Attempts>)
    ensures |r| == 2 * |podLines|
  {
    if podLines == [] then []
    else
      var lines := podLines[|podLines| - 1];
      PodPartials(matcher, first, second, podLines[..|podLines| - 1])
        + [Aggregate(LoginMatches(matcher, first, lines)), Aggregate(LoginMatches(matcher, second, lines))]
  }

  lemma {:induction false} PodPartialsAppend(matcher: Matcher, first: string, second: string, a: seq<seq<string>>, b: seq<seq<string>>)
    ensures PodPartials(matcher, first, second, a + b)
         == PodPartials(matcher, first, second, a) + PodPartials(matcher, first, second, b)
    decreases |b|
  {
    if b == [] {
      assert a + b == a;
    } else {
      var b' := b[..|b| - 1];
      assert (a + b)[..|a + b| - 1] == a + b';
      assert (a + b)[|a + b| - 1] == b[|b| - 1];
      PodPartialsAppend(matcher, first, second, a, b');
    }
  }

  /** A pod without lines sends two empty partials. */
  lemma PodWithoutLinesSendsEmpty(matcher: Matcher, first: string, second: string)
    ensures PodPartials(matcher, first, second, [[]]) == [map[], map[]]
  {
    var empty: seq<seq<string>> := [[]];
    assert empty[..0] == [];
  }

  /** Two empty partials add nothing to any merged count. */
  lemma EmptyPartialsMergeToZero(key1: string, key2: string)
    ensures MergedCount([map[], map[]], key1, key2) == 0
  {
    var none: seq<Attempts> := [map[], map[]];
    assert Count(map[], key1, key2) == 0;
    assert Contribution(map[], key1, key2) == 0;
    assert none[..1] == [map[]];
    assert none[..1][..0] == [];
    assert MergedCount(none[..1], key1, key2) == 0;
  }

  /** A pod whose log could not be fetched changes no merged count: the other
      pods' counts are reported as if it were not there. */
  lemma PodWithoutLinesChangesNothing(matcher: Matcher, first: string, second: string,
                                      podLines: seq<seq<string>>, k: nat, key1: string, key2: string)
    requires k < |podLines| && podLines[k] == []
    ensures MergedCount(PodPartials(matcher, first, second, podLines), key1, key2)
         == MergedCount(PodPartials(matcher, first, second, podLines[..k] + podLines[k + 1..]), key1, key2)
  {
    var before, after := podLines[..k], podLines[k + 1..];
    var empty: seq<seq<string>> := [[]];
    assert podLines == before + empty + after;
    var ps, qs := PodPartials(matcher, first, second, before), PodPartials(matcher, first, second, after);
    var none := PodPartials(matcher, first, second, empty);
    PodPartialsAppend(matcher, first, second, before + empty, after);
    PodPartialsAppend(matcher, first, second, before, empty);
    PodPartialsAppend(matcher, first, second, before, after);
    PodWithoutLinesSendsEmpty(matcher, first, second);
    EmptyPartialsMergeToZero(key1, key2);
    MergedCountAppend(ps + none, qs, key1, key2);
    MergedCountAppend(ps, none, key1, key2);
    MergedCountAppend(ps, qs, key1, key2);
  }

  // ---------------------------------------------------------------------------
  // Channels and the scrape cycle

  /** A buffered channel of partial aggregates. Nothing receives until every pod
      was processed, so a send into a full buffer would block forever: `Send`
      demands a free slot. */
  class PartialChannel {
    var buffer: seq<LoginAttempts>
    const capacity: nat

    constructor (capacity: nat)
      ensures this.capacity == capacity && buffer == []
    {
      this.capacity := capacity;
      buffer := [];
    }

    method Send(x: LoginAttempts)
      requires |buffer| < capacity
      modifies this
      ensures buffer == old(buffer) + [x]
    {
      buffer := buffer + [x];
    }
  }

  /** One more pod adds the aggregates of its two patterns. */
  lemma PodPartialsSnoc(matcher: Matcher, first: string, second: string, podLines: seq<seq<string>>, logs: seq<string>)
    ensures PodPartials(matcher, first, second, podLines + [logs])
         == PodPartials(matcher, first, second, podLines)
          + [Aggregate(LoginMatches(matcher, first, logs)), Aggregate(LoginMatches(matcher, second, logs))]
  {
    assert (podLines + [logs])[..|podLines|] == podLines;
  }

  /** The aggregates sent for each pod are valid ones. */
  lemma {:induction false} PodPartialsValid(matcher: Matcher, first: string, second: string, podLines: seq<seq<string>>)
    ensures forall i :: 0 <= i < |PodPartials(matcher, first, second, podLines)| ==>
              ValidMap(PodPartials(matcher, first, second, podLines)[i])
    decreases |podLines|
  {
    if podLines != [] {
      var lines := podLines[|podLines| - 1];
      PodPartialsValid(matcher, first, second, podLines[..|podLines| - 1]);
      AggregateCounts(LoginMatches(matcher, first, lines));
      AggregateCounts(LoginMatches(matcher, second, lines));
    }
  }

  /** One more partial extends the snapshots of a buffer by its aggregate. */
  lemma SnapshotsAppendOne(buffer: seq<LoginAttempts>, x: LoginAttempts)
    ensures Snapshots(buffer + [x]) == Snapshots(buffer) + [x.attempts]
  {
    assert (buffer + [x])[..|buffer|] == buffer;
  }

  /** Two appends in a row append the two values in order. */
  lemma AppendTwice(s: seq<Attempts>, x: Attempts, y: Attempts)
    ensures s + [x] + [y] == s + [x, y]
  {
  }

  /** `ch <- getLoginActions(regex, logs)`. */
  method SendLoginActions(ch: PartialChannel, matcher: Matcher, regex: string, logs: seq<string>)
    requires |ch.buffer| < ch.capacity
    modifies ch
    ensures |ch.buffer| == |old(ch.buffer)| + 1
    ensures Snapshots(ch.buffer) == old(Snapshots(ch.buffer)) + [Aggregate(LoginMatches(matcher, regex, logs))]
  {
    ghost var before := ch.buffer;
    ghost var snapshot := Snapshots(before);
    var actions := GetLoginActions(matcher, regex, logs);
    ch.Send(actions);
    assert Snapshots(before) == snapshot;
    SnapshotsAppendOne(before, actions);
  }

  /** A success extraction sent into the success channel, then a failure
      extraction sent into the failed channel. */
  method SendPair(matcher: Matcher, successRegex: string, failRegex: string, logs: seq<string>,
                  successCh: PartialChannel, failedCh: PartialChannel)
    requires successCh != failedCh
    requires |successCh.buffer| < successCh.capacity && |failedCh.buffer| < failedCh.capacity
    modifies successCh, failedCh
    ensures |successCh.buffer| == |old(successCh.buffer)| + 1 && |failedCh.buffer| == |old(failedCh.buffer)| + 1
    ensures Snapshots(successCh.buffer) == old(Snapshots(successCh.buffer)) + [Aggregate(LoginMatches(matcher, successRegex, logs))]
    ensures Snapshots(failedCh.buffer) == old(Snapshots(failedCh.buffer)) + [Aggregate(LoginMatches(matcher, failRegex, logs))]
  {
    SendLoginActions(successCh, matcher, successRegex, logs);
    ghost var sent := Snapshots(successCh.buffer);
    SendLoginActions(failedCh, matcher, failRegex, logs);
    assert Snapshots(successCh.buffer) == sent;
  }

  /** One pod's goroutine: the four extractions of its log, each sent into the
      channel of its kind in the order success htpasswd, failed htpasswd,
      success OAuth, failed OAuth. */
  method ProcessPod(matcher: Matcher, logs: seq<string>, successCh: PartialChannel, failedCh: PartialChannel)
    requires successCh != failedCh
    requires |successCh.buffer| + 2 <= successCh.capacity && |failedCh.buffer| + 2 <= failedCh.capacity
    modifies successCh, failedCh
    ensures |successCh.buffer| == |old(successCh.buffer)| + 2 && |failedCh.buffer| == |old(failedCh.buffer)| + 2
    ensures Snapshots(successCh.buffer) == old(Snapshots(successCh.buffer))
              + [Aggregate(LoginMatches(matcher, LoginSuccessHtpasswdRegex, logs)),
                 Aggregate(LoginMatches(matcher, LoginSuccessOAuthRegex, logs))]
    ensures Snapshots(failedCh.buffer) == old(Snapshots(failedCh.buffer))
              + [Aggregate(LoginMatches(matcher, LoginFailHtpasswdRegex, logs)),
                 Aggregate(LoginMatches(matcher, LoginFailOAuthRegex, logs))]
  {
    ghost var success0, failed0 := Snapshots(successCh.buffer), Snapshots(failedCh.buffer);
    SendPair(matcher, LoginSuccessHtpasswdRegex, LoginFailHtpasswdRegex, logs, successCh, failedCh);
    SendPair(matcher, LoginSuccessOAuthRegex, LoginFailOAuthRegex, logs, successCh, failedCh);
    AppendTwice(success0, Aggregate(LoginMatches(matcher, LoginSuccessHtpasswdRegex, logs)),
                Aggregate(LoginMatches(matcher, LoginSuccessOAuthRegex, logs)));
    AppendTwice(failed0, Aggregate(LoginMatches(matcher, LoginFailHtpasswdRegex, logs)),
                Aggregate(LoginMatches(matcher, LoginFailOAuthRegex, logs)));
  }

  /** `metrics` reports the logins found in the pods' logs `podLines`: first
      every success pair with its merged count under the success counter, then
      every failure pair with its merged count under the failed counter. */
  ghost predicate ReportsLogins(metrics: seq<Observation>, matcher: Matcher, podLines: seq<seq<string>>)
  {
    && (exists k :: 0 <= k <= |metrics|
          && EmitsMerged(metrics[..k], LoginsSucceededDesc,
                         PodPartials(matcher, LoginSuccessHtpasswdRegex, LoginSuccessOAuthRegex, podLines))
          && EmitsMerged(metrics[k..], LoginsFailedDesc,
                         PodPartials(matcher, LoginFailHtpasswdRegex, LoginFailOAuthRegex, podLines)))
    && (forall i, j :: 0 <= i < j < |metrics| && metrics[i].desc == LoginsFailedDesc ==>
          metrics[j].desc == LoginsFailedDesc)
  }

  /** The observations of the success counter followed by those of the failed
      counter report the logins: split where the failed ones start, and never
      a success after a failure. */
  lemma SuccessThenFailed(succeeded: seq<Observation>, failed: seq<Observation>,
                          matcher: Matcher, podLines: seq<seq<string>>,
                          successPartials: seq<Attempts>, failedPartials: seq<Attempts>)
    requires successPartials == PodPartials(matcher, LoginSuccessHtpasswdRegex, LoginSuccessOAuthRegex, podLines)
    requires failedPartials == PodPartials(matcher, LoginFailHtpasswdRegex, LoginFailOAuthRegex, podLines)
    requires EmitsMerged(succeeded, LoginsSucceededDesc, successPartials)
    requires EmitsMerged(failed, LoginsFailedDesc, failedPartials)
    ensures ReportsLogins(succeeded + failed, matcher, podLines)
  {
    var metrics := succeeded + failed;
    assert metrics[..|succeeded|] == succeeded && metrics[|succeeded|..] == failed;
    assert LoginsSucceededDesc.fqName != LoginsFailedDesc.fqName by {
      assert LoginsSucceededDesc.fqName[|"openshift_audit_login_attempts_"|] == 's';
    }
    forall i, j | 0 <= i < j < |metrics| && metrics[i].desc == LoginsFailedDesc
      ensures metrics[j].desc == LoginsFailedDesc
    {
      assert metrics[j] == failed[j - |succeeded|];
    }
  }

  /** Pod `k` adds the aggregates of its log's two patterns. */
  lemma NextPod(cluster: Cluster, matcher: Matcher, first: string, second: string, pods: seq<Pod>, k: nat,
                before: seq<Attempts>, after: seq<Attempts>)
    requires k < |pods|
    requires before == PodPartials(matcher, first, second, PodLogs(cluster, pods[..k]))
    requires after == before + [Aggregate(LoginMatches(matcher, first, FetchedLines(cluster.logs(pods[k])))),
                                Aggregate(LoginMatches(matcher, second, FetchedLines(cluster.logs(pods[k]))))]
    ensures after == PodPartials(matcher, first, second, PodLogs(cluster, pods[..k + 1]))
  {
    PodLogsSnoc(cluster, pods, k);
    PodPartialsSnoc(matcher, first, second, PodLogs(cluster, pods[..k]), FetchedLines(cluster.logs(pods[k])));
  }

  /** The loop starting one goroutine per pod, run one pod after the other. */
  method ProcessPods(cluster: Cluster, matcher: Matcher, pods: seq<Pod>,
                     successCh: PartialChannel, failedCh: PartialChannel)
    requires successCh != failedCh && successCh.buffer == [] && failedCh.buffer == []
    requires 2 * |pods| <= successCh.capacity && 2 * |pods| <= failedCh.capacity
    modifies successCh, failedCh
    ensures Snapshots(successCh.buffer)
         == PodPartials(matcher, LoginSuccessHtpasswdRegex, LoginSuccessOAuthRegex, PodLogs(cluster, pods))
    ensures Snapshots(failedCh.buffer)
         == PodPartials(matcher, LoginFailHtpasswdRegex, LoginFailOAuthRegex, PodLogs(cluster, pods))
  {
    var k := 0;
    while k < |pods|
      invariant 0 <= k <= |pods|
      invariant |successCh.buffer| == 2 * k && |failedCh.buffer| == 2 * k
      invariant Snapshots(successCh.buffer)
             == PodPartials(matcher, LoginSuccessHtpasswdRegex, LoginSuccessOAuthRegex, PodLogs(cluster, pods[..k]))
      invariant Snapshots(failedCh.buffer)
             == PodPartials(matcher, LoginFailHtpasswdRegex, LoginFailOAuthRegex, PodLogs(cluster, pods[..k]))
    {
      var logs := FetchedLines(cluster.logs(pods[k]));
      ghost var successBefore, failedBefore := Snapshots(successCh.buffer), Snapshots(failedCh.buffer);
      ProcessPod(matcher, logs, successCh, failedCh);
      NextPod(cluster, matcher, LoginSuccessHtpasswdRegex, LoginSuccessOAuthRegex, pods, k,
              successBefore, Snapshots(successCh.buffer));
      NextPod(cluster, matcher, LoginFailHtpasswdRegex, LoginFailOAuthRegex, pods, k,
              failedBefore, Snapshots(failedCh.buffer));
      k := k + 1;
    }
    assert pods[..k] == pods;
  }

  /** The partials in a buffer are valid when their snapshots are. */
  lemma ValidFromSnapshots(partials: seq<LoginAttempts>)
    requires forall i :: 0 <= i < |Snapshots(partials)| ==> ValidMap(Snapshots(partials)[i])
    ensures forall i :: 0 <= i < |partials| ==> partials[i].Valid()
  {
    forall i | 0 <= i < |partials| ensures partials[i].Valid() {
      assert Snapshots(partials)[i] == partials[i].attempts;
    }
  }

  /** `push` on one channel whose partials hold the aggregates `expected`. */
  method PushChannel(partials: seq<LoginAttempts>, desc: Desc, ghost expected: seq<Attempts>)
    returns (obs: seq<Observation>)
    requires Snapshots(partials) == expected
    requires forall i :: 0 <= i < |expected| ==> ValidMap(expected[i])
    ensures EmitsMerged(obs, desc, expected)
  {
    ValidFromSnapshots(partials);
    obs := PushLoginAttempts(partials, desc);
    assert Snapshots(partials) == expected;
  }

  /** The part of `Scrape` after the pods were listed: each of the two
      channels, sized |ListOfRegex| times the number of pods, receives two
      partials per pod (so it never fills up): the success channel those of the
      two success patterns, the failed channel those of the two failure
      patterns. Then the success observations are all sent, and after them the
      failed observations. */
  method ScrapePods(cluster: Cluster, matcher: Matcher, pods: seq<Pod>)
    returns (metrics: seq<Observation>, ghost successSends: nat, ghost failedSends: nat, capacity: nat)
    ensures capacity == |ListOfRegex| * |pods|
    ensures successSends == failedSends == 2 * |pods| <= capacity
    ensures ReportsLogins(metrics, matcher, PodLogs(cluster, pods))
  {
    capacity := |ListOfRegex| * |pods|;
    var successfulLoginChannel := new PartialChannel(capacity);
    var failedLoginChannel := new PartialChannel(capacity);
    ProcessPods(cluster, matcher, pods, successfulLoginChannel, failedLoginChannel);
    successSends, failedSends := |successfulLoginChannel.buffer|, |failedLoginChannel.buffer|;
    ghost var podLines := PodLogs(cluster, pods);
    ghost var successPartials := PodPartials(matcher, LoginSuccessHtpasswdRegex, LoginSuccessOAuthRegex, podLines);
    ghost var failedPartials := PodPartials(matcher, LoginFailHtpasswdRegex, LoginFailOAuthRegex, podLines);
    PodPartialsValid(matcher, LoginSuccessHtpasswdRegex, LoginSuccessOAuthRegex, podLines);
    PodPartialsValid(matcher, LoginFailHtpasswdRegex, LoginFailOAuthRegex, podLines);
    var succeeded := PushChannel(successfulLoginChannel.buffer, LoginsSucceededDesc, successPartials);
    var failed := PushChannel(failedLoginChannel.buffer, LoginsFailedDesc, failedPartials);
    metrics := succeeded + failed;
    SuccessThenFailed(succeeded, failed, matcher, podLines, successPartials, failedPartials);
  }

  /** `Scrape`: one cycle from discovery to emission. A configuration, client
      or pod-listing error is returned before anything is sent. */
  method Scrape(cluster: Cluster, matcher: Matcher)
    returns (err: Option<K8sError>, metrics: seq<Observation>,
             ghost successSends: nat, ghost failedSends: nat, capacity: nat)
    ensures cluster.config.Some? ==> err == cluster.config && metrics == []
    ensures cluster.config.None? && cluster.client.Some? ==> err == cluster.client && metrics == []
    ensures cluster.config.None? && cluster.client.None? && cluster.pods.Err? ==>
              err == Some(cluster.pods.error) && metrics == []
    ensures cluster.config.None? && cluster.client.None? && cluster.pods.Ok? ==>
              && err == None
              && capacity == |ListOfRegex| * |cluster.pods.value|
              && successSends == failedSends == 2 * |cluster.pods.value| <= capacity
              && ReportsLogins(metrics, matcher, PodLogs(cluster, cluster.pods.value))
  {
    successSends, failedSends, capacity := 0, 0, 0;
    if cluster.config.Some? {
      err, metrics := cluster.config, [];
    } else if cluster.client.Some? {
      err, metrics := cluster.client, [];
    } else if cluster.pods.Err? {
      err, metrics := Some(cluster.pods.error), [];
    } else {
      err := None;
      metrics, successSends, failedSends, capacity := ScrapePods(cluster, matcher, cluster.pods.value);
    }
  }
}
