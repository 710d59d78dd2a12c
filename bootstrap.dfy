/**
 * `bootstrap` (src/index.js): one run of the tracker. It fetches the
 * deliveries in transit, looks up each tracking code's status, completes
 * the deliveries whose status is `DELIVERED` and posts a summary. The
 * delivery API, the tracking site, the webhook and the clock are the
 * `Services` value; the two environment variables the model needs are `Env`.
 */
module Bootstrap {
  import opened Wrappers
  import opened Deliveries
  import Notification
  import Lodash
  import JsStrings

  // ---------------------------------------------------------------------------
  // Selecting the deliveries to complete
  // ---------------------------------------------------------------------------

  /** `map('trackingCode')(deliveries)`. */
  function TrackingCodes(deliveries: seq<Delivery>): (codes: seq<string>)
    ensures |codes| == |deliveries|
    ensures forall i :: 0 <= i < |deliveries| ==> codes[i] == deliveries[i].trackingCode
  {
    if deliveries == [] then [] else [deliveries[0].trackingCode] + TrackingCodes(deliveries[1..])
  }

  /** `statuses.get(code) === PackageStatuses.DELIVERED`; a missing code reads as `undefined`. */
  predicate IsDelivered(statuses: map<string, string>, code: string) {
    code in statuses && statuses[code] == Delivered
  }

  /** The filter step: the deliveries whose code reads as delivered, in their order. */
  function DeliveredOnly(deliveries: seq<Delivery>, statuses: map<string, string>): (kept: seq<Delivery>)
    ensures |kept| <= |deliveries|
    ensures forall d :: d in kept <==> d in deliveries && IsDelivered(statuses, d.trackingCode)
  {
    if deliveries == [] then []
    else
      var rest := DeliveredOnly(deliveries[1..], statuses);
      if IsDelivered(statuses, deliveries[0].trackingCode) then [deliveries[0]] + rest else rest
  }

  /** `map('cuid')`. */
  function Cuids(deliveries: seq<Delivery>): (cuids: seq<string>)
    ensures |cuids| == |deliveries|
    ensures forall i :: 0 <= i < |deliveries| ==> cuids[i] == deliveries[i].cuid
  {
    if deliveries == [] then [] else [deliveries[0].cuid] + Cuids(deliveries[1..])
  }

  /** `compose(map('cuid'), filter(...))(deliveries)`: the cuids handed to completion. */
  function SelectedCuids(deliveries: seq<Delivery>, statuses: map<string, string>): (cuids: seq<string>)
    ensures |cuids| <= |deliveries|
    ensures forall c :: c in cuids <==>
              exists d :: d in deliveries && d.cuid == c && IsDelivered(statuses, d.trackingCode)
  {
    var kept := DeliveredOnly(deliveries, statuses);
    Cuids(kept)
  }

  /** Reference definition: the positions, from `from` on, of the deliveries that read as delivered. */
  function DeliveredPositions(deliveries: seq<Delivery>, statuses: map<string, string>, from: nat): seq<nat>
    decreases |deliveries| - from
  {
    if from >= |deliveries| then []
    else if IsDelivered(statuses, deliveries[from].trackingCode) then [from] + DeliveredPositions(deliveries, statuses, from + 1)
    else DeliveredPositions(deliveries, statuses, from + 1)
  }

  predicate Ascending(positions: seq<nat>) {
    forall k, l :: 0 <= k < l < |positions| ==> positions[k] < positions[l]
  }

  lemma {:induction false} DeliveredPositionsSpec(deliveries: seq<Delivery>, statuses: map<string, string>, from: nat)
    ensures var ps := DeliveredPositions(deliveries, statuses, from);
            && Ascending(ps)
            && (forall k :: 0 <= k < |ps| ==> from <= ps[k] < |deliveries|)
            && (forall j :: from <= j < |deliveries| ==> (j in ps <==> IsDelivered(statuses, deliveries[j].trackingCode)))
    decreases |deliveries| - from
  {
    if from < |deliveries| {
      DeliveredPositionsSpec(deliveries, statuses, from + 1);
    }
  }

  /** Dropping the first delivery shifts every position down by one. */
  lemma {:induction false} DeliveredPositionsShift(deliveries: seq<Delivery>, statuses: map<string, string>, from: nat)
    requires |deliveries| >= 1 && from >= 1
    ensures DeliveredPositions(deliveries, statuses, from)
         == Shifted(DeliveredPositions(deliveries[1..], statuses, from - 1))
    decreases |deliveries| - from
  {
    if from < |deliveries| {
      DeliveredPositionsShift(deliveries, statuses, from + 1);
      assert deliveries[1..][from - 1] == deliveries[from];
    }
  }

  function Shifted(positions: seq<nat>): (r: seq<nat>)
    ensures |r| == |positions|
    ensures forall k :: 0 <= k < |r| ==> r[k] == positions[k] + 1
  {
    seq(|positions|, k requires 0 <= k < |positions| => positions[k] + 1)
  }

  /** `kept` is `deliveries` read at the positions `ps`. */
  predicate PicksAt(kept: seq<Delivery>, deliveries: seq<Delivery>, ps: seq<nat>) {
    |kept| == |ps| && forall k :: 0 <= k < |ps| ==> ps[k] < |deliveries| && kept[k] == deliveries[ps[k]]
  }

  /** Picks from the tail are picks from the whole at shifted positions, with or without the head. */
  lemma PicksAtShift(kept: seq<Delivery>, deliveries: seq<Delivery>, ps: seq<nat>)
    requires |deliveries| >= 1 && PicksAt(kept, deliveries[1..], ps)
    ensures PicksAt(kept, deliveries, Shifted(ps))
    ensures PicksAt([deliveries[0]] + kept, deliveries, [0] + Shifted(ps))
  {
    var with := [deliveries[0]] + kept;
    var at := [0] + Shifted(ps);
    forall k | 1 <= k < |at| ensures at[k] < |deliveries| && with[k] == deliveries[at[k]] {
      assert at[k] == ps[k - 1] + 1 && with[k] == kept[k - 1];
    }
  }

  /** The filter keeps exactly the deliveries at the delivered positions, in order. */
  lemma {:induction false} DeliveredOnlyAtPositions(deliveries: seq<Delivery>, statuses: map<string, string>)
    ensures PicksAt(DeliveredOnly(deliveries, statuses), deliveries, DeliveredPositions(deliveries, statuses, 0))
  {
    if deliveries != [] {
      var rest := deliveries[1..];
      DeliveredOnlyAtPositions(rest, statuses);
      DeliveredPositionsShift(deliveries, statuses, 1);
      PicksAtShift(DeliveredOnly(rest, statuses), deliveries, DeliveredPositions(rest, statuses, 0));
    }
  }

  /**
   * The cuids handed to completion are those of the deliveries whose code
   * reads as `DELIVERED`, at ascending positions, so in the deliveries'
   * order: a subsequence of all the cuids, never longer. A code missing
   * from the map, or with any other status, is left out.
   */
  lemma SelectionSpec(deliveries: seq<Delivery>, statuses: map<string, string>)
    ensures var ps := DeliveredPositions(deliveries, statuses, 0);
            var cuids := SelectedCuids(deliveries, statuses);
            && |cuids| == |ps| <= |deliveries|
            && Ascending(ps)
            && (forall k :: 0 <= k < |ps| ==> ps[k] < |deliveries| && cuids[k] == Cuids(deliveries)[ps[k]])
            && (forall j :: 0 <= j < |deliveries| ==>
                  (j in ps <==> deliveries[j].trackingCode in statuses && statuses[deliveries[j].trackingCode] == Delivered))
  {
    DeliveredOnlyAtPositions(deliveries, statuses);
    DeliveredPositionsSpec(deliveries, statuses, 0);
  }

  /** Nothing is completed exactly when no delivery's code reads as `DELIVERED`. */
  lemma NothingSelected(deliveries: seq<Delivery>, statuses: map<string, string>)
    ensures SelectedCuids(deliveries, statuses) == []
        <==> forall j :: 0 <= j < |deliveries| ==> !IsDelivered(statuses, deliveries[j].trackingCode)
  {
    SelectionSpec(deliveries, statuses);
    var ps := DeliveredPositions(deliveries, statuses, 0);
    if ps != [] {
      assert ps[0] in ps;
    }
  }

  /** Two deliveries with the same tracking code are both selected or both left out. */
  lemma SameCodeSameFate(deliveries: seq<Delivery>, statuses: map<string, string>, i: nat, j: nat)
    requires i < |deliveries| && j < |deliveries|
    requires deliveries[i].trackingCode == deliveries[j].trackingCode
    ensures i in DeliveredPositions(deliveries, statuses, 0) <==> j in DeliveredPositions(deliveries, statuses, 0)
  {
    SelectionSpec(deliveries, statuses);
  }

  /** Only cuids of fetched deliveries are completed, each no more often than it was fetched. */
  lemma {:induction false} SelectedWithinFetched(deliveries: seq<Delivery>, statuses: map<string, string>)
    ensures multiset(SelectedCuids(deliveries, statuses)) <= multiset(Cuids(deliveries))
  {
    if deliveries != [] {
      SelectedWithinFetched(deliveries[1..], statuses);
      assert Cuids(deliveries) == [deliveries[0].cuid] + Cuids(deliveries[1..]);
      if IsDelivered(statuses, deliveries[0].trackingCode) {
        assert DeliveredOnly(deliveries, statuses) == [deliveries[0]] + DeliveredOnly(deliveries[1..], statuses);
        assert SelectedCuids(deliveries, statuses) == [deliveries[0].cuid] + SelectedCuids(deliveries[1..], statuses);
      }
    }
  }

  /** Over the tracker's `Map`, a code reads as delivered exactly when the map holds that entry. */
  lemma DeliveredIffEntry(statuses: StatusMap, code: string)
    requires IsJsMap(statuses)
    ensures IsDelivered(Keyed(statuses), code) <==> (code, Delivered) in statuses
  {
    KeyedLookup(statuses, code, Delivered);
  }

  // ---------------------------------------------------------------------------
  // The run
  // ---------------------------------------------------------------------------

  /** The run's steps; each feeds the next. */
  datatype Step =
    | Configure
    | FetchDeliveries
    | ExtractCodes
    | ResolveStatuses
    | FilterDelivered
    | CompleteDeliveries
    | Notify

  const StepOrder: seq<Step> :=
    [Configure, FetchDeliveries, ExtractCodes, ResolveStatuses, FilterDelivered, CompleteDeliveries, Notify]

  /** `process.env.TRACKING_URL` and `process.env.SLACK_WEBHOOK_URL`: a string, or `undefined` when unset. */
  datatype Env = Env(trackingUrl: Option<string>, slackWebhookUrl: Option<string>)

  function EnvValue(v: Option<string>): (js: Notification.JsValue)
    ensures js.Str? <==> v.Some?
  {
    match v
    case Some(s) => Notification.Str(s)
    case None => Notification.Undefined
  }

  /**
   * What the collaborators answer: the in-transit listing, the tracker's
   * status lookup, the completion call, the webhook post, and the formatted
   * date. Each call may fail with a reason.
   */
  datatype Services<R> = Services(
    inTransit: Result<seq<Delivery>, string>,
    track: seq<string> -> Result<JsMap, string>,
    complete: seq<string> -> Result<seq<CompletionResult>, string>,
    send: string -> Result<R, string>,
    today: string)

  datatype RunError =
    | ConfigurationError(assertion: Notification.AssertionError)
    | ServiceError(step: Step, reason: string)

  function FailedStep(e: RunError): Step {
    match e
    case ConfigurationError(_) => Configure
    case ServiceError(step, _) => step
  }

  /** The values each step produced. */
  datatype Report<R> = Report(
    deliveries: seq<Delivery>,
    trackingCodes: seq<string>,
    statuses: JsMap,
    cuids: seq<string>,
    completed: seq<CompletionResult>,
    notified: Notification.Notified<R>)

  /** The steps that finished, and how the run ended. */
  datatype Run<R> = Run(done: seq<Step>, outcome: Result<Report<R>, RunError>)

  /** Only these steps call out, and so only they can fail. */
  predicate MayFail(step: Step) {
    step in {Configure, FetchDeliveries, ResolveStatuses, CompleteDeliveries, Notify}
  }

  /** The first step: the notifier built from the environment, with the corrected constructor. */
  function Configured(env: Env): Result<Notification.NotificationService, Notification.AssertionError> {
    Notification.NewNotificationServiceCorrected(EnvValue(env.slackWebhookUrl), EnvValue(env.trackingUrl))
  }

  /** The tracker's answer for the fetched deliveries' codes. */
  function Tracked<R>(services: Services<R>): Result<JsMap, string>
    requires services.inTransit.Success?
  {
    services.track(TrackingCodes(services.inTransit.value))
  }

  /** The delivery API's answer for the cuids selected from the tracker's answer. */
  function Completion<R>(services: Services<R>): Result<seq<CompletionResult>, string>
    requires services.inTransit.Success? && Tracked(services).Success?
  {
    services.complete(SelectedCuids(services.inTransit.value, Keyed(Tracked(services).value)))
  }

  /** The summary posted for the fetched deliveries, their statuses and the completion's answer. */
  function Posted<R>(env: Env, services: Services<R>): Result<Notification.Notified<R>, string>
    requires Configured(env).Success?
    requires services.inTransit.Success? && Tracked(services).Success? && Completion(services).Success?
  {
    var args := Notification.NotifyArgs(services.inTransit.value, Tracked(services).value, Completion(services).value);
    Notification.Notify(Configured(env).value, services.today, args, services.send)
  }

  /**
   * `bootstrap`: each step runs only once the one before it has finished,
   * and the first failure ends the run. A step that calls out finishes
   * exactly when its call succeeds; when the call fails, the run fails with
   * that call's error. On success every step finished, the tracker got the
   * fetched deliveries' codes, completion got the cuids of exactly the
   * deliveries read as delivered, and the webhook got the message built
   * from those same deliveries and statuses and from the completion's answer.
   */
  function Bootstrap<R>(env: Env, services: Services<R>): (run: Run<R>)
    ensures |run.done| <= |StepOrder| && run.done == StepOrder[..|run.done|]
    ensures run.outcome.Success? <==> run.done == StepOrder
    ensures run.outcome.Failure? ==>
              |run.done| < |StepOrder| && FailedStep(run.outcome.error) == StepOrder[|run.done|]
              && MayFail(FailedStep(run.outcome.error))
    ensures run.done == [] <==> Configured(env).Failure?
    ensures run.done == [] ==> run.outcome == Failure(ConfigurationError(Configured(env).error))
    ensures |run.done| >= 1 ==> (|run.done| == 1 <==> services.inTransit.Failure?)
    ensures |run.done| == 1 ==> run.outcome == Failure(ServiceError(FetchDeliveries, services.inTransit.error))
    ensures |run.done| >= 3 ==> (|run.done| == 3 <==> Tracked(services).Failure?)
    ensures |run.done| == 3 ==> run.outcome == Failure(ServiceError(ResolveStatuses, Tracked(services).error))
    ensures |run.done| >= 5 ==> (|run.done| == 5 <==> Completion(services).Failure?)
    ensures |run.done| == 5 ==> run.outcome == Failure(ServiceError(CompleteDeliveries, Completion(services).error))
    ensures |run.done| >= 6 ==> (|run.done| == 6 <==> Posted(env, services).Failure?)
    ensures |run.done| == 6 ==> run.outcome == Failure(ServiceError(Notify, Posted(env, services).error))
    ensures run.outcome.Success? ==>
              var report := run.outcome.value;
              && env.trackingUrl.Some?
              && services.inTransit == Success(report.deliveries)
              && report.trackingCodes == TrackingCodes(report.deliveries)
              && services.track(report.trackingCodes) == Success(report.statuses)
              && report.cuids == SelectedCuids(report.deliveries, Keyed(report.statuses))
              && services.complete(report.cuids) == Success(report.completed)
              && report.notified.message
                 == Notification.Message(env.trackingUrl.value, services.today,
                                         Notification.NotifyArgs(report.deliveries, report.statuses, report.completed))
              && services.send(report.notified.message) == Success(report.notified.response)
  {
    var configured := Configured(env);
    if configured.Failure? then Run([], Failure(ConfigurationError(configured.error)))
    else if services.inTransit.Failure? then Run(StepOrder[..1], Failure(ServiceError(FetchDeliveries, services.inTransit.error)))
    else
      var deliveries := services.inTransit.value;
      var codes := TrackingCodes(deliveries);
      var tracked := Tracked(services);
      if tracked.Failure? then Run(StepOrder[..3], Failure(ServiceError(ResolveStatuses, tracked.error)))
      else
        var statuses := tracked.value;
        var cuids := SelectedCuids(deliveries, Keyed(statuses));
        var completion := Completion(services);
        if completion.Failure? then Run(StepOrder[..5], Failure(ServiceError(CompleteDeliveries, completion.error)))
        else
          var notified := Posted(env, services);
          if notified.Failure? then Run(StepOrder[..6], Failure(ServiceError(Notify, notified.error)))
          else Run(StepOrder, Success(Report(deliveries, codes, statuses, cuids, completion.value, notified.value)))
  }

  /**
   * With the constructor as written, no environment gets past the first
   * step: `process.env` holds strings, never the object `assert.object` asks for.
   */
  lemma AsWrittenConfigurationAlwaysFails(env: Env)
    ensures Notification.NewNotificationService(EnvValue(env.slackWebhookUrl), EnvValue(env.trackingUrl))
         == Failure(Notification.AssertionError("slackWebhookUrl", "object"))
  {
  }

  /** With the corrected constructor, setting both variables is what the first step needs. */
  lemma ConfigurationSucceedsWhenSet<R>(env: Env, services: Services<R>)
    ensures Bootstrap(env, services).done != [] <==> env.trackingUrl.Some? && env.slackWebhookUrl.Some?
  {
  }

  /**
   * In a finished run the summary's counts add up to the number of codes
   * the tracker reported on, since its `Map` holds each code once.
   */
  lemma RunCountsMatchMapSize<R>(env: Env, services: Services<R>)
    requires Bootstrap(env, services).outcome.Success?
    ensures var statuses := Bootstrap(env, services).outcome.value.statuses;
            Lodash.SumCounts(Notification.StatusCounts(statuses)) == |Keyed(statuses)|
  {
    Notification.StatusCountsSpec(Bootstrap(env, services).outcome.value.statuses);
  }

  // ---------------------------------------------------------------------------
  // A run with two deliveries
  // ---------------------------------------------------------------------------

  const Book := Delivery("c1", "T1", Item("Book"))
  const Lamp := Delivery("c2", "T2", Item("Lamp"))
  const ScenarioStatuses: JsMap := [("T1", Delivered), ("T2", "IN_TRANSIT")]

  /** The delivery API acknowledges each cuid it is asked to complete with that delivery's record. */
  function ScenarioCompletion(cuid: string): CompletionResult {
    if cuid == Book.cuid then CompletionResult(Book.cuid, Book.trackingCode, Book.item)
    else CompletionResult(Lamp.cuid, Lamp.trackingCode, Lamp.item)
  }

  function ScenarioCompletions(cuids: seq<string>): seq<CompletionResult> {
    seq(|cuids|, i requires 0 <= i < |cuids| => ScenarioCompletion(cuids[i]))
  }

  /**
   * Both deliveries are in transit, the tracker reads `T1` as delivered and
   * `T2` as in transit, completion answers for the cuids it gets, and the
   * webhook answers with the message it was sent.
   */
  function ScenarioServices(today: string): Services<string> {
    Services(
      Success([Book, Lamp]),
      codes => Success(ScenarioStatuses),
      cuids => Success(ScenarioCompletions(cuids)),
      message => Success(message),
      today)
  }

  /**
   * The run with two deliveries, `T1` delivered and `T2` still in transit,
   * succeeds and completes only the first delivery. Its summary has one
   * count line per status and one completed line, for the book, linked to
   * `T1`'s tracking page.
   */
  lemma TwoDeliveriesScenario(url: string, hook: string, today: string)
    ensures var run := Bootstrap(Env(Some(url), Some(hook)), ScenarioServices(today));
            && run.outcome.Success?
            && run.outcome.value.cuids == ["c1"]
            && var lines := Notification.MessageLines(url, today, Notification.NotifyArgs([Book, Lamp], ScenarioStatuses, run.outcome.value.completed));
               && run.outcome.value.notified.message == JsStrings.Join(lines, "\n")
               && |lines| == 8
               && lines[3] == "DELIVERED - 1 packages"
               && lines[4] == "IN_TRANSIT - 1 packages"
               && lines[7] == "Cuid: c1 - Book - " + Notification.TrackingLink(url, "T1")
  {
    var run := Bootstrap(Env(Some(url), Some(hook)), ScenarioServices(today));
    ScenarioRun(url, hook, today);
    ScenarioLines(url, today);
    assert run.outcome.value.deliveries == [Book, Lamp];
    assert run.outcome.value.statuses == ScenarioStatuses;
  }

  const BookCompleted := CompletionResult("c1", "T1", Item("Book"))

  lemma ScenarioRun(url: string, hook: string, today: string)
    ensures var run := Bootstrap(Env(Some(url), Some(hook)), ScenarioServices(today));
            && run.outcome.Success?
            && run.outcome.value.cuids == ["c1"]
            && run.outcome.value.completed == [BookCompleted]
  {
    var services := ScenarioServices(today);
    var configured := Notification.NewNotificationServiceCorrected(EnvValue(Some(hook)), EnvValue(Some(url)));
    assert configured.Success?;
    assert services.inTransit == Success([Book, Lamp]);
    assert services.track(TrackingCodes([Book, Lamp])) == Success(ScenarioStatuses);
    ScenarioSelection();
    assert SelectedCuids([Book, Lamp], Keyed(ScenarioStatuses)) == ["c1"];
    assert ScenarioCompletions(["c1"])[0] == BookCompleted;
    assert ScenarioCompletions(["c1"]) == [BookCompleted];
  }

  lemma ScenarioLines(url: string, today: string)
    ensures var lines := Notification.MessageLines(url, today, Notification.NotifyArgs([Book, Lamp], ScenarioStatuses, [BookCompleted]));
            && |lines| == 8
            && lines[3] == "DELIVERED - 1 packages"
            && lines[4] == "IN_TRANSIT - 1 packages"
            && lines[7] == "Cuid: c1 - Book - " + Notification.TrackingLink(url, "T1")
  {
    ScenarioCounts();
    Notification.MessageLayout(url, today, Notification.NotifyArgs([Book, Lamp], ScenarioStatuses, [BookCompleted]));
    assert JsStrings.NatToString(1) == "1";
    assert Notification.CountLine((Delivered, 1)) == "DELIVERED - 1 packages";
    assert Notification.CountLine(("IN_TRANSIT", 1)) == "IN_TRANSIT - 1 packages";
  }

  lemma ScenarioSelection()
    ensures SelectedCuids([Delivery("c1", "T1", Item("Book")), Delivery("c2", "T2", Item("Lamp"))],
                          Keyed([("T1", Delivered), ("T2", "IN_TRANSIT")])) == ["c1"]
  {
    var d1 := Delivery("c1", "T1", Item("Book"));
    var d2 := Delivery("c2", "T2", Item("Lamp"));
    var statuses := [("T1", Delivered), ("T2", "IN_TRANSIT")];
    assert statuses[..1] == [("T1", Delivered)] && statuses[..1][..0] == [];
    assert |"IN_TRANSIT"| != |Delivered|;
    assert Keyed(statuses[..1]) == map["T1" := Delivered];
    assert Keyed(statuses) == map["T1" := Delivered, "T2" := "IN_TRANSIT"];
    assert [d1, d2][1..] == [d2] && [d2][1..] == [];
    assert DeliveredOnly([d1, d2], Keyed(statuses)) == [d1];
  }

  lemma ScenarioCounts()
    ensures Notification.StatusCounts([("T1", Delivered), ("T2", "IN_TRANSIT")]) == [(Delivered, 1), ("IN_TRANSIT", 1)]
  {
    var statuses := [("T1", Delivered), ("T2", "IN_TRANSIT")];
    var values := StatusValues(statuses);
    assert |"IN_TRANSIT"| != |Delivered|;
    assert values == [Delivered, "IN_TRANSIT"];
    assert values[..1] == [Delivered] && values[..1][..0] == [];
    assert Lodash.CountBy(values[..1]) == [(Delivered, 1)];
    assert [(Delivered, 1)][1..] == [];
    assert Lodash.Bump([(Delivered, 1)], "IN_TRANSIT") == [(Delivered, 1)] + Lodash.Bump([], "IN_TRANSIT");
  }
}
