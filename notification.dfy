/**
 * `NotificationService` (src/modules/notifications/notification.service.js):
 * checks its configuration when built, and composes and posts the run's
 * summary. The webhook post is the `send` parameter; the formatted calendar
 * date is the `today` parameter.
 */
module Notification {
  import opened Wrappers
  import opened JsStrings
  import Lodash
  import opened Deliveries

  /** A JavaScript value as far as `assert-plus` tells values apart (by `typeof`). */
  datatype JsValue = Undefined | Null | Boolean | Number | Str(text: string) | Object | Function

  /** What `assert.object` / `assert.string` throw: the argument's name and the expected type. */
  datatype AssertionError = AssertionError(name: string, expected: string)

  /** The service's two immutable fields: `_trackingUrl`, and the webhook built from the URL argument. */
  datatype NotificationService = NotificationService(trackingUrl: string, webhookUrl: JsValue)

  /** `assert.object`: `typeof` is "object" and the value is not `null`. */
  predicate IsObject(v: JsValue) {
    v.Object?
  }

  /** `assert.string`: `typeof` is "string". */
  predicate IsString(v: JsValue) {
    v.Str?
  }

  /**
   * The constructor as written: `slackWebhookUrl` must be an object and
   * `trackingUrl` a string; the first failing check throws.
   */
  function NewNotificationService(slackWebhookUrl: JsValue, trackingUrl: JsValue): (r: Result<NotificationService, AssertionError>)
    ensures r.Success? <==> IsObject(slackWebhookUrl) && IsString(trackingUrl)
    ensures !IsObject(slackWebhookUrl) ==> r == Failure(AssertionError("slackWebhookUrl", "object"))
    ensures IsObject(slackWebhookUrl) && !IsString(trackingUrl) ==> r == Failure(AssertionError("trackingUrl", "string"))
    ensures r.Success? ==> r.value.trackingUrl == trackingUrl.text && r.value.webhookUrl == slackWebhookUrl
  {
    if !IsObject(slackWebhookUrl) then Failure(AssertionError("slackWebhookUrl", "object"))
    else if !IsString(trackingUrl) then Failure(AssertionError("trackingUrl", "string"))
    else Success(NotificationService(trackingUrl.text, slackWebhookUrl))
  }

  /** A webhook URL given as a string, the only form it takes in practice, is always refused. */
  lemma ConstructorRejectsUrlString(url: string, trackingUrl: JsValue)
    ensures NewNotificationService(Str(url), trackingUrl) == Failure(AssertionError("slackWebhookUrl", "object"))
  {
  }

  /** The constructor with the webhook URL checked as the string it documents itself to take. */
  function NewNotificationServiceCorrected(slackWebhookUrl: JsValue, trackingUrl: JsValue): (r: Result<NotificationService, AssertionError>)
    ensures r.Success? <==> IsString(slackWebhookUrl) && IsString(trackingUrl)
    ensures !IsString(slackWebhookUrl) ==> r == Failure(AssertionError("slackWebhookUrl", "string"))
    ensures IsString(slackWebhookUrl) && !IsString(trackingUrl) ==> r == Failure(AssertionError("trackingUrl", "string"))
    ensures r.Success? ==> r.value.trackingUrl == trackingUrl.text && r.value.webhookUrl == slackWebhookUrl
  {
    if !IsString(slackWebhookUrl) then Failure(AssertionError("slackWebhookUrl", "string"))
    else if !IsString(trackingUrl) then Failure(AssertionError("trackingUrl", "string"))
    else Success(NotificationService(trackingUrl.text, slackWebhookUrl))
  }

  // ---------------------------------------------------------------------------
  // The summary text
  // ---------------------------------------------------------------------------

  /** The placeholder the tracking URL template carries. */
  const Placeholder: string := "{trackingCode}"

  /** The destructured argument of `notify`. */
  datatype NotifyArgs = NotifyArgs(deliveries: seq<Delivery>, statuses: StatusMap, completed: seq<CompletionResult>)

  /** `[status, count]` pairs: the map's entries counted by status value. */
  function StatusCounts(statuses: StatusMap): (counts: seq<(string, nat)>)
    ensures forall i :: 0 <= i < |counts| ==> counts[i].1 == multiset(StatusValues(statuses))[counts[i].0] >= 1
    ensures Lodash.SumCounts(counts) == |statuses|
  {
    var values := StatusValues(statuses);
    Lodash.CountBySpec(values);
    Lodash.CountBy(values)
  }

  function CountLine(pair: (string, nat)): string {
    pair.0 + " - " + NatToString(pair.1) + " packages"
  }

  function CountLines(statuses: StatusMap): (lines: seq<string>)
    ensures |lines| == |StatusCounts(statuses)|
    ensures forall i :: 0 <= i < |lines| ==> lines[i] == CountLine(StatusCounts(statuses)[i])
  {
    var counts := StatusCounts(statuses);
    seq(|counts|, i requires 0 <= i < |counts| => CountLine(counts[i]))
  }

  /** The tracking URL template with the code put in place of its first placeholder. */
  function TrackingLink(trackingUrl: string, code: string): string {
    ReplaceFirst(trackingUrl, Placeholder, code)
  }

  function CompletedLine(trackingUrl: string, c: CompletionResult): string {
    "Cuid: " + c.cuid + " - " + c.item.name + " - " + TrackingLink(trackingUrl, c.trackingCode)
  }

  function CompletedLines(trackingUrl: string, completed: seq<CompletionResult>): (lines: seq<string>)
    ensures |lines| == |completed|
    ensures forall i :: 0 <= i < |lines| ==> lines[i] == CompletedLine(trackingUrl, completed[i])
  {
    seq(|completed|, i requires 0 <= i < |completed| => CompletedLine(trackingUrl, completed[i]))
  }

  const SourceLine: string := "I found " + "out in " + "https://" + "www.17track" + ".net that: "

  /**
   * The date line, the in-transit line and the completion header, without
   * the line break each of them carries in the array.
   */
  function DateText(today: string): string {
    ":calendar: " + today
  }

  function InTransitText(inTransit: nat): string {
    "We have " + NatToString(inTransit) + " :package: in shipping"
  }

  function CompletedHeaderText(completedCount: nat): string {
    "And also I have auto completed " + NatToString(completedCount) + " :package: deliveries:"
  }

  function DateLine(today: string): string {
    DateText(today) + "\n"
  }

  function InTransitLine(inTransit: nat): string {
    InTransitText(inTransit) + "\n"
  }

  function CompletedHeader(completedCount: nat): string {
    CompletedHeaderText(completedCount) + "\n"
  }

  /** The array `notify` joins, in its fixed layout. */
  function MessageLines(trackingUrl: string, today: string, args: NotifyArgs): seq<string> {
    [DateLine(today), InTransitLine(|args.deliveries|), SourceLine]
    + CountLines(args.statuses)
    + ["", CompletedHeader(|args.completed|)]
    + CompletedLines(trackingUrl, args.completed)
  }

  function Message(trackingUrl: string, today: string, args: NotifyArgs): string {
    Join(MessageLines(trackingUrl, today, args), "\n")
  }

  /** The message posted and the webhook's response. */
  datatype Notified<R> = Notified(message: string, response: R)

  /**
   * `notify`: composes the message and posts it; a failed post is thrown
   * on to the caller. The message returned is the one that was posted.
   */
  function Notify<R>(service: NotificationService, today: string, args: NotifyArgs, send: string -> Result<R, string>)
    : (r: Result<Notified<R>, string>)
    ensures r.Success? <==> send(Message(service.trackingUrl, today, args)).Success?
    ensures r.Success? ==> (r.value.message == Message(service.trackingUrl, today, args)
                            && send(r.value.message) == Success(r.value.response))
    ensures r.Failure? ==> send(Message(service.trackingUrl, today, args)) == Failure(r.error)
  {
    var message := Message(service.trackingUrl, today, args);
    var response :- send(message);
    Success(Notified(message, response))
  }

  // ---------------------------------------------------------------------------
  // What the summary says
  // ---------------------------------------------------------------------------

  /**
   * One count line per distinct status, in the order the statuses first
   * appear among the map's entries, each giving how many entries have that
   * status; the counts are positive and add up to the number of entries,
   * which for a `Map` is its size.
   */
  lemma StatusCountsSpec(statuses: StatusMap)
    ensures var values := StatusValues(statuses);
            var counts := StatusCounts(statuses);
            && |counts| == |Lodash.Distinct(values)|
            && Lodash.NoDuplicates(Lodash.Distinct(values))
            && (forall s :: s in Lodash.Distinct(values) <==> s in values)
            && (forall i :: 0 <= i < |counts| ==> counts[i].0 == Lodash.Distinct(values)[i])
            && (forall i :: 0 <= i < |counts| ==> counts[i].1 == multiset(values)[counts[i].0] >= 1)
            && (forall i, j :: 0 <= i < j < |counts| ==>
                  Lodash.FirstIndex(values, counts[i].0) < Lodash.FirstIndex(values, counts[j].0))
            && Lodash.SumCounts(counts) == |statuses|
    ensures IsJsMap(statuses) ==> Lodash.SumCounts(StatusCounts(statuses)) == |Keyed(statuses)|
  {
    var values := StatusValues(statuses);
    Lodash.CountBySpec(values);
    Lodash.DistinctProperties(values);
    if IsJsMap(statuses) {
      KeyedSize(statuses);
    }
  }

  /** The tracking link for a template without the placeholder is the template itself. */
  lemma TrackingLinkNoPlaceholder(trackingUrl: string, code: string)
    requires forall j: nat :: !OccursAt(trackingUrl, Placeholder, j)
    ensures TrackingLink(trackingUrl, code) == trackingUrl
  {
    ReplaceFirstNoMatch(trackingUrl, Placeholder, code);
  }

  /**
   * With the first placeholder at `i` and a code free of `$`, the link is the
   * template with just that placeholder swapped for the code; any later
   * placeholder is left in place.
   */
  lemma TrackingLinkFirstPlaceholder(trackingUrl: string, code: string, i: nat)
    requires OccursAt(trackingUrl, Placeholder, i)
    requires forall j: nat :: j < i ==> !OccursAt(trackingUrl, Placeholder, j)
    requires '$' !in code
    ensures TrackingLink(trackingUrl, code) == trackingUrl[..i] + code + trackingUrl[i + |Placeholder|..]
  {
    ReplaceFirstLiteral(trackingUrl, Placeholder, code, i);
  }

  /**
   * The array has the date line, the in-transit line, the source line, one
   * line per status count, an empty line, the completion header and one
   * line per completed delivery, in that order: five fixed lines besides
   * the count and completion lines.
   */
  lemma MessageLayout(trackingUrl: string, today: string, args: NotifyArgs)
    ensures var lines := MessageLines(trackingUrl, today, args);
            var k := |StatusCounts(args.statuses)|;
            && |lines| == 5 + k + |args.completed|
            && lines[0] == DateText(today) + "\n"
            && lines[1] == InTransitText(|args.deliveries|) + "\n"
            && lines[2] == SourceLine
            && (forall i :: 0 <= i < k ==> lines[3 + i] == CountLine(StatusCounts(args.statuses)[i]))
            && lines[3 + k] == ""
            && lines[4 + k] == CompletedHeaderText(|args.completed|) + "\n"
            && (forall j :: 0 <= j < |args.completed| ==>
                  lines[5 + k + j] == CompletedLine(trackingUrl, args.completed[j]))
  {
  }

  // ---------------------------------------------------------------------------
  // The message as the channel shows it, line by line
  // ---------------------------------------------------------------------------

  predicate SingleLine(s: string) {
    '\n' !in s
  }

  /** None of the texts the message is built from has a line break of its own. */
  predicate SingleLineInputs(trackingUrl: string, today: string, args: NotifyArgs) {
    && SingleLine(today)
    && SingleLine(trackingUrl)
    && (forall i :: 0 <= i < |args.statuses| ==> SingleLine(args.statuses[i].1))
    && (forall i :: 0 <= i < |args.completed| ==>
          SingleLine(args.completed[i].cuid) && SingleLine(args.completed[i].item.name)
          && SingleLine(args.completed[i].trackingCode))
  }

  /**
   * The lines shown: the date, a blank line, the in-transit count, a blank
   * line, the source line, the count lines, a blank line, the completion
   * header, a blank line and the completed deliveries.
   */
  function DisplayedLines(trackingUrl: string, today: string, args: NotifyArgs): seq<string> {
    [DateText(today), "", InTransitText(|args.deliveries|), "", SourceLine]
    + CountLines(args.statuses)
    + ["", CompletedHeaderText(|args.completed|), ""]
    + CompletedLines(trackingUrl, args.completed)
  }

  lemma NumberSingleLine(n: nat)
    ensures SingleLine(NatToString(n))
  {
    var s := NatToString(n);
    assert forall i :: 0 <= i < |s| ==> s[i] != '\n' by {
      assert forall i :: 0 <= i < |s| ==> IsDigit(s[i]);
    }
  }

  lemma CountLinesSingle(statuses: StatusMap)
    requires forall i :: 0 <= i < |statuses| ==> SingleLine(statuses[i].1)
    ensures forall i :: 0 <= i < |CountLines(statuses)| ==> SingleLine(CountLines(statuses)[i])
  {
    StatusCountsSpec(statuses);
    var counts := StatusCounts(statuses);
    var values := StatusValues(statuses);
    forall i | 0 <= i < |counts| ensures SingleLine(CountLine(counts[i])) {
      assert counts[i].0 in values;
      NumberSingleLine(counts[i].1);
    }
  }

  lemma CompletedLinesSingle(trackingUrl: string, completed: seq<CompletionResult>)
    requires SingleLine(trackingUrl)
    requires forall i :: 0 <= i < |completed| ==>
               SingleLine(completed[i].cuid) && SingleLine(completed[i].item.name) && SingleLine(completed[i].trackingCode)
    ensures forall i :: 0 <= i < |completed| ==> SingleLine(CompletedLines(trackingUrl, completed)[i])
  {
    forall i | 0 <= i < |completed| ensures SingleLine(CompletedLine(trackingUrl, completed[i])) {
      ReplaceFirstAvoids('\n', trackingUrl, Placeholder, completed[i].trackingCode);
    }
  }

  lemma SplitAllSingle(x: string, c: char)
    ensures SplitAll([x], c) == Split(x, c)
  {
    assert [x][..0] == [];
  }

  lemma SplitAllPair(x: string, y: string, c: char)
    ensures SplitAll([x, y], c) == Split(x, c) + Split(y, c)
  {
    assert [x, y][..1] == [x];
    SplitAllSingle(x, c);
  }

  lemma SourceLineSingle()
    ensures SingleLine(SourceLine)
  {
    assert '\n' !in "I found ";
    assert '\n' !in "out in ";
    assert '\n' !in "https://";
    assert '\n' !in "www.17track";
    assert '\n' !in ".net that: ";
  }

  lemma SplitAllTerminatedPair(x: string, y: string, z: string, c: char)
    requires c !in x && c !in y && c !in z
    ensures SplitAll([x + [c], y + [c], z], c) == [x, "", y, "", z]
  {
    var parts := [x + [c], y + [c], z];
    assert parts[..2] == [x + [c], y + [c]];
    SplitAllPair(x + [c], y + [c], c);
    SplitTerminated(x, c);
    SplitTerminated(y, c);
    SplitNoSeparator(z, c);
  }

  lemma HeadDisplayed(today: string, inTransit: nat)
    requires SingleLine(today)
    ensures SplitAll([DateLine(today), InTransitLine(inTransit), SourceLine], '\n')
         == [DateText(today), "", InTransitText(inTransit), "", SourceLine]
  {
    var date := DateText(today);
    var transit := InTransitText(inTransit);
    NumberSingleLine(inTransit);
    SourceLineSingle();
    assert DateLine(today) == date + ['\n'];
    assert InTransitLine(inTransit) == transit + ['\n'];
    SplitAllTerminatedPair(date, transit, SourceLine, '\n');
  }

  lemma MiddleDisplayed(completedCount: nat)
    ensures SplitAll(["", CompletedHeader(completedCount)], '\n')
         == ["", CompletedHeaderText(completedCount), ""]
  {
    var header := CompletedHeaderText(completedCount);
    NumberSingleLine(completedCount);
    assert CompletedHeader(completedCount) == header + ['\n'];
    SplitTerminated(header, '\n');
    SplitAllPair("", CompletedHeader(completedCount), '\n');
  }

  /**
   * When no input text holds a line break, cutting the posted message at
   * its line breaks gives exactly the displayed lines: the layout and every
   * count and completion line survive the join.
   */
  lemma MessageDisplay(trackingUrl: string, today: string, args: NotifyArgs)
    requires SingleLineInputs(trackingUrl, today, args)
    ensures Split(Message(trackingUrl, today, args), '\n') == DisplayedLines(trackingUrl, today, args)
  {
    var head := [DateLine(today), InTransitLine(|args.deliveries|), SourceLine];
    var counts := CountLines(args.statuses);
    var middle := ["", CompletedHeader(|args.completed|)];
    var done := CompletedLines(trackingUrl, args.completed);
    assert MessageLines(trackingUrl, today, args) == head + counts + middle + done;
    SplitJoinAll(head + counts + middle + done, '\n');
    SplitAllAppend(head + counts + middle, done, '\n');
    SplitAllAppend(head + counts, middle, '\n');
    SplitAllAppend(head, counts, '\n');
    HeadDisplayed(today, |args.deliveries|);
    MiddleDisplayed(|args.completed|);
    CountLinesSingle(args.statuses);
    SplitAllNoSeparator(counts, '\n');
    CompletedLinesSingle(trackingUrl, args.completed);
    SplitAllNoSeparator(done, '\n');
  }
}
