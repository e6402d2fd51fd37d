/** The message-send activities of
    packages/backend-lib/src/journeys/userWorkflow/activities.ts as decision
    functions over the values the activity has already fetched: the generic
    channel sender `sendWithTracking`, `sendMobilePushWithPayload`,
    `sendEmailWithPayload`, the submission step of `sendMobilePush`, and
    the journey-run ledger behind `isRunnable` and `onNodeProcessed`. */
module Activities {
  import opened Wrappers
  import opened Json

  datatype InternalEventType = MessageSent | MessageSkipped | MessageFailure | BadWorkspaceConfiguration

  /** The `message` a tracked event carries, naming the check that decided. */
  datatype Reason =
    | TemplateNotFound
    | JourneyNotFound
    | SubscriptionGroupNotFound
    | NotInSubscriptionGroup
    | JourneyNotRunning
    | IdentifierNotFound
    | DeviceTokenNotFound
    | ChannelSecretNotFound
    | ChannelSecretMalformed
    | TemplateRenderFailed
    | UserMissingEmail
    | MissingDefaultEmailProvider
    | ProviderSendFailed
    | UnknownEmailProvider
    | Delivered

  datatype TrackRecord = TrackRecord(event: InternalEventType, reason: Reason)

  /** `[success, trackData | null]`. */
  datatype SendResult = SendResult(success: bool, track: Option<TrackRecord>)

  function Tracked(success: bool, event: InternalEventType, reason: Reason): SendResult
  {
    SendResult(success, Some(TrackRecord(event, reason)))
  }

  const Untracked: SendResult := SendResult(false, None)

  // ---------------------------------------------------------------------
  // Subscription groups
  // ---------------------------------------------------------------------

  datatype SubscriptionGroupType = OptIn | OptOut

  /** A subscription group with its segments, each carrying the
      requesting user's segment assignments. */
  datatype SubscriptionGroup = SubscriptionGroup(groupType: SubscriptionGroupType, segmentAssignments: seq<seq<bool>>)

  /** `subscriptionGroup.Segment[0]?.SegmentAssignment[0]?.inSegment`. */
  function FirstAssignment(group: SubscriptionGroup): Option<bool>
  {
    if |group.segmentAssignments| > 0 && |group.segmentAssignments[0]| > 0
    then Some(group.segmentAssignments[0][0])
    else None
  }

  /** `if (subscriptionGroupId)`: present and not the empty string. */
  predicate HasGroupId(subscriptionGroupId: Option<string>)
  {
    subscriptionGroupId.Some? && subscriptionGroupId.value != ""
  }

  /** The subscription gate shared by the three senders: None lets the
      message through, otherwise the record the sender returns. */
  function SubscriptionGate(subscriptionGroupId: Option<string>, group: Option<SubscriptionGroup>): (r: Option<TrackRecord>)
    ensures !HasGroupId(subscriptionGroupId) ==> r.None?
    ensures HasGroupId(subscriptionGroupId) && group.None? ==>
              r == Some(TrackRecord(BadWorkspaceConfiguration, SubscriptionGroupNotFound))
    ensures HasGroupId(subscriptionGroupId) && group.Some? ==>
              (r.Some? <==> FirstAssignment(group.value) == Some(false)
                            || (FirstAssignment(group.value).None? && group.value.groupType == OptIn))
    ensures r.Some? ==> r.value.event != MessageSent
  {
    if !HasGroupId(subscriptionGroupId) then None
    else if group.None? then Some(TrackRecord(BadWorkspaceConfiguration, SubscriptionGroupNotFound))
    else
      var assignment := FirstAssignment(group.value);
      if assignment == Some(false) || (assignment.None? && group.value.groupType == OptIn)
      then Some(TrackRecord(MessageSkipped, NotInSubscriptionGroup))
      else None
  }

  /** An OptOut group lets a user without an assignment through; an OptIn
      group lets a user through only with an assignment that is in the
      segment. */
  lemma GateByGroupType(id: string, group: SubscriptionGroup)
    requires id != ""
    ensures group.groupType == OptOut && FirstAssignment(group).None? ==> SubscriptionGate(Some(id), Some(group)).None?
    ensures group.groupType == OptIn ==> (SubscriptionGate(Some(id), Some(group)).None? <==> FirstAssignment(group) == Some(true))
  {
    match FirstAssignment(group) {
      case None =>
      case Some(inSegment) =>
        assert inSegment ==> FirstAssignment(group) == Some(true);
    }
  }

  // ---------------------------------------------------------------------
  // Fetched values
  // ---------------------------------------------------------------------

  /** A `Result<T | null, E>` lookup: malformed, not found, or found. */
  datatype Lookup<T> = Malformed | Missing | Found(value: T)

  datatype JourneyRecord = JourneyRecord(status: string)

  datatype ChannelRecord = ChannelRecord(identifier: string)

  /** `userPropertyAssignments[key]`: undefined when absent. */
  function AssignmentValue(assignments: map<string, JsonValue>, key: string): JsonValue
  {
    if key in assignments then assignments[key] else JUndefined
  }

  // ---------------------------------------------------------------------
  // sendWithTracking
  // ---------------------------------------------------------------------

  /** Everything `sendWithTracking` fetches. The channel configuration is
      either a config or the value to return instead. */
  datatype TrackingInputs<C> = TrackingInputs(
    template: Lookup<()>,
    userPropertyAssignments: map<string, JsonValue>,
    journey: Option<JourneyRecord>,
    subscriptionGroupId: Option<string>,
    subscriptionGroup: Option<SubscriptionGroup>,
    channelConfig: Result<C, SendResult>,
    channel: Option<ChannelRecord>)

  /** `sendWithTracking`: template, journey, subscription gate, journey
      status, channel, identifier, channel configuration, then the channel's
      own send, each check returning at its first failure. */
  function SendWithTracking<C>(inputs: TrackingInputs<C>, channelSend: (C, ChannelRecord) -> SendResult)
    : (r: SendResult)
    ensures r.success ==>
              && inputs.template.Found?
              && inputs.journey.Some? && inputs.journey.value.status == "Running"
              && SubscriptionGate(inputs.subscriptionGroupId, inputs.subscriptionGroup).None?
              && inputs.channel.Some?
              && Truthy(AssignmentValue(inputs.userPropertyAssignments, inputs.channel.value.identifier))
    ensures r.success ==>
              || (inputs.channelConfig.Err? && r == inputs.channelConfig.error)
              || (inputs.channelConfig.Ok? && inputs.channel.Some?
                  && r == channelSend(inputs.channelConfig.value, inputs.channel.value))
    ensures && inputs.template.Found?
            && inputs.journey.Some? && inputs.journey.value.status == "Running"
            && SubscriptionGate(inputs.subscriptionGroupId, inputs.subscriptionGroup).None?
            && inputs.channel.Some?
            && Truthy(AssignmentValue(inputs.userPropertyAssignments, inputs.channel.value.identifier))
            ==> r == (if inputs.channelConfig.Err? then inputs.channelConfig.error
                      else channelSend(inputs.channelConfig.value, inputs.channel.value))
  {
    if inputs.template.Malformed? then Untracked
    else if inputs.template.Missing? then Tracked(false, BadWorkspaceConfiguration, TemplateNotFound)
    else if inputs.journey.None? then Tracked(false, BadWorkspaceConfiguration, JourneyNotFound)
    else if SubscriptionGate(inputs.subscriptionGroupId, inputs.subscriptionGroup).Some? then
      SendResult(false, SubscriptionGate(inputs.subscriptionGroupId, inputs.subscriptionGroup))
    else if inputs.journey.value.status != "Running" then Tracked(false, MessageSkipped, JourneyNotRunning)
    else if inputs.channel.None? then Untracked
    else if !Truthy(AssignmentValue(inputs.userPropertyAssignments, inputs.channel.value.identifier)) then
      Tracked(false, BadWorkspaceConfiguration, IdentifierNotFound)
    else if inputs.channelConfig.Err? then inputs.channelConfig.error
    else channelSend(inputs.channelConfig.value, inputs.channel.value)
  }

  // ---------------------------------------------------------------------
  // sendMobilePushWithPayload
  // ---------------------------------------------------------------------

  datatype MobilePushInputs = MobilePushInputs(
    template: Lookup<bool>,                         // Found(isMobilePushTemplate)
    userPropertyAssignments: map<string, JsonValue>,
    journey: Option<JourneyRecord>,
    subscriptionGroupId: Option<string>,
    subscriptionGroup: Option<SubscriptionGroup>,
    fcmKey: Option<string>,
    renderThrows: bool,                             // renderLiquid throws on title or body
    notification: Result<string, string>)           // sendNotification: message id or error

  /** The activity either returns a value or rejects with an exception. */
  datatype Outcome = Returned(result: SendResult) | Threw

  /** `sendMobilePushWithPayload`. Rendering happens outside any `try`, so a
      template that fails to render rejects the activity. */
  function SendMobilePushWithPayload(inputs: MobilePushInputs): (r: Outcome)
    ensures r.Returned? && r.result.success <==> r == Returned(Tracked(true, MessageSent, Delivered))
    ensures r.Threw? ==> inputs.renderThrows
  {
    if inputs.template.Malformed? then Returned(Untracked)
    else if inputs.template.Missing? then Returned(Tracked(false, BadWorkspaceConfiguration, TemplateNotFound))
    else if !inputs.template.value then Returned(Untracked)
    else if inputs.journey.None? then Returned(Tracked(false, BadWorkspaceConfiguration, JourneyNotFound))
    else if SubscriptionGate(inputs.subscriptionGroupId, inputs.subscriptionGroup).Some? then
      Returned(SendResult(false, SubscriptionGate(inputs.subscriptionGroupId, inputs.subscriptionGroup)))
    else if inputs.journey.value.status != "Running" then Returned(Tracked(false, MessageSkipped, JourneyNotRunning))
    else if !Truthy(AssignmentValue(inputs.userPropertyAssignments, "deviceToken")) then
      Returned(Tracked(false, BadWorkspaceConfiguration, DeviceTokenNotFound))
    else if inputs.fcmKey.None? then Returned(Tracked(false, BadWorkspaceConfiguration, ChannelSecretNotFound))
    else if inputs.renderThrows then Threw
    else if inputs.notification.Err? then Returned(Tracked(false, BadWorkspaceConfiguration, ChannelSecretMalformed))
    else Returned(Tracked(true, MessageSent, Delivered))
  }

  /** `sendMobilePush`: the sent flag, and the track events submitted (one
      exactly when the payload step produced track data). */
  method SendMobilePush(inputs: MobilePushInputs) returns (outcome: Outcome, submitted: seq<TrackRecord>)
    ensures outcome.Threw? <==> SendMobilePushWithPayload(inputs).Threw?
    ensures outcome.Returned? ==> outcome == SendMobilePushWithPayload(inputs)
    ensures outcome.Returned? && outcome.result.track.Some? ==> submitted == [outcome.result.track.value]
    ensures outcome.Returned? && outcome.result.track.None? ==> submitted == []
    ensures outcome.Threw? ==> submitted == []
  {
    submitted := [];
    outcome := SendMobilePushWithPayload(inputs);
    if outcome.Returned? {
      var trackData := outcome.result.track;
      if trackData.Some? {
        submitted := submitted + [trackData.value];
      }
    }
  }

  // ---------------------------------------------------------------------
  // sendEmailWithPayload
  // ---------------------------------------------------------------------

  datatype EmailProviderType = Sendgrid | OtherProvider(name: string)

  datatype EmailInputs = EmailInputs(
    journey: Option<JourneyRecord>,
    subscriptionGroupId: Option<string>,
    subscriptionGroup: Option<SubscriptionGroup>,
    defaultEmailProvider: Option<EmailProviderType>,
    templateFound: bool,
    userProperties: map<string, JsonValue>,
    renderThrows: bool,                             // caught: the message is not sent
    sendgrid: Result<(), string>)

  /** `sendEmailWithPayload`: always returns an event. */
  function SendEmailWithPayload(inputs: EmailInputs): (r: (bool, TrackRecord))
    ensures r.0 <==> r.1.event == MessageSent
    ensures r.1.event == MessageFailure <==>
              r.1.reason == ProviderSendFailed && inputs.defaultEmailProvider == Some(Sendgrid) && inputs.sendgrid.Err?
  {
    if inputs.journey.None? then (false, TrackRecord(BadWorkspaceConfiguration, JourneyNotFound))
    else if SubscriptionGate(inputs.subscriptionGroupId, inputs.subscriptionGroup).Some? then
      (false, SubscriptionGate(inputs.subscriptionGroupId, inputs.subscriptionGroup).value)
    else if inputs.journey.value.status != "Running" then (false, TrackRecord(MessageSkipped, JourneyNotRunning))
    else if !inputs.templateFound then (false, TrackRecord(BadWorkspaceConfiguration, TemplateNotFound))
    else if !Truthy(AssignmentValue(inputs.userProperties, "email")) then (false, TrackRecord(MessageSkipped, UserMissingEmail))
    else if inputs.renderThrows then (false, TrackRecord(BadWorkspaceConfiguration, TemplateRenderFailed))
    else if inputs.defaultEmailProvider.None? then (false, TrackRecord(BadWorkspaceConfiguration, MissingDefaultEmailProvider))
    else match inputs.defaultEmailProvider.value
      case Sendgrid =>
        if inputs.sendgrid.Err? then (false, TrackRecord(MessageFailure, ProviderSendFailed))
        else (true, TrackRecord(MessageSent, Delivered))
      case OtherProvider(_) => (false, TrackRecord(BadWorkspaceConfiguration, UnknownEmailProvider))
  }

  /** One check of the email cascade: whether it fails, and what it
      reports when it does. */
  datatype Check = Check(fails: bool, record: TrackRecord)

  /** The email checks in the order the activity applies them: journey,
      subscription group, membership, journey status, template, email
      address, rendering, default provider, provider type, provider send. */
  function EmailChecks(inputs: EmailInputs): seq<Check>
  {
    var group := inputs.subscriptionGroup;
    [ Check(inputs.journey.None?, TrackRecord(BadWorkspaceConfiguration, JourneyNotFound)),
      Check(HasGroupId(inputs.subscriptionGroupId) && group.None?,
            TrackRecord(BadWorkspaceConfiguration, SubscriptionGroupNotFound)),
      Check(HasGroupId(inputs.subscriptionGroupId) && group.Some?
            && (FirstAssignment(group.value) == Some(false)
                || (FirstAssignment(group.value).None? && group.value.groupType == OptIn)),
            TrackRecord(MessageSkipped, NotInSubscriptionGroup)),
      Check(inputs.journey.Some? && inputs.journey.value.status != "Running", TrackRecord(MessageSkipped, JourneyNotRunning)),
      Check(!inputs.templateFound, TrackRecord(BadWorkspaceConfiguration, TemplateNotFound)),
      Check(!Truthy(AssignmentValue(inputs.userProperties, "email")), TrackRecord(MessageSkipped, UserMissingEmail)),
      Check(inputs.renderThrows, TrackRecord(BadWorkspaceConfiguration, TemplateRenderFailed)),
      Check(inputs.defaultEmailProvider.None?, TrackRecord(BadWorkspaceConfiguration, MissingDefaultEmailProvider)),
      Check(inputs.defaultEmailProvider.Some? && inputs.defaultEmailProvider.value.OtherProvider?,
            TrackRecord(BadWorkspaceConfiguration, UnknownEmailProvider)),
      Check(inputs.sendgrid.Err?, TrackRecord(MessageFailure, ProviderSendFailed)) ]
  }

  /** The record of the first failing check, or a sent message when every
      check passes. */
  function FirstFailure(checks: seq<Check>): (bool, TrackRecord)
  {
    if checks == [] then (true, TrackRecord(MessageSent, Delivered))
    else if checks[0].fails then (false, checks[0].record)
    else FirstFailure(checks[1..])
  }

  /** The activity reports exactly the first failing check of the ordered
      list. */
  lemma SendEmailFollowsCheckOrder(inputs: EmailInputs)
    ensures SendEmailWithPayload(inputs) == FirstFailure(EmailChecks(inputs))
  {
    var checks := EmailChecks(inputs);
    assert checks[0..] == checks;
    FirstFailureStep(checks, 0);
    FirstFailureStep(checks, 1);
    FirstFailureStep(checks, 2);
    FirstFailureStep(checks, 3);
    FirstFailureStep(checks, 4);
    if !checks[0].fails && !checks[1].fails && !checks[2].fails && !checks[3].fails && !checks[4].fails {
      LaterEmailChecks(inputs);
    }
  }

  lemma LaterEmailChecks(inputs: EmailInputs)
    ensures FirstFailure(EmailChecks(inputs)[5..])
            == if !Truthy(AssignmentValue(inputs.userProperties, "email")) then (false, TrackRecord(MessageSkipped, UserMissingEmail))
               else if inputs.renderThrows then (false, TrackRecord(BadWorkspaceConfiguration, TemplateRenderFailed))
               else if inputs.defaultEmailProvider.None? then (false, TrackRecord(BadWorkspaceConfiguration, MissingDefaultEmailProvider))
               else if inputs.defaultEmailProvider.value.OtherProvider? then (false, TrackRecord(BadWorkspaceConfiguration, UnknownEmailProvider))
               else if inputs.sendgrid.Err? then (false, TrackRecord(MessageFailure, ProviderSendFailed))
               else (true, TrackRecord(MessageSent, Delivered))
  {
    var checks := EmailChecks(inputs);
    FirstFailureStep(checks, 5);
    FirstFailureStep(checks, 6);
    FirstFailureStep(checks, 7);
    FirstFailureStep(checks, 8);
    FirstFailureStep(checks, 9);
    assert checks[10..] == [];
  }

  /** The activity sends exactly when every check passes. */
  lemma SendEmailSendsIffAllChecksPass(inputs: EmailInputs)
    ensures SendEmailWithPayload(inputs).0 <==> forall i :: 0 <= i < |EmailChecks(inputs)| ==> !EmailChecks(inputs)[i].fails
  {
    SendEmailFollowsCheckOrder(inputs);
    FirstFailurePasses(EmailChecks(inputs));
  }

  lemma FirstFailureStep(checks: seq<Check>, k: nat)
    requires k < |checks|
    ensures FirstFailure(checks[k..])
            == if checks[k].fails then (false, checks[k].record) else FirstFailure(checks[k + 1..])
  {
    assert checks[k..][1..] == checks[k + 1..];
  }

  lemma {:induction false} FirstFailurePasses(checks: seq<Check>)
    requires forall i :: 0 <= i < |checks| ==> checks[i].record.event != MessageSent
    ensures FirstFailure(checks).0 <==> forall i :: 0 <= i < |checks| ==> !checks[i].fails
  {
    if checks != [] {
      FirstFailurePasses(checks[1..]);
      assert forall i :: 1 <= i < |checks| ==> checks[1..][i - 1] == checks[i];
    }
  }

  // ---------------------------------------------------------------------
  // Properties shared by the senders
  // ---------------------------------------------------------------------

  /** Once the checks before it pass, the subscription gate decides every
      sender's result in the same way, whatever the journey status and the
      remaining inputs. */
  lemma GateAppliedIdentically<C>(t: TrackingInputs<C>, channelSend: (C, ChannelRecord) -> SendResult,
                                  m: MobilePushInputs, e: EmailInputs)
    requires t.template.Found? && t.journey.Some?
    requires m.template == Found(true) && m.journey.Some?
    requires e.journey.Some?
    requires t.subscriptionGroupId == m.subscriptionGroupId == e.subscriptionGroupId
    requires t.subscriptionGroup == m.subscriptionGroup == e.subscriptionGroup
    requires SubscriptionGate(t.subscriptionGroupId, t.subscriptionGroup).Some?
    ensures var rec := SubscriptionGate(t.subscriptionGroupId, t.subscriptionGroup).value;
            && SendWithTracking(t, channelSend) == SendResult(false, Some(rec))
            && SendMobilePushWithPayload(m) == Returned(SendResult(false, Some(rec)))
            && SendEmailWithPayload(e) == (false, rec)
  {
  }

  /** A journey that is not running is skipped, but only after the
      subscription gate has let the message through: every sender reports
      the gate's record when the gate stops the message, and the skip
      otherwise. */
  lemma NotRunningCheckedAfterGate<C>(t: TrackingInputs<C>, channelSend: (C, ChannelRecord) -> SendResult,
                                      e: EmailInputs, m: MobilePushInputs)
    requires t.template.Found? && t.journey.Some? && t.journey.value.status != "Running"
    requires e.journey.Some? && e.journey.value.status != "Running"
    requires m.template == Found(true) && m.journey.Some? && m.journey.value.status != "Running"
    ensures SubscriptionGate(t.subscriptionGroupId, t.subscriptionGroup).None? ==>
              SendWithTracking(t, channelSend) == Tracked(false, MessageSkipped, JourneyNotRunning)
    ensures SubscriptionGate(t.subscriptionGroupId, t.subscriptionGroup).Some? ==>
              SendWithTracking(t, channelSend) == SendResult(false, SubscriptionGate(t.subscriptionGroupId, t.subscriptionGroup))
    ensures SubscriptionGate(e.subscriptionGroupId, e.subscriptionGroup).None? ==>
              SendEmailWithPayload(e) == (false, TrackRecord(MessageSkipped, JourneyNotRunning))
    ensures SubscriptionGate(e.subscriptionGroupId, e.subscriptionGroup).Some? ==>
              SendEmailWithPayload(e).1 == SubscriptionGate(e.subscriptionGroupId, e.subscriptionGroup).value
    ensures SubscriptionGate(m.subscriptionGroupId, m.subscriptionGroup).None? ==>
              SendMobilePushWithPayload(m) == Returned(Tracked(false, MessageSkipped, JourneyNotRunning))
    ensures SubscriptionGate(m.subscriptionGroupId, m.subscriptionGroup).Some? ==>
              SendMobilePushWithPayload(m)
              == Returned(SendResult(false, SubscriptionGate(m.subscriptionGroupId, m.subscriptionGroup)))
  {
  }

  /** A Sendgrid error is a delivery failure; a provider other than
      Sendgrid is a workspace misconfiguration. */
  lemma EmailProviderOutcomes(e: EmailInputs)
    requires forall i :: 0 <= i < 7 ==> !EmailChecks(e)[i].fails
    ensures e.defaultEmailProvider == Some(Sendgrid) && e.sendgrid.Err? ==>
              SendEmailWithPayload(e) == (false, TrackRecord(MessageFailure, ProviderSendFailed))
    ensures e.defaultEmailProvider.Some? && e.defaultEmailProvider.value.OtherProvider? ==>
              SendEmailWithPayload(e) == (false, TrackRecord(BadWorkspaceConfiguration, UnknownEmailProvider))
    ensures e.defaultEmailProvider == Some(Sendgrid) && e.sendgrid.Ok? ==>
              SendEmailWithPayload(e) == (true, TrackRecord(MessageSent, Delivered))
  {
    var checks := EmailChecks(e);
    assert !checks[0].fails && !checks[1].fails && !checks[2].fails && !checks[3].fails;
    assert !checks[4].fails && !checks[5].fails && !checks[6].fails;
  }

  // ---------------------------------------------------------------------
  // The journey-run ledger
  // ---------------------------------------------------------------------

  const ExitNodeType: string := "ExitNode"

  /** The unique key of a `userJourneyEvent` row. */
  datatype JourneyEventKey = JourneyEventKey(journeyId: string, userId: string, nodeType: string, journeyStartedAt: int)

  /** The `userJourneyEvent` table, keyed by journey, user, node type and
      journey start time. */
  class RunLedger {
    var events: set<JourneyEventKey>

    constructor()
      ensures events == {}
    {
      events := {};
    }

    /** Whether the user has already left the journey. */
    predicate Exited(journeyId: string, userId: string)
      reads this
    {
      exists e :: e in events && e.journeyId == journeyId && e.userId == userId && e.nodeType == ExitNodeType
    }

    /** `isRunnable`: no ExitNode record for the journey and user. */
    method IsRunnable(journeyId: string, userId: string) returns (r: bool)
      ensures r <==> forall e :: e in events && e.journeyId == journeyId && e.userId == userId
                                 ==> e.nodeType != ExitNodeType
    {
      r := !exists e :: e in events && e.journeyId == journeyId && e.userId == userId && e.nodeType == ExitNodeType;
    }

    /** `onNodeProcessed`: an upsert with an empty update, i.e. an insert
      that leaves an existing record as it is. */
    method OnNodeProcessed(journeyStartedAt: int, journeyId: string, userId: string, nodeType: string)
      modifies this
      ensures events == old(events) + {JourneyEventKey(journeyId, userId, nodeType, journeyStartedAt)}
      ensures old(JourneyEventKey(journeyId, userId, nodeType, journeyStartedAt) in events) ==> events == old(events)
      ensures forall j, u :: Exited(j, u) <==> old(Exited(j, u)) || (j == journeyId && u == userId && nodeType == ExitNodeType)
    {
      events := events + {JourneyEventKey(journeyId, userId, nodeType, journeyStartedAt)};
      forall j, u ensures Exited(j, u) <==> old(Exited(j, u)) || (j == journeyId && u == userId && nodeType == ExitNodeType) {
        if old(Exited(j, u)) {
          var e :| e in old(events) && e.journeyId == j && e.userId == u && e.nodeType == ExitNodeType;
          assert e in events;
        }
        if j == journeyId && u == userId && nodeType == ExitNodeType {
          assert JourneyEventKey(journeyId, userId, nodeType, journeyStartedAt) in events;
        }
      }
    }
  }

  /** Processing the same node twice leaves the ledger as processing it
      once, and a journey stays runnable until its exit node is processed. */
  method ProcessTwice(ledger: RunLedger, journeyStartedAt: int, journeyId: string, userId: string, nodeType: string)
    returns (runnable: bool)
    modifies ledger
    ensures ledger.events == old(ledger.events) + {JourneyEventKey(journeyId, userId, nodeType, journeyStartedAt)}
    ensures runnable <==> !old(ledger.Exited(journeyId, userId)) && nodeType != ExitNodeType
  {
    ledger.OnNodeProcessed(journeyStartedAt, journeyId, userId, nodeType);
    ghost var once := ledger.events;
    ledger.OnNodeProcessed(journeyStartedAt, journeyId, userId, nodeType);
    assert ledger.events == once;
    runnable := ledger.IsRunnable(journeyId, userId);
  }
}
