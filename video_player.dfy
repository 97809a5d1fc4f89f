/**
 * The video player's watch-progress session.
 *
 * A player mounted for one resource keeps six pieces of state (playing,
 * visible, current time, duration, completed, last reported position) and
 * whether its ten-second heartbeat timer is armed.  The timer, the
 * visibility listener and the media element are replaced by discrete
 * events; the completion authority's asynchronous answer is an input of
 * the event that sends the report.
 *
 * The state machine is specified by pure step functions on `Session`
 * values; `PlayerSession` is the mutable object whose handlers are proved
 * to perform exactly those steps, and `Run` replays a sequence of events
 * so that properties spanning several events can be stated.
 */
module VideoPlayer {
  import opened Types
  import opened JsNumbers
  import opened Strings
  import opened Api
  import opened Store

  /** Milliseconds between two heartbeats while the timer is armed. */
  const HeartbeatPeriodMs: nat := 10000

  datatype Session = Session(isPlaying: bool, isVisible: bool, currentTime: real, duration: real,
                             isCompleted: bool, lastHeartbeat: real, timerArmed: bool)

  /** `resource.duration || 0`: a missing or zero duration starts as 0. */
  function InitialDuration(r: Resource): real {
    if r.duration.Some? && r.duration.value != 0.0 then r.duration.value else 0.0
  }

  function InitialSession(r: Resource): (s: Session)
    ensures !s.isPlaying && s.isVisible && !s.isCompleted && !s.timerArmed
    ensures s.currentTime == 0.0 && s.lastHeartbeat == 0.0
    ensures s.duration == (if r.duration.Some? then r.duration.value else 0.0)
  {
    Session(false, true, 0.0, InitialDuration(r), false, 0.0, false)
  }

  /** The heartbeat effect's condition: `isPlaying && isVisible && user`. */
  predicate GateOpen(s: Session, user: Option<User>) {
    s.isPlaying && s.isVisible && user.Some?
  }

  /** Re-running the heartbeat effect arms the timer when the gate is open and clears it otherwise. */
  function Regate(s: Session, user: Option<User>): Session {
    s.(timerArmed := GateOpen(s, user))
  }

  /** Native `play`/`pause` events, and the embedded player's state changes (`state == PLAYING`). */
  function OnPlayState(s: Session, playing: bool, user: Option<User>): Session {
    Regate(s.(isPlaying := playing), user)
  }

  function OnVisibility(s: Session, visible: bool, user: Option<User>): Session {
    Regate(s.(isVisible := visible), user)
  }

  /** A sampled position, from the media element's `timeupdate` or the one-second poll of the embedded player. */
  function OnTimeUpdate(s: Session, time: real, user: Option<User>): Session {
    Regate(s.(currentTime := time), user)
  }

  function OnMetadata(s: Session, mediaDuration: real): Session {
    s.(duration := mediaDuration)
  }

  /** The Replay button resets the position only. */
  function OnReplay(s: Session, user: Option<User>): Session {
    Regate(s.(currentTime := 0.0), user)
  }

  /** How a report submission ended: an answer from the authority, or a rejected promise. */
  datatype Reply = Delivered(response: ApiResponse<CompletionReply>) | Thrown

  /** `response.success && response.data?.completed` */
  predicate SaysCompleted(reply: Reply) {
    reply.Delivered? && reply.response.success && reply.response.data.Some? && reply.response.data.value.completed
  }

  /** The outcome of one event: the new session, the report sent, and whether `onComplete` was called. */
  datatype Step = Step(session: Session, sent: Option<ProgressHeartbeat>, completedNow: bool)

  /** `sendHeartbeat`, run when the armed timer fires. */
  function HeartbeatTick(s: Session, user: Option<User>, resourceId: string, reply: Reply): (r: Step)
    ensures r.sent.Some? <==> s.timerArmed && user.Some? && s.currentTime != s.lastHeartbeat
    ensures r.sent.Some? ==>
      r.sent.value == ProgressHeartbeat(user.value.id, resourceId, s.currentTime, s.duration, false, s.isVisible)
    ensures r.sent.Some? ==> r.session.lastHeartbeat == s.currentTime
    ensures r.sent.None? ==> r.session == s && !r.completedNow
    ensures r.completedNow <==> r.sent.Some? && SaysCompleted(reply) && !s.isCompleted
    ensures r.session.isCompleted <==> s.isCompleted || r.completedNow
    ensures r.session == s.(isCompleted := r.session.isCompleted, lastHeartbeat := r.session.lastHeartbeat)
  {
    if !s.timerArmed || user.None? || s.currentTime == s.lastHeartbeat then
      Step(s, None, false)
    else
      var report := ProgressHeartbeat(user.value.id, resourceId, s.currentTime, s.duration, false, s.isVisible);
      var fire := SaysCompleted(reply) && !s.isCompleted;
      var s' := if fire then s.(isCompleted := true) else s;
      Step(s'.(lastHeartbeat := s.currentTime), Some(report), fire)
  }

  /** `handleVideoEnd`: reports the whole duration as watched; completion is not checked against the session. */
  function VideoEnded(s: Session, user: Option<User>, resourceId: string, reply: Reply): (r: Step)
    ensures r.sent.Some? <==> user.Some?
    ensures r.sent.Some? ==>
      r.sent.value == ProgressHeartbeat(user.value.id, resourceId, s.duration, s.duration, true, s.isVisible)
    ensures r.completedNow <==> user.Some? && SaysCompleted(reply)
    ensures r.session == s.(isCompleted := s.isCompleted || r.completedNow)
  {
    if user.None? then Step(s, None, false)
    else
      var report := ProgressHeartbeat(user.value.id, resourceId, s.duration, s.duration, true, s.isVisible);
      if SaysCompleted(reply) then Step(s.(isCompleted := true), Some(report), true)
      else Step(s, Some(report), false)
  }

  // ------------------------------------------------------------ single-step laws

  /** Every event that re-runs the heartbeat effect leaves the timer armed exactly when the gate is open. */
  lemma GateFollowsEvents(s: Session, user: Option<User>, b: bool, t: real)
    ensures OnPlayState(s, b, user).timerArmed <==> b && s.isVisible && user.Some?
    ensures OnVisibility(s, b, user).timerArmed <==> s.isPlaying && b && user.Some?
    ensures OnTimeUpdate(s, t, user).timerArmed <==> s.isPlaying && s.isVisible && user.Some?
    ensures OnReplay(s, user).timerArmed <==> s.isPlaying && s.isVisible && user.Some?
    ensures !b ==> !OnPlayState(s, b, user).timerArmed && !OnVisibility(s, b, user).timerArmed
  {
  }

  /** A tick does nothing without a user or when the position has not moved since the last report. */
  lemma SkippedHeartbeats(s: Session, user: Option<User>, resourceId: string, reply: Reply)
    requires user.None? || s.currentTime == s.lastHeartbeat
    ensures HeartbeatTick(s, user, resourceId, reply) == Step(s, None, false)
  {
  }

  /** A failed or rejected report is not re-sent until the position changes. */
  lemma FailuresNotResent(s: Session, user: Option<User>, resourceId: string, reply1: Reply, reply2: Reply)
    ensures var s1 := HeartbeatTick(s, user, resourceId, reply1).session;
            HeartbeatTick(s1, user, resourceId, reply2).sent == None
  {
  }

  /** Once the session is completed, no event clears the flag. */
  lemma CompletionLatches(s: Session, user: Option<User>, resourceId: string, reply: Reply, b: bool, t: real)
    requires s.isCompleted
    ensures OnPlayState(s, b, user).isCompleted && OnVisibility(s, b, user).isCompleted
    ensures OnTimeUpdate(s, t, user).isCompleted && OnMetadata(s, t).isCompleted && OnReplay(s, user).isCompleted
    ensures HeartbeatTick(s, user, resourceId, reply).session.isCompleted
    ensures VideoEnded(s, user, resourceId, reply).session.isCompleted
    ensures !HeartbeatTick(s, user, resourceId, reply).completedNow
  {
  }

  /**
   * The end-of-media path calls `onComplete` again on an already completed
   * session: written out on a session completed by a heartbeat.
   */
  lemma EndPathRepeatsCompletion(u: User, resourceId: string)
    ensures var ok := Delivered(Succeeded(CompletionReply(true)));
            var s := InitialSession(Resource(resourceId, Video, "", Some(100.0), None, None, None, false));
            var s1 := OnPlayState(OnTimeUpdate(s, 85.0, Some(u)), true, Some(u));
            var first := HeartbeatTick(s1, Some(u), resourceId, ok);
            var second := VideoEnded(first.session, Some(u), resourceId, ok);
            first.completedNow && first.session.isCompleted && second.completedNow
  {
  }

  // ------------------------------------------------------------ event sequences

  datatype Event =
    | PlayState(playing: bool)
    | Visibility(visible: bool)
    | TimeUpdate(time: real)
    | Metadata(mediaDuration: real)
    | Tick(tickReply: Reply)
    | Ended(endReply: Reply)
    | Replay
    | UserChanged(newUser: Option<User>)

  /**
   * A session together with the store's current user, the reports sent so
   * far (heartbeats and end-of-media reports apart) and the number of
   * `onComplete` calls made from each path.
   */
  datatype Trace = Trace(session: Session, user: Option<User>,
                         heartbeats: seq<ProgressHeartbeat>, endReports: seq<ProgressHeartbeat>,
                         heartbeatCompletions: nat, endCompletions: nat)

  function Start(r: Resource, user: Option<User>): Trace {
    Trace(InitialSession(r), user, [], [], 0, 0)
  }

  function Record(t: Trace, step: Step, fromHeartbeat: bool): Trace {
    var sent := if step.sent.Some? then [step.sent.value] else [];
    var fired := if step.completedNow then 1 else 0;
    if fromHeartbeat then
      t.(session := step.session, heartbeats := t.heartbeats + sent, heartbeatCompletions := t.heartbeatCompletions + fired)
    else
      t.(session := step.session, endReports := t.endReports + sent, endCompletions := t.endCompletions + fired)
  }

  /**
   * One event.  A change of signed-in user does not re-run the heartbeat
   * effect, because the user is not among the effect's dependencies.
   */
  function Apply(t: Trace, resourceId: string, e: Event): Trace {
    match e
    case PlayState(b) => t.(session := OnPlayState(t.session, b, t.user))
    case Visibility(b) => t.(session := OnVisibility(t.session, b, t.user))
    case TimeUpdate(time) => t.(session := OnTimeUpdate(t.session, time, t.user))
    case Metadata(d) => t.(session := OnMetadata(t.session, d))
    case Tick(reply) => Record(t, HeartbeatTick(t.session, t.user, resourceId, reply), true)
    case Ended(reply) => Record(t, VideoEnded(t.session, t.user, resourceId, reply), false)
    case Replay => t.(session := OnReplay(t.session, t.user))
    case UserChanged(u) => t.(user := u)
  }

  function Run(t: Trace, resourceId: string, events: seq<Event>): Trace
    decreases |events|
  {
    if |events| == 0 then t else Run(Apply(t, resourceId, events[0]), resourceId, events[1..])
  }

  /** What every reachable trace satisfies. */
  ghost predicate Consistent(t: Trace) {
    && (t.session.timerArmed ==> t.session.isPlaying && t.session.isVisible)
    && (|t.heartbeats| > 0 ==> t.heartbeats[|t.heartbeats| - 1].watchedSeconds == t.session.lastHeartbeat)
    && (forall i :: 0 < i < |t.heartbeats| ==> t.heartbeats[i - 1].watchedSeconds != t.heartbeats[i].watchedSeconds)
    && (forall i :: 0 <= i < |t.heartbeats| ==> t.heartbeats[i].visible && !t.heartbeats[i].isEnded)
    && (t.heartbeatCompletions + t.endCompletions > 0 ==> t.session.isCompleted)
  }

  lemma StartConsistent(r: Resource, user: Option<User>)
    ensures Consistent(Start(r, user))
  {
  }

  lemma ApplyConsistent(t: Trace, resourceId: string, e: Event)
    requires Consistent(t)
    ensures Consistent(Apply(t, resourceId, e))
  {
    match e
    case Tick(reply) =>
      var step := HeartbeatTick(t.session, t.user, resourceId, reply);
      var t' := Apply(t, resourceId, e);
      if step.sent.Some? {
        assert t'.heartbeats == t.heartbeats + [step.sent.value];
        if |t.heartbeats| > 0 {
          assert t'.heartbeats[|t.heartbeats| - 1] == t.heartbeats[|t.heartbeats| - 1];
        }
        assert t'.heartbeats[..|t.heartbeats|] == t.heartbeats;
      }
    case _ =>
  }

  /**
   * Over any sequence of events from a consistent trace: no heartbeat is sent
   * while paused or hidden, so every heartbeat report says `visible`;
   * consecutive heartbeats never report the same position; and a completion
   * call from either path leaves the session completed.
   */
  lemma {:induction false} RunConsistent(t: Trace, resourceId: string, events: seq<Event>)
    requires Consistent(t)
    ensures Consistent(Run(t, resourceId, events))
    decreases |events|
  {
    if |events| > 0 {
      ApplyConsistent(t, resourceId, events[0]);
      RunConsistent(Apply(t, resourceId, events[0]), resourceId, events[1..]);
    }
  }

  /** The completion flag never goes back to false over a sequence of events. */
  lemma {:induction false} RunLatches(t: Trace, resourceId: string, events: seq<Event>)
    requires t.session.isCompleted
    ensures Run(t, resourceId, events).session.isCompleted
    decreases |events|
  {
    if |events| > 0 {
      var t' := Apply(t, resourceId, events[0]);
      assert t'.session.isCompleted;
      RunLatches(t', resourceId, events[1..]);
    }
  }

  /** The heartbeat path calls `onComplete` at most once per session, whatever the replies and their order. */
  lemma {:induction false} HeartbeatCompletesAtMostOnce(t: Trace, resourceId: string, events: seq<Event>)
    ensures Run(t, resourceId, events).heartbeatCompletions
            <= t.heartbeatCompletions + (if t.session.isCompleted then 0 else 1)
    decreases |events|
  {
    if |events| > 0 {
      var t' := Apply(t, resourceId, events[0]);
      assert t.session.isCompleted ==> t'.session.isCompleted;
      assert t'.heartbeatCompletions > t.heartbeatCompletions ==>
               !t.session.isCompleted && t'.session.isCompleted && t'.heartbeatCompletions == t.heartbeatCompletions + 1;
      HeartbeatCompletesAtMostOnce(t', resourceId, events[1..]);
    }
  }

  /** Without an end-of-media event, a fresh session calls `onComplete` at most once. */
  lemma NoEndMeansOneCompletion(r: Resource, user: Option<User>, events: seq<Event>)
    requires forall i :: 0 <= i < |events| ==> !events[i].Ended?
    ensures var t := Run(Start(r, user), r.id, events);
            t.heartbeatCompletions + t.endCompletions <= 1
  {
    HeartbeatCompletesAtMostOnce(Start(r, user), r.id, events);
    NoEndEventsNoEndCompletions(Start(r, user), r.id, events);
  }

  lemma {:induction false} NoEndEventsNoEndCompletions(t: Trace, resourceId: string, events: seq<Event>)
    requires forall i :: 0 <= i < |events| ==> !events[i].Ended?
    ensures Run(t, resourceId, events).endCompletions == t.endCompletions
    decreases |events|
  {
    if |events| > 0 {
      NoEndEventsNoEndCompletions(Apply(t, resourceId, events[0]), resourceId, events[1..]);
    }
  }

  /** Two end-of-media events with completing replies call `onComplete` twice. */
  lemma EndedTwiceCompletesTwice(r: Resource, u: User)
    ensures var ok := Delivered(Succeeded(CompletionReply(true)));
            Run(Start(r, Some(u)), r.id, [Ended(ok), Ended(ok)]).endCompletions == 2
  {
    var ok := Delivered(Succeeded(CompletionReply(true)));
    var t0 := Start(r, Some(u));
    var t1 := Apply(t0, r.id, Ended(ok));
    assert t1.endCompletions == 1;
    var t2 := Apply(t1, r.id, Ended(ok));
    assert t2.endCompletions == 2;
    assert [Ended(ok), Ended(ok)][1..] == [Ended(ok)];
    assert Run(t0, r.id, [Ended(ok), Ended(ok)]) == Run(t1, r.id, [Ended(ok)]);
    assert Run(t1, r.id, [Ended(ok)]) == Run(t2, r.id, []);
  }

  // ------------------------------------------------------------ switching resources

  /**
   * The page hands the next resource to the player already on screen: the
   * player is not remounted, so its session carries over.  The reports and
   * completion calls are counted afresh for the new resource.
   */
  function CarriedOver(t: Trace): (t': Trace)
    ensures t'.session == t.session && t'.user == t.user
    ensures t'.heartbeats == [] && t'.endReports == [] && t'.heartbeatCompletions == 0 && t'.endCompletions == 0
  {
    t.(heartbeats := [], endReports := [], heartbeatCompletions := 0, endCompletions := 0)
  }

  /** A player mounted afresh for the new resource, as a key per resource would give. */
  function Remounted(t: Trace, r: Resource): (t': Trace)
    ensures t' == Start(r, t.user)
  {
    Start(r, t.user)
  }

  /**
   * As written: once the session completed one resource, no heartbeat ever
   * completes the resource the player is switched to, whatever is reported.
   */
  lemma CarriedOverNeverCompletesByHeartbeat(t: Trace, resourceId: string, events: seq<Event>)
    requires t.session.isCompleted
    ensures Run(CarriedOver(t), resourceId, events).heartbeatCompletions == 0
  {
    HeartbeatCompletesAtMostOnce(CarriedOver(t), resourceId, events);
  }

  /**
   * The scenario written out: a heartbeat completes the first resource, the
   * page switches to the second, and a heartbeat for the second is sent and
   * answered `completed`, yet `onComplete` is not called for it.
   */
  lemma SwitchedResourceNotCompletedAsWritten(r1: Resource, r2: Resource, u: User)
    ensures var ok := Delivered(Succeeded(CompletionReply(true)));
            var first := Run(Start(r1, Some(u)), r1.id, [PlayState(true), TimeUpdate(60.0), Tick(ok)]);
            var second := Run(CarriedOver(first), r2.id, [TimeUpdate(30.0), Tick(ok)]);
            && first.heartbeatCompletions == 1
            && second.heartbeats == [ProgressHeartbeat(u.id, r2.id, 30.0, first.session.duration, false, true)]
            && second.heartbeatCompletions == 0
  {
    var ok := Delivered(Succeeded(CompletionReply(true)));
    var e1 := [PlayState(true), TimeUpdate(60.0), Tick(ok)];
    var t0 := Start(r1, Some(u));
    var t1 := Apply(t0, r1.id, e1[0]);
    var t2 := Apply(t1, r1.id, e1[1]);
    var t3 := Apply(t2, r1.id, e1[2]);
    assert t3.heartbeatCompletions == 1;
    assert Run(t0, r1.id, e1) == Run(t1, r1.id, e1[1..]);
    assert Run(t1, r1.id, e1[1..]) == Run(t2, r1.id, e1[2..]);
    assert Run(t2, r1.id, e1[2..]) == Run(t3, r1.id, []);
    var e2 := [TimeUpdate(30.0), Tick(ok)];
    var c := CarriedOver(t3);
    var c1 := Apply(c, r2.id, e2[0]);
    var c2 := Apply(c1, r2.id, e2[1]);
    assert c2.heartbeats == [ProgressHeartbeat(u.id, r2.id, 30.0, t3.session.duration, false, true)];
    assert Run(c, r2.id, e2) == Run(c1, r2.id, e2[1..]);
    assert Run(c1, r2.id, e2[1..]) == Run(c2, r2.id, []);
  }

  /** Corrected: a player remounted for the new resource completes it on the first completing heartbeat. */
  lemma RemountedCompletesByHeartbeat(t: Trace, r: Resource, u: User)
    requires t.user == Some(u)
    ensures var ok := Delivered(Succeeded(CompletionReply(true)));
            var next := Run(Remounted(t, r), r.id, [PlayState(true), TimeUpdate(30.0), Tick(ok)]);
            next.heartbeatCompletions == 1 && next.session.isCompleted
  {
    var ok := Delivered(Succeeded(CompletionReply(true)));
    var e := [PlayState(true), TimeUpdate(30.0), Tick(ok)];
    var t0 := Remounted(t, r);
    var t1 := Apply(t0, r.id, e[0]);
    var t2 := Apply(t1, r.id, e[1]);
    var t3 := Apply(t2, r.id, e[2]);
    assert t3.heartbeatCompletions == 1;
    assert Run(t0, r.id, e) == Run(t1, r.id, e[1..]);
    assert Run(t1, r.id, e[1..]) == Run(t2, r.id, e[2..]);
    assert Run(t2, r.id, e[2..]) == Run(t3, r.id, []);
  }

  /** Corrected: the remounted player still calls `onComplete` from heartbeats at most once for the new resource. */
  lemma RemountedCompletesAtMostOnce(t: Trace, r: Resource, events: seq<Event>)
    ensures Run(Remounted(t, r), r.id, events).heartbeatCompletions <= 1
  {
    HeartbeatCompletesAtMostOnce(Remounted(t, r), r.id, events);
  }

  // ------------------------------------------------------------ display helpers

  /** `formatTime`: `floor(s / 60)`, a colon, and `floor(s % 60)` padded to two digits. */
  function FormatTime(seconds: real): string {
    IntToString(Floor(seconds / 60.0)) + ":" + PadStart(IntToString(Floor(Rem60(seconds))), 2, '0')
  }

  /** For a non-negative time the two fields read back as the whole minutes and the remaining whole seconds. */
  lemma FormatTimeReadsBack(seconds: real)
    requires seconds >= 0.0
    ensures var m := Floor(seconds) / 60;
            var sec := Floor(seconds) % 60;
            && FormatTime(seconds) == NatToString(m) + ":" + PadStart(NatToString(sec), 2, '0')
            && |PadStart(NatToString(sec), 2, '0')| == 2
            && DecimalValue(NatToString(m)) * 60 + DecimalValue(NatToString(sec)) == Floor(seconds)
  {
    var n := Floor(seconds);
    var q, r := n / 60, n % 60;
    assert n == 60 * q + r;
    assert q as real <= seconds / 60.0 < q as real + 1.0;
    assert Floor(seconds / 60.0) == q;
    assert Rem60(seconds) == seconds - 60.0 * q as real;
    assert Floor(Rem60(seconds)) == r;
    NatToStringRoundTrip(q);
    NatToStringRoundTrip(r);
    NatToStringLength(r);
  }

  lemma FormatTimeExamples()
    ensures FormatTime(0.0) == "0:00"
    ensures FormatTime(65.5) == "1:05"
    ensures FormatTime(600.0) == "10:00"
  {
    assert Floor(65.5 / 60.0) == 1;
    assert Floor(Rem60(65.5)) == 5;
    assert Floor(600.0 / 60.0) == 10;
    assert Floor(Rem60(600.0)) == 0;
  }

  /** `progressPercentage`: the watched share of a known duration, 0 while the duration is not positive. */
  function ProgressPercentage(currentTime: real, duration: real): (p: real)
    ensures duration <= 0.0 ==> p == 0.0
    ensures duration > 0.0 ==> p * duration == currentTime * 100.0
    ensures duration > 0.0 && 0.0 <= currentTime <= duration ==> 0.0 <= p <= 100.0
    ensures duration > 0.0 && currentTime == duration ==> p == 100.0
  {
    if duration > 0.0 then
      PercentOf(currentTime, duration);
      (currentTime / duration) * 100.0
    else 0.0
  }

  /** What the play button asks of the media element; the embedded player handles its own controls. */
  datatype MediaCommand = NoCommand | PlayMedia | PauseMedia

  function PlayButton(kind: ResourceKind, hasMediaElement: bool, isPlaying: bool): (c: MediaCommand)
    ensures kind == YouTube || !hasMediaElement ==> c == NoCommand
    ensures kind != YouTube && hasMediaElement ==> (c == PauseMedia <==> isPlaying) && c != NoCommand
  {
    if kind == YouTube || !hasMediaElement then NoCommand
    else if isPlaying then PauseMedia
    else PlayMedia
  }

  /** The embedded player's state codes that the session distinguishes. */
  datatype EmbedState = Unstarted | EmbedEnded | EmbedPlaying | EmbedPaused | Buffering | Cued

  // ------------------------------------------------------------ the mutable session

  class PlayerSession {
    const resource: Resource
    const store: AppStore
    var isPlaying: bool
    var isVisible: bool
    var currentTime: real
    var duration: real
    var isCompleted: bool
    var lastHeartbeat: real
    var timerArmed: bool

    function State(): Session
      reads this
    {
      Session(isPlaying, isVisible, currentTime, duration, isCompleted, lastHeartbeat, timerArmed)
    }

    constructor (resource: Resource, store: AppStore)
      ensures this.resource == resource && this.store == store
      ensures State() == InitialSession(resource)
    {
      this.resource := resource;
      this.store := store;
      isPlaying := false;
      currentTime := 0.0;
      duration := if resource.duration.Some? && resource.duration.value != 0.0 then resource.duration.value else 0.0;
      isCompleted := false;
      isVisible := true;
      lastHeartbeat := 0.0;
      timerArmed := false;
    }

    /** The heartbeat effect: arm the timer when playing, visible and signed in; clear it otherwise. */
    method HeartbeatEffect()
      modifies this
      ensures State() == Regate(old(State()), store.user)
    {
      if isPlaying && isVisible && store.user.Some? {
        timerArmed := true;
      } else {
        timerArmed := false;
      }
    }

    /** The media element's `play` and `pause` events. */
    method SetPlaying(playing: bool)
      modifies this
      ensures State() == OnPlayState(old(State()), playing, store.user)
    {
      isPlaying := playing;
      HeartbeatEffect();
    }

    /** The document's `visibilitychange` event. */
    method VisibilityChange(hidden: bool)
      modifies this
      ensures State() == OnVisibility(old(State()), !hidden, store.user)
    {
      isVisible := !hidden;
      HeartbeatEffect();
    }

    /** `handleTimeUpdate` and the embedded player's poll: the sampled time goes to the session and to the store. */
    method HandleTimeUpdate(time: real)
      modifies this, store
      ensures State() == OnTimeUpdate(old(State()), time, old(store.user))
      ensures store.watchProgress == old(store.watchProgress)[resource.id := time]
      ensures store.user == old(store.user) && store.skillVector == old(store.skillVector)
      ensures store.recommendations == old(store.recommendations) && store.currentCareer == old(store.currentCareer)
      ensures store.isLoading == old(store.isLoading)
    {
      currentTime := time;
      store.UpdateWatchProgress(resource.id, time);
      HeartbeatEffect();
    }

    method HandleLoadedMetadata(mediaDuration: real)
      modifies this
      ensures State() == OnMetadata(old(State()), mediaDuration)
    {
      duration := mediaDuration;
    }

    method Replay()
      modifies this
      ensures State() == OnReplay(old(State()), store.user)
    {
      currentTime := 0.0;
      HeartbeatEffect();
    }

    /** The armed timer fires: `sendHeartbeat`, with the authority's answer as input. */
    method SendHeartbeat(reply: Reply) returns (sent: Option<ProgressHeartbeat>, completedNow: bool)
      modifies this
      ensures Step(State(), sent, completedNow) == HeartbeatTick(old(State()), store.user, resource.id, reply)
    {
      sent, completedNow := None, false;
      if !timerArmed {
        return;
      }
      if store.user.None? || currentTime == lastHeartbeat {
        return;
      }
      sent := Some(ProgressHeartbeat(store.user.value.id, resource.id, currentTime, duration, false, isVisible));
      if SaysCompleted(reply) && !isCompleted {
        isCompleted := true;
        completedNow := true;
      }
      lastHeartbeat := currentTime;
    }

    method HandleVideoEnd(reply: Reply) returns (sent: Option<ProgressHeartbeat>, completedNow: bool)
      modifies this
      ensures Step(State(), sent, completedNow) == VideoEnded(old(State()), store.user, resource.id, reply)
    {
      sent, completedNow := None, false;
      if store.user.None? {
        return;
      }
      sent := Some(ProgressHeartbeat(store.user.value.id, resource.id, duration, duration, true, isVisible));
      if SaysCompleted(reply) {
        isCompleted := true;
        completedNow := true;
      }
    }

    /** The embedded player's `onStateChange`: playing iff PLAYING; ENDED also runs the end-of-media path. */
    method EmbedStateChange(state: EmbedState, endReply: Reply) returns (sent: Option<ProgressHeartbeat>, completedNow: bool)
      modifies this
      ensures var played := OnPlayState(old(State()), state == EmbedPlaying, store.user);
              if state == EmbedEnded then Step(State(), sent, completedNow) == VideoEnded(played, store.user, resource.id, endReply)
              else State() == played && sent == None && !completedNow
    {
      SetPlaying(state == EmbedPlaying);
      sent, completedNow := None, false;
      if state == EmbedEnded {
        sent, completedNow := HandleVideoEnd(endReply);
      }
    }

    /** `progressPercentage` of the current state. */
    function Progress(): real
      reads this
    {
      ProgressPercentage(currentTime, duration)
    }
  }
}
