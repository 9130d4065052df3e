/**
 * The wizard controller of client/src/hooks/useMindfulChat.ts: the hook's
 * state slots, its handlers, the effect that loads a step's content and
 * reports the step, and the replies and timers that arrive from outside.
 *
 * `State` is the hook's state as a value and each handler is a function on
 * it; `Controller` is the hook as an object whose methods update its fields
 * and are proved to agree with those functions. Requests to the backend are
 * appended to an outbox; their replies and the expiry of timers are events
 * the environment delivers, in any order it likes.
 */
module MindfulChat {
  import opened Wrappers
  import opened Schema
  import opened ChatContent
  import opened ChatContainer
  import opened NavigationControls
  import Storage

  datatype StatusKind = Success | Error | Info

  /** The status slot: a text and its kind. */
  datatype Status = Status(text: string, kind: StatusKind)

  const RecordedText: string := "Session recorded successfully"
  const NoSessionText: string := "No active session to record"
  const CreateFailedText: string := "Failed to create session record. Please try again."
  const UpdateFailedText: string := "Failed to update session record. Please try again."

  /** A request handed to the backend: POST /api/sessions, or PATCH /api/sessions/:id. */
  datatype Call = CreateCall(insert: InsertSession) | UpdateCall(id: int, update: UpdateSession)

  /** A pending setTimeout callback. */
  datatype Timer =
    | HideStatus    // 3000 ms after a status is shown
    | ClearStatus   // 300 ms after it is hidden
    | RestartLater  // 2000 ms after a session is completed

  /** createSession(mood) posts the mood with step 1 and completed false. */
  function CreateBody(mood: Mood): (b: InsertSession)
    ensures ParseMood(b.mood) == Some(mood)
    ensures b.step == Some(1) && b.completed == Some(false)
  {
    ParseMoodRoundTrip(mood);
    InsertSession(MoodText(mood), Some(1), Some(false))
  }

  /** The payload `{ step: currentStep }`. */
  function StepBody(step: int): UpdateSession
  {
    UpdateSession(Put(Some(step)), Keep)
  }

  /** The payload `{ completed: true }`. */
  function CompletedBody(): UpdateSession
  {
    UpdateSession(Keep, Put(true))
  }

  /** On the server, the step report sets the record's step and touches nothing else but the update time. */
  lemma StepReportSetsOnlyStep(s: Session, step: int, now: int)
    ensures Storage.Merge(s, StepBody(step), now) == s.(step := Some(step), timestampUpdated := now)
  {
  }

  /** The completion report sets completed to true and touches nothing else but the update time. */
  lemma CompletionSetsOnlyCompleted(s: Session, now: int)
    ensures Storage.Merge(s, CompletedBody(), now) == s.(completed := Some(true), timestampUpdated := now)
  {
  }

  /** `if (sessionId)`: an id is known and is not 0. */
  predicate HasSession(sessionId: Option<int>)
  {
    sessionId.Some? && sessionId.value != 0
  }

  /** The hook's state slots, plus the requests issued and the timers pending. */
  datatype State = State(
    currentStep: int,
    selectedMood: Option<Mood>,
    sessionId: Option<int>,
    isSessionStarted: bool,
    statusMessage: Option<Status>,
    showStatus: bool,
    messages: seq<Message>,
    outbox: seq<Call>,
    timers: seq<Timer>)

  /** The state before anything happens. */
  const Initial: State := State(0, None, None, false, None, false, [], [], [])

  /**
   * What the handlers keep true: the step stays in 0..3, a mood is chosen
   * exactly while a session runs, a running session is on a step 1..3
   * showing that step's content, and no messages show before it starts.
   */
  predicate Consistent(s: State)
  {
    && 0 <= s.currentStep <= 3
    && (s.isSessionStarted <==> s.selectedMood.Some?)
    && (s.isSessionStarted ==> 1 <= s.currentStep && s.messages == GetChatContent(s.selectedMood.value, s.currentStep))
    && (!s.isSessionStarted ==> s.messages == [])
  }

  /** The values the content effect depends on. */
  datatype Deps = Deps(step: int, mood: Option<Mood>, started: bool, id: Option<int>)

  function DepsOf(s: State): Deps
  {
    Deps(s.currentStep, s.selectedMood, s.isSessionStarted, s.sessionId)
  }

  /** The step report the effect sends, if a session id is known. */
  function StepReport(sessionId: Option<int>, step: int): seq<Call>
  {
    if HasSession(sessionId) then [UpdateCall(sessionId.value, StepBody(step))] else []
  }

  /** The effect's body: load the step's content and report the step, while a session runs. */
  function Sync(s: State): State
  {
    if s.isSessionStarted && s.selectedMood.Some? && s.currentStep > 0 then
      s.(messages := GetChatContent(s.selectedMood.value, s.currentStep),
         outbox := s.outbox + StepReport(s.sessionId, s.currentStep))
    else s
  }

  /** The effect runs after a render in which one of its dependencies changed. */
  function AfterChange(before: State, after: State): State
  {
    if DepsOf(before) == DepsOf(after) then after else Sync(after)
  }

  /** showStatusMessage: fill the slot, show it, and start the 3000 ms hide timer. */
  function ShowStatus(s: State, text: string, kind: StatusKind): State
  {
    s.(statusMessage := Some(Status(text, kind)), showStatus := true, timers := s.timers + [HideStatus])
  }

  /** handleMoodSelect: choose the mood, go to step 1, start, and ask for a session record. */
  function MoodSelect(s: State, mood: Mood): State
  {
    AfterChange(s, s.(selectedMood := Some(mood), currentStep := 1, isSessionStarted := true,
                      outbox := s.outbox + [CreateCall(CreateBody(mood))]))
  }

  /** The step handleNext moves to. */
  function NextStep(step: int): int
  {
    if step < 3 then step + 1 else step
  }

  /** The step handlePrevious moves to. */
  function PreviousStep(step: int): int
  {
    if step > 1 then step - 1 else step
  }

  function Next(s: State): State
  {
    AfterChange(s, s.(currentStep := NextStep(s.currentStep)))
  }

  function Previous(s: State): State
  {
    AfterChange(s, s.(currentStep := PreviousStep(s.currentStep)))
  }

  /** handleRestart: back to the mood selector; the status slot, requests and timers are left alone. */
  function Restart(s: State): State
  {
    AfterChange(s, s.(currentStep := 0, selectedMood := None, isSessionStarted := false, messages := [], sessionId := None))
  }

  /** handleComplete: with a session id, report completion, say so, and restart in 2000 ms. */
  function Complete(s: State): State
  {
    if HasSession(s.sessionId) then
      var t := ShowStatus(s.(outbox := s.outbox + [UpdateCall(s.sessionId.value, CompletedBody())]), RecordedText, Success);
      t.(timers := t.timers + [RestartLater])
    else s
  }

  /** logSessionToAirtable: the same report without the restart, or an error when there is no session id. */
  function LogSession(s: State): State
  {
    if HasSession(s.sessionId) then
      ShowStatus(s.(outbox := s.outbox + [UpdateCall(s.sessionId.value, CompletedBody())]), RecordedText, Success)
    else ShowStatus(s, NoSessionText, Error)
  }

  /** The create request succeeded with the record `id`. */
  function CreateSucceeded(s: State, id: int): State
  {
    AfterChange(s, s.(sessionId := Some(id)))
  }

  /** The create request failed. */
  function CreateFailed(s: State): State
  {
    ShowStatus(s, CreateFailedText, Error)
  }

  /** An update request failed. */
  function UpdateFailed(s: State): State
  {
    ShowStatus(s, UpdateFailedText, Error)
  }

  /** The pending timer at index `i` fires and leaves the list. */
  function FireTimer(s: State, i: nat): State
    requires i < |s.timers|
  {
    var rest := s.(timers := s.timers[..i] + s.timers[i + 1..]);
    match s.timers[i]
    case HideStatus => rest.(showStatus := false, timers := rest.timers + [ClearStatus])
    case ClearStatus => rest.(statusMessage := None)
    case RestartLater => Restart(rest)
  }

  // Properties of the handlers.

  /** The wizard starts on no step, with no mood, no session id, not started and no messages. */
  lemma InitialIsConsistent()
    ensures Consistent(Initial)
    ensures Initial.currentStep == 0 && Initial.selectedMood.None? && Initial.sessionId.None?
    ensures !Initial.isSessionStarted && Initial.messages == []
  {
  }

  /** The effect keeps the invariant: it only ever loads the content of the current step. */
  lemma AfterChangeConsistent(before: State, after: State)
    requires Consistent(after) || (DepsOf(before) != DepsOf(after) && 0 <= after.currentStep <= 3
      && (after.isSessionStarted <==> after.selectedMood.Some?)
      && (after.isSessionStarted ==> 1 <= after.currentStep)
      && (!after.isSessionStarted ==> after.messages == []))
    ensures Consistent(AfterChange(before, after))
  {
  }

  /**
   * Choosing a mood starts the session on step 1 with that step's content and
   * issues exactly one create request for the mood; any further request is a
   * step report. From the mood selector, the only other request is the step
   * report for a session id that is already known.
   */
  lemma MoodSelectStarts(s: State, mood: Mood)
    requires Consistent(s)
    ensures var r := MoodSelect(s, mood);
      && Consistent(r)
      && r.selectedMood == Some(mood) && r.currentStep == 1 && r.isSessionStarted
      && r.messages == GetChatContent(mood, 1)
      && r.sessionId == s.sessionId
      && |s.outbox| < |r.outbox| <= |s.outbox| + 2
      && r.outbox[..|s.outbox| + 1] == s.outbox + [CreateCall(CreateBody(mood))]
      && (forall k :: |s.outbox| < k < |r.outbox| ==> r.outbox[k].UpdateCall?)
      && (!s.isSessionStarted ==> r.outbox == s.outbox + [CreateCall(CreateBody(mood))] + StepReport(s.sessionId, 1))
  {
    var t := s.(selectedMood := Some(mood), currentStep := 1, isSessionStarted := true,
                outbox := s.outbox + [CreateCall(CreateBody(mood))]);
    var r := MoodSelect(s, mood);
    if DepsOf(s) == DepsOf(t) {
      assert r == t;
    } else {
      assert r == Sync(t);
      assert r.outbox == t.outbox + StepReport(s.sessionId, 1);
    }
    assert r.outbox[..|s.outbox| + 1] == t.outbox;
  }

  /**
   * handleNext moves on exactly when the step is below 3 and never past 3; a
   * move in a running session reports the new step when a session id is
   * known, and nothing else changes.
   */
  lemma NextMoves(s: State)
    requires Consistent(s)
    ensures var r := Next(s);
      && Consistent(r)
      && r.currentStep == (if s.currentStep < 3 then s.currentStep + 1 else s.currentStep)
      && r.currentStep <= 3
      && r.selectedMood == s.selectedMood && r.isSessionStarted == s.isSessionStarted && r.sessionId == s.sessionId
      && r.statusMessage == s.statusMessage && r.showStatus == s.showStatus && r.timers == s.timers
      && r.outbox == s.outbox + (if s.isSessionStarted && s.currentStep < 3 then StepReport(s.sessionId, s.currentStep + 1) else [])
      && (s.currentStep >= 3 ==> r == s)
  {
  }

  /**
   * handlePrevious moves back exactly when the step is above 1, so a running
   * session never drops below step 1; a move in a running session reports
   * the new step when a session id is known, and nothing else changes.
   */
  lemma PreviousMoves(s: State)
    requires Consistent(s)
    ensures var r := Previous(s);
      && Consistent(r)
      && r.currentStep == (if s.currentStep > 1 then s.currentStep - 1 else s.currentStep)
      && (s.isSessionStarted ==> r.currentStep >= 1)
      && r.selectedMood == s.selectedMood && r.isSessionStarted == s.isSessionStarted && r.sessionId == s.sessionId
      && r.statusMessage == s.statusMessage && r.showStatus == s.showStatus && r.timers == s.timers
      && r.outbox == s.outbox + (if s.isSessionStarted && s.currentStep > 1 then StepReport(s.sessionId, s.currentStep - 1) else [])
      && (s.currentStep <= 1 ==> r == s)
  {
  }

  /** Back is disabled exactly when handlePrevious would do nothing. */
  lemma BackDisabledIffPreviousIsNoOp(s: State)
    ensures BackDisabled(s.currentStep) <==> Previous(s) == s
  {
    if !BackDisabled(s.currentStep) {
      assert Previous(s).currentStep != s.currentStep;
    }
  }

  /** Next is disabled exactly when handleNext would do nothing. */
  lemma NextDisabledIffNextIsNoOp(s: State)
    ensures NextDisabled(s.currentStep, TotalSteps) <==> Next(s) == s
  {
    if !NextDisabled(s.currentStep, TotalSteps) {
      assert Next(s).currentStep != s.currentStep;
    }
  }

  /** Pressing Next `k` times. */
  function NextTimes(s: State, k: nat): State
    decreases k
  {
    if k == 0 then s else NextTimes(Next(s), k - 1)
  }

  /** From any step of a running session, enough presses of Next reach step 3 and stay there. */
  lemma {:induction false} NextReachesLastStep(s: State, k: nat)
    requires Consistent(s) && s.isSessionStarted && k >= 3 - s.currentStep
    ensures NextTimes(s, k).currentStep == 3
    ensures Consistent(NextTimes(s, k))
    decreases k
  {
    if k > 0 {
      NextMoves(s);
      NextReachesLastStep(Next(s), k - 1);
    }
  }

  /**
   * handleRestart returns the five wizard slots to their initial values from
   * any state, leaves the status slot, the requests and the timers alone, and
   * doing it twice is doing it once.
   */
  lemma RestartResets(s: State)
    ensures var r := Restart(s);
      && Consistent(r)
      && r.currentStep == 0 && r.selectedMood.None? && !r.isSessionStarted && r.messages == [] && r.sessionId.None?
      && r.statusMessage == s.statusMessage && r.showStatus == s.showStatus
      && r.outbox == s.outbox && r.timers == s.timers
      && Restart(r) == r
  {
  }

  /**
   * handleComplete does nothing without a session id; with one it reports
   * completion, shows the success status and arms the hide and restart
   * timers, leaving the wizard where it is.
   */
  lemma CompleteReports(s: State)
    ensures !HasSession(s.sessionId) ==> Complete(s) == s
    ensures HasSession(s.sessionId) ==>
      var r := Complete(s);
      && r.outbox == s.outbox + [UpdateCall(s.sessionId.value, CompletedBody())]
      && r.statusMessage == Some(Status(RecordedText, Success)) && r.showStatus
      && r.timers == s.timers + [HideStatus, RestartLater]
      && r.currentStep == s.currentStep && r.selectedMood == s.selectedMood
      && r.isSessionStarted == s.isSessionStarted && r.messages == s.messages && r.sessionId == s.sessionId
  {
  }

  /** logSessionToAirtable reports like handleComplete without the restart, and reports an error without a session id. */
  lemma LogSessionReports(s: State)
    ensures var r := LogSession(s);
      && r.currentStep == s.currentStep && r.selectedMood == s.selectedMood
      && r.isSessionStarted == s.isSessionStarted && r.messages == s.messages && r.sessionId == s.sessionId
      && r.showStatus && r.timers == s.timers + [HideStatus]
      && (HasSession(s.sessionId) ==>
            r.outbox == s.outbox + [UpdateCall(s.sessionId.value, CompletedBody())]
            && r.statusMessage == Some(Status(RecordedText, Success)))
      && (!HasSession(s.sessionId) ==>
            r.outbox == s.outbox && r.statusMessage == Some(Status(NoSessionText, Error)))
  {
  }

  /** A failed request only reports an error: the wizard, its session id and the requests stay as they were. */
  lemma FailuresOnlyReport(s: State)
    ensures var c := CreateFailed(s);
      && c == s.(statusMessage := Some(Status(CreateFailedText, Error)), showStatus := true, timers := s.timers + [HideStatus])
    ensures var u := UpdateFailed(s);
      && u == s.(statusMessage := Some(Status(UpdateFailedText, Error)), showStatus := true, timers := s.timers + [HideStatus])
  {
  }

  /**
   * A successful create records the id; while the session runs, a new id
   * makes the effect report the current step under it at once.
   */
  lemma CreateSucceededReportsStep(s: State, id: int)
    requires Consistent(s)
    ensures var r := CreateSucceeded(s, id);
      && Consistent(r)
      && r.sessionId == Some(id)
      && r.currentStep == s.currentStep && r.selectedMood == s.selectedMood && r.messages == s.messages
      && (s.isSessionStarted && s.sessionId != Some(id) ==> r.outbox == s.outbox + StepReport(Some(id), s.currentStep))
      && (!s.isSessionStarted ==> r.outbox == s.outbox)
  {
  }

  /** Firing any pending timer keeps the invariant. */
  lemma FireTimerConsistent(s: State, i: nat)
    requires Consistent(s) && i < |s.timers|
    ensures Consistent(FireTimer(s, i))
  {
    if s.timers[i] == RestartLater {
      RestartResets(s.(timers := s.timers[..i] + s.timers[i + 1..]));
    }
  }

  /** A status is shown, hidden by its 3000 ms timer, then cleared by the 300 ms one. */
  lemma StatusHidesThenClears(s: State, text: string, kind: StatusKind)
    ensures var shown := ShowStatus(s, text, kind);
      var n := |s.timers|;
      && shown.statusMessage == Some(Status(text, kind)) && shown.showStatus && shown.timers[n] == HideStatus
      && var hidden := FireTimer(shown, n);
         && !hidden.showStatus && hidden.statusMessage == Some(Status(text, kind))
         && hidden.timers == s.timers + [ClearStatus]
         && var cleared := FireTimer(hidden, n);
            && cleared.statusMessage.None? && !cleared.showStatus && cleared.timers == s.timers
  {
    var shown := ShowStatus(s, text, kind);
    var n := |s.timers|;
    assert shown.timers[..n] + shown.timers[n + 1..] == s.timers;
    var hidden := FireTimer(shown, n);
    assert hidden.timers[..n] + hidden.timers[n + 1..] == s.timers;
  }

  /**
   * Timers are never cancelled: a clear timer left from an earlier status
   * empties the slot of a status shown after it, while that status is still
   * meant to be on screen.
   */
  lemma StaleClearEmptiesNewStatus(s: State, i: nat, text: string, kind: StatusKind)
    requires i < |s.timers| && s.timers[i] == ClearStatus
    ensures var r := FireTimer(ShowStatus(s, text, kind), i);
      r.showStatus && r.statusMessage.None?
  {
  }

  /**
   * While a session runs the messages are the content of its mood and step,
   * the conversation is on screen, and the final options are offered
   * exactly on step 3; before it starts the mood selector is on screen.
   */
  lemma ConsistentScreen(s: State)
    requires Consistent(s)
    ensures var screen := ScreenOf(s.isSessionStarted, s.currentStep, s.messages);
      && (!s.isSessionStarted ==> screen.MoodSelection?)
      && (s.isSessionStarted ==>
            && s.messages == GetChatContent(s.selectedMood.value, s.currentStep)
            && screen.Conversation?
            && (screen.finalOptions <==> s.currentStep == 3))
  {
    if s.isSessionStarted {
      FinalOptionsAtLastStep(s.selectedMood.value, s.currentStep);
    }
  }

  /** The hook as an object: one field per state slot, updated in place by the handlers. */
  class Controller {
    var currentStep: int
    var selectedMood: Option<Mood>
    var sessionId: Option<int>
    var isSessionStarted: bool
    var statusMessage: Option<Status>
    var showStatus: bool
    var messages: seq<Message>
    var outbox: seq<Call>
    var timers: seq<Timer>

    /** The fields as a state value. */
    function Snapshot(): State
      reads this
    {
      State(currentStep, selectedMood, sessionId, isSessionStarted, statusMessage, showStatus, messages, outbox, timers)
    }

    predicate Valid()
      reads this
    {
      Consistent(Snapshot())
    }

    constructor ()
      ensures Snapshot() == Initial && Valid()
    {
      currentStep := 0;
      selectedMood := None;
      sessionId := None;
      isSessionStarted := false;
      statusMessage := None;
      showStatus := false;
      messages := [];
      outbox := [];
      timers := [];
    }

    /** The content effect, run after a handler when one of its dependencies changed since `before`. */
    method RunEffect(before: State)
      modifies this
      ensures Snapshot() == AfterChange(before, old(Snapshot()))
      ensures old(Valid()) ==> Valid()
    {
      if DepsOf(before) != DepsOf(Snapshot()) && isSessionStarted && selectedMood.Some? && currentStep > 0 {
        messages := GetChatContent(selectedMood.value, currentStep);
        if HasSession(sessionId) {
          outbox := outbox + [UpdateCall(sessionId.value, StepBody(currentStep))];
        }
      }
    }

    method ShowStatusMessage(text: string, kind: StatusKind)
      modifies this
      ensures Snapshot() == ShowStatus(old(Snapshot()), text, kind)
      ensures old(Valid()) ==> Valid()
    {
      statusMessage := Some(Status(text, kind));
      showStatus := true;
      timers := timers + [HideStatus];
    }

    method HandleMoodSelect(mood: Mood)
      requires Valid()
      modifies this
      ensures Snapshot() == MoodSelect(old(Snapshot()), mood) && Valid()
    {
      var before := Snapshot();
      selectedMood := Some(mood);
      currentStep := 1;
      isSessionStarted := true;
      outbox := outbox + [CreateCall(CreateBody(mood))];
      RunEffect(before);
      MoodSelectStarts(before, mood);
    }

    method HandleNext()
      requires Valid()
      modifies this
      ensures Snapshot() == Next(old(Snapshot())) && Valid()
    {
      var before := Snapshot();
      if currentStep < 3 {
        currentStep := currentStep + 1;
      }
      RunEffect(before);
      NextMoves(before);
    }

    method HandlePrevious()
      requires Valid()
      modifies this
      ensures Snapshot() == Previous(old(Snapshot())) && Valid()
    {
      var before := Snapshot();
      if currentStep > 1 {
        currentStep := currentStep - 1;
      }
      RunEffect(before);
      PreviousMoves(before);
    }

    method HandleRestart()
      modifies this
      ensures Snapshot() == Restart(old(Snapshot())) && Valid()
    {
      var before := Snapshot();
      currentStep := 0;
      selectedMood := None;
      isSessionStarted := false;
      messages := [];
      sessionId := None;
      RunEffect(before);
      RestartResets(before);
    }

    method HandleComplete()
      requires Valid()
      modifies this
      ensures Snapshot() == Complete(old(Snapshot())) && Valid()
    {
      if HasSession(sessionId) {
        outbox := outbox + [UpdateCall(sessionId.value, CompletedBody())];
        ShowStatusMessage(RecordedText, Success);
        timers := timers + [RestartLater];
      }
    }

    method LogSessionToAirtable()
      requires Valid()
      modifies this
      ensures Snapshot() == LogSession(old(Snapshot())) && Valid()
    {
      if HasSession(sessionId) {
        outbox := outbox + [UpdateCall(sessionId.value, CompletedBody())];
        ShowStatusMessage(RecordedText, Success);
      } else {
        ShowStatusMessage(NoSessionText, Error);
      }
    }

    /** The create mutation's onSuccess with the returned record's id. */
    method OnCreateSuccess(id: int)
      requires Valid()
      modifies this
      ensures Snapshot() == CreateSucceeded(old(Snapshot()), id) && Valid()
    {
      var before := Snapshot();
      sessionId := Some(id);
      RunEffect(before);
      CreateSucceededReportsStep(before, id);
    }

    /** The create mutation's onError. */
    method OnCreateError()
      requires Valid()
      modifies this
      ensures Snapshot() == CreateFailed(old(Snapshot())) && Valid()
    {
      ShowStatusMessage(CreateFailedText, Error);
    }

    /** The update mutation's onError. */
    method OnUpdateError()
      requires Valid()
      modifies this
      ensures Snapshot() == UpdateFailed(old(Snapshot())) && Valid()
    {
      ShowStatusMessage(UpdateFailedText, Error);
    }

    /** The environment lets the pending timer at index `i` expire. */
    method Tick(i: nat)
      requires Valid() && i < |timers|
      modifies this
      ensures Snapshot() == FireTimer(old(Snapshot()), i) && Valid()
    {
      var before := Snapshot();
      var timer := timers[i];
      timers := timers[..i] + timers[i + 1..];
      match timer {
        case HideStatus =>
          showStatus := false;
          timers := timers + [ClearStatus];
        case ClearStatus =>
          statusMessage := None;
        case RestartLater =>
          HandleRestart();
      }
      FireTimerConsistent(before, i);
    }
  }
}
