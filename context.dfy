/**
 * The application context provider: the auto-connect on launch with its
 * one-shot latch, the handling of a rejected connect, and `handleError`.
 *
 * The provider reacts to discrete events. `Next` and `Output` give the state
 * after an event and the effects the event issues (connect calls, toasts,
 * the popup, closing the mini app); the class `AppProvider` holds the same
 * state in fields and is proved to follow them. Events may come in any
 * order, so every lemma over runs holds for whatever order the platform
 * and the wallet SDK deliver them in.
 */
module Context {
  import opened Wrappers

  /** The error code the wallet SDK uses for an invalid or expired token. */
  const InvalidTokenCode: int := 10005

  const CreateWalletErrorText := "Create wallet error, please reload this page."
  const UnknownErrorText := "unknown error occurred"
  const CloseButtonId := "close"

  /** The wallet SDK's `connectionStatus`. */
  datatype ConnectionStatus = Loading | Connecting | Connected | Disconnected

  /** An error object: `error_code`, `message` and `extra`, each possibly absent. */
  datatype ErrorValue = ErrorValue(errorCode: Option<int>, message: Option<string>, extra: Option<string>)

  datatype PopupButton = PopupButton(kind: string, id: string)
  datatype Popup = Popup(title: string, message: string, buttons: seq<PopupButton>)

  const InvalidTokenPopup := Popup("Invalid Token", "Please reopen this mini app.", [PopupButton("ok", CloseButtonId)])

  datatype Effect =
    | Connect(thirdpartyCode: string)   // `connect` with the Telegram provider and this credential
    | ToastError(text: string)
    | OpenPopup(popup: Popup)
    | CloseMiniApp

  /**
   * The provider's state: the launch init data, the SDK's status, the held
   * `connectError`, and the latch `initDataConnectedRef`.
   */
  datatype State = State(
    initDataRaw: Option<string>,
    connectionStatus: ConnectionStatus,
    connectError: Option<ErrorValue>,
    initDataConnected: bool)

  datatype Event =
    | EffectRuns                          // the auto-connect effect runs
    | ConnectResolved                     // a connect call resolved
    | ConnectRejected(error: ErrorValue)  // a connect call rejected
    | HandleError(error: ErrorValue)      // a consumer called `handleError`
    | PopupAnswered(buttonId: Option<string>)  // the popup's promise: a button id, or None when it failed
    | StatusChanged(status: ConnectionStatus)  // the SDK changed `connectionStatus`

  /** The state at mount: no error held and the latch down. */
  function Initial(initDataRaw: Option<string>, status: ConnectionStatus): (s: State)
    ensures s.connectError.None? && !s.initDataConnected
  {
    State(initDataRaw, status, None, false)
  }

  /** `initDataRaw` is truthy: present and not empty. */
  predicate HasInitData(s: State)
  {
    s.initDataRaw.Some? && s.initDataRaw.value != ""
  }

  /** The effect's outer guard. */
  predicate AutoConnectEnabled(s: State)
  {
    HasInitData(s) && s.connectionStatus == Disconnected && s.connectError.None?
  }

  /** The toast text for an error: its message, or a fallback when that is empty or absent. */
  function ErrorMessage(error: ErrorValue): (text: string)
    ensures text != ""
    ensures error.message.Some? && error.message.value != "" ==> text == error.message.value
  {
    if error.message.Some? && error.message.value != "" then error.message.value else UnknownErrorText
  }

  /** The state after one event. The init data never changes, and neither the latch nor a held error is ever dropped. */
  function Next(s: State, e: Event): (r: State)
    ensures r.initDataRaw == s.initDataRaw
    ensures s.initDataConnected ==> r.initDataConnected
    ensures s.connectError.Some? ==> r.connectError.Some?
  {
    match e
    case EffectRuns =>
      if AutoConnectEnabled(s) && !s.initDataConnected then s.(initDataConnected := true) else s
    case ConnectResolved => s
    case ConnectRejected(error) => s.(connectError := Some(error))
    case HandleError(_) => s
    case PopupAnswered(_) => s
    case StatusChanged(status) => s.(connectionStatus := status)
  }

  /** The effects of one event: at most one, and a connect only ever with the init data. */
  function Output(s: State, e: Event): (r: seq<Effect>)
    ensures |r| <= 1
    ensures forall i :: 0 <= i < |r| && r[i].Connect? ==>
      HasInitData(s) && r[i].thirdpartyCode == s.initDataRaw.value
  {
    match e
    case EffectRuns =>
      if AutoConnectEnabled(s) && !s.initDataConnected then [Connect(s.initDataRaw.value)] else []
    case ConnectResolved => []
    case ConnectRejected(_) => [ToastError(CreateWalletErrorText)]
    case HandleError(error) =>
      if error.errorCode == Some(InvalidTokenCode) then
        if !s.initDataConnected && HasInitData(s) then [Connect(s.initDataRaw.value)]
        else [OpenPopup(InvalidTokenPopup)]
      else [ToastError(ErrorMessage(error))]
    case PopupAnswered(buttonId) => if buttonId == Some(CloseButtonId) then [CloseMiniApp] else []
    case StatusChanged(_) => []
  }

  /** The state after a sequence of events. */
  function Run(s: State, events: seq<Event>): (r: State)
    ensures r.initDataRaw == s.initDataRaw
    decreases |events|
  {
    if events == [] then s else Run(Next(s, events[0]), events[1..])
  }

  /** The effects a sequence of events issues, in order. */
  function Trace(s: State, events: seq<Event>): (r: seq<Effect>)
    ensures |r| <= |events|
    ensures forall i :: 0 <= i < |r| && r[i].Connect? ==>
      HasInitData(s) && r[i].thirdpartyCode == s.initDataRaw.value
    decreases |events|
  {
    if events == [] then [] else Output(s, events[0]) + Trace(Next(s, events[0]), events[1..])
  }

  /** How many connects the auto-connect effect starts during a sequence of events. */
  function LaunchConnects(s: State, events: seq<Event>): nat
    decreases |events|
  {
    if events == [] then 0
    else
      (if events[0].EffectRuns? && Output(s, events[0]) != [] then 1 else 0)
      + LaunchConnects(Next(s, events[0]), events[1..])
  }

  /**
   * The effect starts a connect, with the init data, exactly when init data
   * is present, the status is "disconnected", no error is held and the latch
   * is down; it raises the latch before connecting. Otherwise it does nothing.
   */
  lemma AutoConnectCondition(s: State)
    ensures Output(s, EffectRuns) != [] <==>
      HasInitData(s) && s.connectionStatus == Disconnected && s.connectError.None? && !s.initDataConnected
    ensures Output(s, EffectRuns) != [] ==>
      Output(s, EffectRuns) == [Connect(s.initDataRaw.value)] && Next(s, EffectRuns).initDataConnected
    ensures Output(s, EffectRuns) == [] ==> Next(s, EffectRuns) == s
  {
  }

  /** Only the effect raises the latch, and nothing lowers it. */
  lemma OnlyTheEffectLatches(s: State, e: Event)
    ensures s.initDataConnected ==> Next(s, e).initDataConnected
    ensures !e.EffectRuns? ==> Next(s, e).initDataConnected == s.initDataConnected
  {
  }

  /** Once raised, the latch stays raised for the provider's lifetime. */
  lemma {:induction false} LatchNeverResets(s: State, events: seq<Event>)
    requires s.initDataConnected
    ensures Run(s, events).initDataConnected
    decreases |events|
  {
    if events != [] {
      LatchNeverResets(Next(s, events[0]), events[1..]);
    }
  }

  /** The effect starts at most one connect per provider lifetime, and none once the latch is up. */
  lemma {:induction false} AutoConnectAtMostOnce(s: State, events: seq<Event>)
    ensures LaunchConnects(s, events) <= 1
    ensures s.initDataConnected ==> LaunchConnects(s, events) == 0
    decreases |events|
  {
    if events != [] {
      var e := events[0];
      AutoConnectAtMostOnce(Next(s, e), events[1..]);
      if e.EffectRuns? && Output(s, e) != [] {
        assert Next(s, e).initDataConnected;
      }
    }
  }

  /**
   * A rejected connect holds the error and issues exactly one generic toast,
   * whatever the error code; nothing else changes.
   */
  lemma ConnectRejectedHoldsError(s: State, error: ErrorValue)
    ensures Next(s, ConnectRejected(error)).connectError == Some(error)
    ensures Output(s, ConnectRejected(error)) == [ToastError(CreateWalletErrorText)]
    ensures Next(s, ConnectRejected(error)).initDataConnected == s.initDataConnected
    ensures Next(s, ConnectRejected(error)).connectionStatus == s.connectionStatus
  {
  }

  /** A resolved connect changes neither the held error nor the latch and issues nothing. */
  lemma ConnectResolvedIsSilent(s: State)
    ensures Next(s, ConnectResolved) == s && Output(s, ConnectResolved) == []
  {
  }

  /** A held error is never cleared, so after a failure the effect starts no connect. */
  lemma {:induction false} ConnectErrorNeverCleared(s: State, events: seq<Event>)
    requires s.connectError.Some?
    ensures Run(s, events).connectError.Some?
    ensures LaunchConnects(s, events) == 0
    decreases |events|
  {
    if events != [] {
      ConnectErrorNeverCleared(Next(s, events[0]), events[1..]);
    }
  }

  /**
   * `handleError` with code 10005 connects again with the init data exactly
   * when the latch is down and init data is present; otherwise it opens the
   * "Invalid Token" popup with its single "close" button.
   */
  lemma InvalidTokenHandling(s: State, error: ErrorValue)
    requires error.errorCode == Some(InvalidTokenCode)
    ensures |Output(s, HandleError(error))| == 1
    ensures Output(s, HandleError(error))[0].Connect? <==> !s.initDataConnected && HasInitData(s)
    ensures !s.initDataConnected && HasInitData(s) ==>
      Output(s, HandleError(error)) == [Connect(s.initDataRaw.value)]
    ensures s.initDataConnected || !HasInitData(s) ==>
      Output(s, HandleError(error)) == [OpenPopup(InvalidTokenPopup)]
      && |InvalidTokenPopup.buttons| == 1 && InvalidTokenPopup.buttons[0].id == "close"
  {
  }

  /** Any other code issues one toast with the message, or the fallback text. */
  lemma OtherErrorHandling(s: State, error: ErrorValue)
    requires error.errorCode != Some(InvalidTokenCode)
    ensures Output(s, HandleError(error)) == [ToastError(ErrorMessage(error))]
    ensures error.message.None? || error.message == Some("") ==>
      Output(s, HandleError(error)) == [ToastError("unknown error occurred")]
  {
  }

  /** `handleError` never changes the latch, the held error or the status. */
  lemma HandleErrorKeepsState(s: State, error: ErrorValue)
    ensures Next(s, HandleError(error)) == s
  {
  }

  /** Answering "close" closes the mini app; any other answer or a failed popup does nothing. */
  lemma PopupAnswerHandling(s: State, buttonId: Option<string>)
    ensures Output(s, PopupAnswered(buttonId)) == [CloseMiniApp] <==> buttonId == Some("close")
    ensures buttonId != Some("close") ==> Output(s, PopupAnswered(buttonId)) == []
    ensures Next(s, PopupAnswered(buttonId)) == s
  {
  }

  function Repeat<T>(x: T, n: nat): (r: seq<T>)
    ensures |r| == n && forall i :: 0 <= i < n ==> r[i] == x
  {
    if n == 0 then [] else [x] + Repeat(x, n - 1)
  }

  /**
   * `handleError` reads the latch but never raises it: before the launch
   * connect, every report of code 10005 starts another connect.
   */
  lemma {:induction false} InvalidTokenReconnectsEachTime(s: State, error: ErrorValue, n: nat)
    requires error.errorCode == Some(InvalidTokenCode)
    requires !s.initDataConnected && HasInitData(s)
    ensures Trace(s, Repeat(HandleError(error), n)) == Repeat(Connect(s.initDataRaw.value), n)
    ensures Run(s, Repeat(HandleError(error), n)) == s
  {
    if n > 0 {
      var events := Repeat(HandleError(error), n);
      assert events[1..] == Repeat(HandleError(error), n - 1);
      InvalidTokenReconnectsEachTime(s, error, n - 1);
    }
  }

  /**
   * A launch whose connect is rejected: one connect, the generic toast; a
   * later report of code 10005 finds the latch up and opens the popup, and
   * the effect never connects again.
   */
  lemma RejectedLaunchThenInvalidToken(initData: string, error: ErrorValue)
    requires initData != "" && error.errorCode == Some(InvalidTokenCode)
    ensures var events := [EffectRuns, ConnectRejected(error), EffectRuns, HandleError(error)];
      Trace(Initial(Some(initData), Disconnected), events)
        == [Connect(initData), ToastError(CreateWalletErrorText), OpenPopup(InvalidTokenPopup)]
    ensures var events := [EffectRuns, ConnectRejected(error), EffectRuns, HandleError(error)];
      forall later: seq<Event> :: LaunchConnects(Run(Initial(Some(initData), Disconnected), events), later) == 0
  {
    var s0 := Initial(Some(initData), Disconnected);
    var events := [EffectRuns, ConnectRejected(error), EffectRuns, HandleError(error)];
    var s1 := Next(s0, EffectRuns);
    var s2 := Next(s1, ConnectRejected(error));
    assert events[1..] == [ConnectRejected(error), EffectRuns, HandleError(error)];
    assert events[1..][1..] == [EffectRuns, HandleError(error)];
    assert events[1..][1..][1..] == [HandleError(error)];
    assert [HandleError(error)][1..] == [];
    assert [EffectRuns, HandleError(error)][1..] == [HandleError(error)];
    assert s2.initDataConnected && s2.connectError.Some?;
    assert Output(s2, EffectRuns) == [] && Next(s2, EffectRuns) == s2;
    assert Trace(s2, [HandleError(error)]) == [OpenPopup(InvalidTokenPopup)];
    assert Trace(s2, [EffectRuns, HandleError(error)]) == [OpenPopup(InvalidTokenPopup)];
    assert Run(s2, [HandleError(error)]) == s2;
    assert Run(s2, [EffectRuns, HandleError(error)]) == s2;
    assert Run(s0, events) == s2;
    forall later: seq<Event> ensures LaunchConnects(Run(s0, events), later) == 0 {
      ConnectErrorNeverCleared(s2, later);
    }
  }

  /**
   * A launch whose connect succeeds: one connect and no notification, also
   * when the effect runs again.
   */
  lemma SuccessfulLaunchIsSilent(initData: string)
    requires initData != ""
    ensures var events := [EffectRuns, ConnectResolved, StatusChanged(Connected), EffectRuns];
      Trace(Initial(Some(initData), Disconnected), events) == [Connect(initData)]
  {
    var events := [EffectRuns, ConnectResolved, StatusChanged(Connected), EffectRuns];
    assert events[1..] == [ConnectResolved, StatusChanged(Connected), EffectRuns];
    assert events[1..][1..] == [StatusChanged(Connected), EffectRuns];
    assert events[1..][1..][1..] == [EffectRuns];
    assert [EffectRuns][1..] == [];
  }

  /** `useAppContext`: the context value, or an error outside an `AppProvider`. */
  function UseAppContext<T>(context: Option<T>): (r: Result<T, string>)
    ensures r.Ok? <==> context.Some?
    ensures r.Ok? ==> r.value == context.value
    ensures r.Err? ==> r.error == "useAppContext must be used within an AppProvider."
  {
    match context
    case Some(value) => Ok(value)
    case None => Err("useAppContext must be used within an AppProvider.")
  }

  /** `AppProvider`: its hooks' state as fields, and the effects it has issued. */
  class AppProvider {
    const initDataRaw: Option<string>
    var connectionStatus: ConnectionStatus
    var connectError: Option<ErrorValue>
    var initDataConnected: bool
    var effects: seq<Effect>

    function Snapshot(): State
      reads this
    {
      State(initDataRaw, connectionStatus, connectError, initDataConnected)
    }

    constructor(initDataRaw: Option<string>, connectionStatus: ConnectionStatus)
      ensures Snapshot() == Initial(initDataRaw, connectionStatus) && effects == []
    {
      this.initDataRaw := initDataRaw;
      this.connectionStatus := connectionStatus;
      connectError := None;
      initDataConnected := false;
      effects := [];
    }

    /** `connectWithTelegram`, up to the call: its outcome arrives as a later event. */
    method ConnectWithTelegram(initData: string)
      modifies this
      ensures Snapshot() == old(Snapshot())
      ensures effects == old(effects) + [Connect(initData)]
    {
      effects := effects + [Connect(initData)];
    }

    /** The auto-connect effect. */
    method RunEffect()
      modifies this
      ensures Snapshot() == Next(old(Snapshot()), EffectRuns)
      ensures effects == old(effects) + Output(old(Snapshot()), EffectRuns)
    {
      if initDataRaw.Some? && initDataRaw.value != "" && connectionStatus == Disconnected && connectError.None? {
        if initDataConnected {
          return;
        }
        initDataConnected := true;
        ConnectWithTelegram(initDataRaw.value);
      }
    }

    /** The connect call resolved: nothing to do. */
    method OnConnectResolved()
      modifies this
      ensures Snapshot() == Next(old(Snapshot()), ConnectResolved)
      ensures effects == old(effects) + Output(old(Snapshot()), ConnectResolved)
    {
    }

    /** The connect call rejected: hold the error and toast. */
    method OnConnectRejected(error: ErrorValue)
      modifies this
      ensures Snapshot() == Next(old(Snapshot()), ConnectRejected(error))
      ensures effects == old(effects) + Output(old(Snapshot()), ConnectRejected(error))
    {
      connectError := Some(error);
      effects := effects + [ToastError(CreateWalletErrorText)];
    }

    method HandleError(error: ErrorValue)
      modifies this
      ensures Snapshot() == Next(old(Snapshot()), Event.HandleError(error))
      ensures effects == old(effects) + Output(old(Snapshot()), Event.HandleError(error))
    {
      if error.errorCode == Some(InvalidTokenCode) {
        if !initDataConnected && initDataRaw.Some? && initDataRaw.value != "" {
          ConnectWithTelegram(initDataRaw.value);
        } else {
          effects := effects + [OpenPopup(InvalidTokenPopup)];
        }
      } else {
        effects := effects + [ToastError(ErrorMessage(error))];
      }
    }

    /** The popup's promise settled with a button id, or failed (None). */
    method OnPopupAnswered(buttonId: Option<string>)
      modifies this
      ensures Snapshot() == Next(old(Snapshot()), PopupAnswered(buttonId))
      ensures effects == old(effects) + Output(old(Snapshot()), PopupAnswered(buttonId))
    {
      if buttonId.Some? && buttonId.value == CloseButtonId {
        effects := effects + [CloseMiniApp];
      }
    }

    /** The wallet SDK changed `connectionStatus`. */
    method OnStatusChanged(status: ConnectionStatus)
      modifies this
      ensures Snapshot() == Next(old(Snapshot()), StatusChanged(status))
      ensures effects == old(effects) + Output(old(Snapshot()), StatusChanged(status))
    {
      connectionStatus := status;
    }
  }
}
