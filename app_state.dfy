/**
  The component's state, the preference record kept in local storage, the
  messages the page sends, and the reducer that turns a message into the
  next state.
 */
module AppState {
  import opened Wrappers
  import opened Languages

  /** The UI state owned by the component. */
  datatype State = State(
    showInfo: bool,                  // the intro panel is shown instead of the workbench
    code: string,                    // the pasted code; "" means nothing entered
    programmingLanguage: Option<Language>)

  /** The record persisted under the key `codestyle.state`; `showInfo` is the "show the intro next time" flag. */
  datatype StoredState = StoredState(showInfo: Option<bool>)

  /**
    The local-storage entry as the component reads it: `None` when the key is
    missing or its value cannot be deserialised, `Some` of the record otherwise.
   */
  type StorageSlot = Option<StoredState>

  datatype Msg =
    | HideInitMessage(dontShowAgain: bool)
    | ChooseLanguage(language: Language)
    | InputCode    // the textarea's value is read at update time

  /** The defaults a fresh component starts from. */
  const DefaultState := State(true, "", None)

  /**
    The state a freshly created component starts in: the defaults, except that a
    readable record with a `showInfo` value decides whether the intro is shown.
   */
  function Initial(slot: StorageSlot): (s: State)
    ensures s.code == "" && s.programmingLanguage == None
    ensures !s.showInfo <==> slot == Some(StoredState(Some(false)))
  {
    match slot
    case Some(StoredState(Some(b))) => DefaultState.(showInfo := b)
    case _ => DefaultState
  }

  /**
    The storage entry after the intro is dismissed: the old record with
    `showInfo` replaced, or a new record when none could be read. The stored
    flag is the negation of the message argument.
   */
  function StoreAfterHide(slot: StorageSlot, dontShowAgain: bool): (r: StorageSlot)
    ensures r == Some(StoredState(Some(!dontShowAgain)))
  {
    match slot
    case Some(stored) => Some(stored.(showInfo := Some(!dontShowAgain)))
    case None => Some(StoredState(Some(!dontShowAgain)))
  }

  /** The new storage entry after `msg`: only dismissing the intro writes it. */
  function StoreAfter(slot: StorageSlot, msg: Msg): (r: StorageSlot)
    ensures !msg.HideInitMessage? ==> r == slot
    ensures msg.HideInitMessage? ==> Initial(r).showInfo == !msg.dontShowAgain
  {
    if msg.HideInitMessage? then StoreAfterHide(slot, msg.dontShowAgain) else slot
  }

  /**
    The state after `msg`, where `textarea` is the value of the code textarea
    when the message is handled. Each message writes its own field only, and
    no message turns the intro back on.
   */
  function Reduce(s: State, msg: Msg, textarea: string): (r: State)
    ensures r.showInfo == (s.showInfo && !msg.HideInitMessage?)
    ensures r.code == (if msg.InputCode? then textarea else s.code)
    ensures r.programmingLanguage ==
              (if msg.ChooseLanguage? then Some(msg.language) else s.programmingLanguage)
  {
    match msg
    case HideInitMessage(_) => s.(showInfo := false)
    case ChooseLanguage(l) => s.(programmingLanguage := Some(l))
    case InputCode => s.(code := textarea)
  }

  /** Dismissing the intro and reloading shows the intro exactly when the argument was false. */
  lemma HideRoundTrip(slot: StorageSlot, dontShowAgain: bool)
    ensures Initial(StoreAfterHide(slot, dontShowAgain)).showInfo == !dontShowAgain
    ensures Initial(StoreAfterHide(slot, dontShowAgain)).code == ""
  {
  }

  /** Choosing the same language twice is the same as choosing it once. */
  lemma ChooseLanguageIdempotent(s: State, l: Language, t1: string, t2: string)
    ensures Reduce(Reduce(s, ChooseLanguage(l), t1), ChooseLanguage(l), t2)
         == Reduce(s, ChooseLanguage(l), t1)
  {
  }

  /** Re-reading the same textarea value is a no-op the second time. */
  lemma InputCodeIdempotent(s: State, t: string)
    ensures Reduce(Reduce(s, InputCode, t), InputCode, t) == Reduce(s, InputCode, t)
  {
  }
}
