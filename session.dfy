/**
  A page session as a sequence of update/render cycles. Each event is one
  message together with the textarea's value at that moment; since every
  update asks for a re-render, each event is followed by `rendered`.
 */
module Session {
  import opened Wrappers
  import opened Languages
  import opened AppState
  import opened View
  import opened HandOff

  /** Everything a cycle reads or writes: the state, the storage entry and the document. */
  datatype Page = Page(state: State, storage: StorageSlot, highlighters: seq<Container>)

  datatype Event = Event(msg: Msg, textarea: string)

  /** Page load: create the component from storage, then the first render into an empty document. */
  function Load(slot: StorageSlot): (p: Page)
    ensures p.state == Initial(slot)
    ensures p.highlighters == [] && p.storage == slot
  {
    var s := Initial(slot);
    Page(s, slot, Rendered([], s))
  }

  /** One cycle: `update`, which always asks for a re-render, then `rendered`. */
  function Step(p: Page, e: Event): (r: Page)
    ensures r.state == Reduce(p.state, e.msg, e.textarea)
    ensures r.storage == StoreAfter(p.storage, e.msg)
    ensures |p.highlighters| <= 1 ==> |r.highlighters| <= 1
    ensures ShouldFormat(r.state) && |p.highlighters| <= 1 ==> r.highlighters == [PreviewOf(r.state)]
    ensures !ShouldFormat(r.state) ==> r.highlighters == p.highlighters
  {
    var s := Reduce(p.state, e.msg, e.textarea);
    Page(s, StoreAfter(p.storage, e.msg), Rendered(p.highlighters, s))
  }

  /** The page after the events, handled in order. */
  function Run(p: Page, events: seq<Event>): Page
    decreases |events|
  {
    if events == [] then p else Run(Step(p, events[0]), events[1..])
  }

  /** The language of the last `ChooseLanguage` among the events, or `current` if there is none. */
  function LastLanguage(events: seq<Event>, current: Option<Language>): Option<Language>
    decreases |events|
  {
    if events == [] then current
    else if events[|events| - 1].msg.ChooseLanguage? then Some(events[|events| - 1].msg.language)
    else LastLanguage(events[..|events| - 1], current)
  }

  /** The textarea value at the last `InputCode` among the events, or `current` if there is none. */
  function LastCode(events: seq<Event>, current: string): string
    decreases |events|
  {
    if events == [] then current
    else if events[|events| - 1].msg.InputCode? then events[|events| - 1].textarea
    else LastCode(events[..|events| - 1], current)
  }

  /** Whether any of the events dismisses the intro. */
  predicate AnyHide(events: seq<Event>)
  {
    exists i :: 0 <= i < |events| && events[i].msg.HideInitMessage?
  }

  /** The argument of the last `HideInitMessage` among the events. */
  function LastDontShowAgain(events: seq<Event>): bool
    requires AnyHide(events)
    decreases |events|
  {
    var n := |events| - 1;
    if events[n].msg.HideInitMessage? then events[n].msg.dontShowAgain
    else
      assert AnyHide(events[..n]) by {
        var i :| 0 <= i < |events| && events[i].msg.HideInitMessage?;
        assert i < n && events[..n][i] == events[i];
      }
      LastDontShowAgain(events[..n])
  }

  /** Running two batches of events is running their concatenation. */
  lemma {:induction false} RunAppend(p: Page, events: seq<Event>, more: seq<Event>)
    ensures Run(p, events + more) == Run(Run(p, events), more)
    decreases |events|
  {
    if events == [] {
      assert events + more == more;
    } else {
      assert (events + more)[0] == events[0];
      assert (events + more)[1..] == events[1..] + more;
      RunAppend(Step(p, events[0]), events[1..], more);
    }
  }

  /** Running one event more is one more cycle. */
  lemma RunSnoc(p: Page, events: seq<Event>, e: Event)
    ensures Run(p, events + [e]) == Step(Run(p, events), e)
  {
    RunAppend(p, events, [e]);
    assert Run(Run(p, events), [e]) == Run(Step(Run(p, events), e), []);
  }

  /** Once the intro is hidden, no sequence of messages shows it again. */
  lemma {:induction false} IntroStaysHidden(p: Page, events: seq<Event>)
    requires !p.state.showInfo
    ensures !Run(p, events).state.showInfo
    decreases |events|
  {
    if events != [] {
      IntroStaysHidden(Step(p, events[0]), events[1..]);
    }
  }

  /** From at most one highlighter container, no sequence of messages leaves more than one. */
  lemma {:induction false} NoAccumulation(p: Page, events: seq<Event>)
    requires |p.highlighters| <= 1
    ensures |Run(p, events).highlighters| <= 1
    decreases |events|
  {
    if events != [] {
      NoAccumulation(Step(p, events[0]), events[1..]);
    }
  }

  /**
    When at most one container exists at the start and the final state calls
    for highlighting, the document holds exactly one container, and it wraps
    the current preview.
   */
  lemma {:induction false} ContainerMatchesLastCycle(p: Page, events: seq<Event>)
    requires |p.highlighters| <= 1 && events != []
    requires ShouldFormat(Run(p, events).state)
    ensures Run(p, events).highlighters == [PreviewOf(Run(p, events).state)]
  {
    var n := |events| - 1;
    assert events == events[..n] + [events[n]];
    RunSnoc(p, events[..n], events[n]);
    NoAccumulation(p, events[..n]);
  }

  /** The language is the one chosen last, or the starting one if none was chosen. */
  lemma {:induction false} LastLanguageWins(p: Page, events: seq<Event>)
    ensures Run(p, events).state.programmingLanguage
         == LastLanguage(events, p.state.programmingLanguage)
    decreases |events|
  {
    if events != [] {
      var n := |events| - 1;
      assert events == events[..n] + [events[n]];
      RunSnoc(p, events[..n], events[n]);
      LastLanguageWins(p, events[..n]);
    }
  }

  /** The code is the textarea value read by the last `InputCode`, or the starting code. */
  lemma {:induction false} LastCodeWins(p: Page, events: seq<Event>)
    ensures Run(p, events).state.code == LastCode(events, p.state.code)
    decreases |events|
  {
    if events != [] {
      var n := |events| - 1;
      assert events == events[..n] + [events[n]];
      RunSnoc(p, events[..n], events[n]);
      LastCodeWins(p, events[..n]);
    }
  }

  /** Some event dismisses the intro exactly when the last one does or an earlier one does. */
  lemma AnyHideSplit(events: seq<Event>)
    requires events != []
    ensures AnyHide(events) <==>
              events[|events| - 1].msg.HideInitMessage? || AnyHide(events[..|events| - 1])
  {
    var n := |events| - 1;
    if AnyHide(events) && !events[n].msg.HideInitMessage? {
      var i :| 0 <= i < |events| && events[i].msg.HideInitMessage?;
      assert events[..n][i] == events[i];
    }
    if AnyHide(events[..n]) {
      var i :| 0 <= i < n && events[..n][i].msg.HideInitMessage?;
      assert events[i] == events[..n][i];
    }
  }

  /**
    After a session, a reload shows the intro exactly when the last dismissal
    was not a permanent one; without any dismissal the stored entry is untouched.
   */
  lemma {:induction false} ReloadAfterRun(p: Page, events: seq<Event>)
    ensures !AnyHide(events) ==> Run(p, events).storage == p.storage
    ensures AnyHide(events) ==>
              Load(Run(p, events).storage).state.showInfo == !LastDontShowAgain(events)
    decreases |events|
  {
    if events != [] {
      var n := |events| - 1;
      var init, last := events[..n], events[n];
      assert events == init + [last];
      RunSnoc(p, init, last);
      ReloadAfterRun(p, init);
      AnyHideSplit(events);
    }
  }

  /**
    Clearing the code leaves the last container in the document: `rendered`
    only ever removes a container just before adding a new one.
   */
  lemma ClearingCodeKeepsContainer(p: Page)
    requires |p.highlighters| == 1
    ensures Step(p, Event(InputCode, "")).highlighters == p.highlighters
  {
  }

  /**
    Choosing Python and typing `print(1)` leaves one container of class
    `python` around the code; choosing Java then replaces it with one of
    class `java`.
   */
  lemma PythonThenJava(slot: StorageSlot)
    ensures Run(Load(slot), [Event(ChooseLanguage(Python), ""), Event(InputCode, "print(1)")]).highlighters
         == [Container("python", "print(1)")]
    ensures Run(Load(slot), [Event(ChooseLanguage(Python), ""), Event(InputCode, "print(1)"),
                             Event(ChooseLanguage(Java), "print(1)")]).highlighters
         == [Container("java", "print(1)")]
  {
    var e1, e2, e3 := Event(ChooseLanguage(Python), ""), Event(InputCode, "print(1)"),
                      Event(ChooseLanguage(Java), "print(1)");
    var p0 := Load(slot);
    var p1 := Step(p0, e1);
    var p2 := Step(p1, e2);
    var p3 := Step(p2, e3);
    assert p1.highlighters == [] by {
      assert p1.state.code == "";
    }
    assert p2.highlighters == [Container("python", "print(1)")] by {
      assert p2.state.code == "print(1)" && p2.state.programmingLanguage == Some(Python);
    }
    assert p3.highlighters == [Container("java", "print(1)")] by {
      assert p3.state.code == "print(1)" && p3.state.programmingLanguage == Some(Java);
    }
    assert Run(p0, [e1, e2]) == p2 by {
      assert [e1, e2][1..] == [e2];
      assert [e2][1..] == [];
      assert Run(p0, [e1, e2]) == Run(p1, [e2]);
      assert Run(p1, [e2]) == Run(p2, []);
    }
    assert Run(p0, [e1, e2, e3]) == p3 by {
      assert [e1, e2, e3][1..] == [e2, e3];
      assert [e2, e3][1..] == [e3];
      assert [e3][1..] == [];
      assert Run(p0, [e1, e2, e3]) == Run(p1, [e2, e3]);
      assert Run(p1, [e2, e3]) == Run(p2, [e3]);
    }
  }

  /** Dismissing the intro for good and reloading keeps it hidden; the other button brings it back. */
  lemma DismissThenReload(p: Page, textarea: string)
    ensures !Load(Step(p, Event(HideInitMessage(true), textarea)).storage).state.showInfo
    ensures Load(Step(p, Event(HideInitMessage(false), textarea)).storage).state.showInfo
  {
  }
}
