/**
  The component as the page runs it: `App` owns the state and updates it in
  place; the browser's local storage and the document are objects it is handed
  (in the page they are globals reached through `web_sys` and `gloo_storage`).
  Each method is specified by the pure functions of `AppState` and `HandOff`.
 */
module Component {
  import opened Wrappers
  import opened AppState
  import opened View
  import opened HandOff
  import opened Session

  /** The local-storage entry under the key `codestyle.state`. Writes always succeed in this model. */
  class LocalStorage {
    var slot: StorageSlot

    constructor (slot: StorageSlot)
      ensures this.slot == slot
    {
      this.slot := slot;
    }

    /** `LocalStorage::get`: the record, or `None` when missing or unreadable. */
    method Get() returns (r: StorageSlot)
      ensures r == slot
    {
      r := slot;
    }

    /** `LocalStorage::set`: overwrite the entry with `stored`. */
    method Set(stored: StoredState)
      modifies this
      ensures slot == Some(stored)
    {
      slot := Some(stored);
    }
  }

  /** The page's document, seen through the highlighter containers it holds. */
  class Document {
    var highlighters: seq<Container>
    ghost var highlightCalls: nat   // how often the external highlighter has run

    constructor ()
      ensures highlighters == [] && highlightCalls == 0
    {
      highlighters := [];
      highlightCalls := 0;
    }

    /** The first `div.dp-highlighter` in the document, if there is one. */
    method QueryFirst() returns (r: Option<Container>)
      ensures r.None? <==> highlighters == []
      ensures r.Some? ==> r.value == highlighters[0]
    {
      if highlighters == [] {
        r := None;
      } else {
        r := Some(highlighters[0]);
      }
    }

    /** `element.remove()` applied to the first container. */
    method RemoveFirstContainer()
      modifies this
      ensures highlighters == RemoveFirst(old(highlighters))
      ensures highlightCalls == old(highlightCalls)
    {
      if highlighters != [] {
        highlighters := highlighters[1..];
      }
    }

    /** The external `highlighter::highlight()`: it wraps `preview` in one new container. */
    method Highlight(preview: Container)
      modifies this
      ensures highlighters == old(highlighters) + [preview]
      ensures highlightCalls == old(highlightCalls) + 1
    {
      highlighters := highlighters + [preview];
      highlightCalls := highlightCalls + 1;
    }
  }

  class App {
    var state: State

    /** `create`: start from the defaults and let a readable stored flag override `showInfo`. */
    constructor (storage: LocalStorage)
      ensures state == Initial(storage.slot)
    {
      var s := DefaultState;
      var local := storage.Get();
      if local.Some? {
        if local.value.showInfo.Some? {
          s := s.(showInfo := local.value.showInfo.value);
        }
      }
      state := s;
    }

    /**
      `update`: handle `msg`, reading the textarea's current value `textarea`
      for `InputCode`; always asks for a re-render. Dismissing the intro
      rewrites the stored record with the inverted flag.
     */
    method Update(msg: Msg, textarea: string, storage: LocalStorage) returns (rerender: bool)
      modifies this, storage
      ensures rerender
      ensures state == Reduce(old(state), msg, textarea)
      ensures storage.slot == StoreAfter(old(storage.slot), msg)
    {
      match msg
      case HideInitMessage(dontShowAgain) =>
        state := state.(showInfo := false);
        var local := storage.Get();
        if local.Some? {
          var stored := local.value.(showInfo := Some(!dontShowAgain));
          storage.Set(stored);
        } else {
          storage.Set(StoredState(Some(!dontShowAgain)));
        }
        rerender := true;
      case ChooseLanguage(language) =>
        state := state.(programmingLanguage := Some(language));
        rerender := true;
      case InputCode =>
        state := state.(code := textarea);
        rerender := true;
    }

    /** `format_code`: remove the first existing container, then run the highlighter once. */
    method FormatCode(doc: Document)
      modifies doc
      ensures doc.highlighters == HandOff.FormatCode(old(doc.highlighters), PreviewOf(state))
      ensures old(|doc.highlighters|) <= 1 ==> doc.highlighters == [PreviewOf(state)]
      ensures doc.highlightCalls == old(doc.highlightCalls) + 1
    {
      var element := doc.QueryFirst();
      if element.Some? {
        doc.RemoveFirstContainer();
      }
      doc.Highlight(PreviewOf(state));
    }

    /** `rendered`: re-highlight exactly when there is code and a chosen language. */
    method Rendered(doc: Document)
      modifies doc
      ensures doc.highlighters == HandOff.Rendered(old(doc.highlighters), state)
      ensures doc.highlightCalls == old(doc.highlightCalls) + (if ShouldFormat(state) then 1 else 0)
    {
      if state.code != "" && state.programmingLanguage.Some? {
        FormatCode(doc);
      }
    }
  }

  /**
    One event as the page handles it: `update`, then the re-render it asks for,
    then `rendered`. The objects end up as `Session.Step` says, so the lemmas
    about runs of events hold for the objects too.
   */
  method Cycle(app: App, storage: LocalStorage, doc: Document, msg: Msg, textarea: string)
    modifies app, storage, doc
    ensures Page(app.state, storage.slot, doc.highlighters)
         == Step(old(Page(app.state, storage.slot, doc.highlighters)), Event(msg, textarea))
  {
    var rerender := app.Update(msg, textarea, storage);
    if rerender {
      app.Rendered(doc);
    }
  }
}
