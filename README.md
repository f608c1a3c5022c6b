# Code highlighting workbench: model of the component's state machine

This models the core of the single-page code highlighting workbench: a Yew
component (`src/app.rs`). You paste code, choose one of twelve languages, and
an external highlighter turns the preview into highlighted markup. The model
covers these parts:

- **Language catalog** (`Languages`). The closed set of twelve languages, each
  with a highlighter class tag, a display name and an icon path. Each mapping
  has an inverse (`FromClass`, `FromName`, `FromFilePath`), and each mapping's
  contract states the round trip through its inverse. So the twelve tags are
  pairwise distinct, and so are the names and the icon paths.
- **State, stored preference and reducer** (`AppState`). The covered pieces:
  - the `State` record (`showInfo`, `code`, `programmingLanguage`);
  - the `StoredState` record kept under the storage key `codestyle.state`;
  - the three messages;
  - `Initial`, the state `create` builds;
  - `Reduce`, the effect of `update` on the state;
  - `StoreAfterHide`, the read-modify-write of the stored record when the intro
    is dismissed.

  The storage entry is `Option<StoredState>`. `None` stands for both a missing
  entry and an unreadable one, because the source treats the two alike.
- **View derivations** (`View`). The parts of the page that depend on the state:
  - which screen is visible;
  - the dropdown's icon and label;
  - the class and text of the `<pre>` preview element.
- **Render hand-off** (`HandOff`). The document is modelled as the sequence of
  `div.dp-highlighter` containers it holds, in document order.
  - `FormatCode` removes the first container, if there is one, and then the
    external highlighter adds exactly one container wrapping the current preview.
  - `Rendered` runs `FormatCode` only when there is code and a chosen language.
- **Sessions** (`Session`). A page load followed by update/render cycles.
  - Every `update` returns "re-render", so `rendered` follows every message.
  - Each event carries the textarea's value at that moment.
  - The lemmas here are stated over whole sequences of events: the intro never
    comes back, containers do not accumulate, the last chosen language and the
    last input win, and reloading reads back the inverted dismissal flag.
- **Component** (`Component`). The imperative layer.
  - The class `App` owns `state` and updates it in place.
  - `LocalStorage` and `Document` stand for the browser's storage entry and
    document. The source reaches them as globals; here they are objects passed
    to `App`'s methods.
  - Each method is specified by the pure functions above. `Document` keeps a
    ghost count of highlighter runs, so `Rendered` can state that it runs the
    highlighter exactly when the guard holds.

The state record is a value (`datatype State`), and `App` reassigns it one
field at a time (`state.(showInfo := false)`). It is owned by `App` alone and
never shared, so this is the same as updating its fields in place.

Two behaviours of the code worth knowing:

- Dismissing the intro is followed by `rendered` like any other message
  (src/app.rs:148-153). So it re-highlights whenever there is code and a chosen
  language, whether or not the code or the language changed.
- Clearing the code removes nothing: the last container stays in the document,
  because a container is only removed just before a new one is added
  (`Session.ClearingCodeKeepsContainer`). There is still never more than one
  container (`Session.NoAccumulation`), and the container matches the current
  preview whenever highlighting is due (`Session.ContainerMatchesLastCycle`).

## Model

| member | source | states |
|---|---|---|
| `Languages.ToClass` | src/app.rs:38-53 | every language has a non-empty class tag, and `FromClass` maps the tag back to that language (so the 12 tags are pairwise distinct) |
| `Languages.ToName` | src/app.rs:55-70 | every language has a non-empty display name, and `FromName` maps it back to that language |
| `Languages.ToFilePath` | src/app.rs:71-86 | every icon path lies under `./assets/images/`, and `FromFilePath` maps it back to its language |
| `Languages.CatalogComplete` | src/app.rs:22-35 | the catalog lists all 12 languages, each exactly once |
| `Languages.CatalogDistinct` | src/app.rs:38-86 | two different languages never share a class tag, a display name or an icon path |
| `AppState.Initial` | src/app.rs:125-140 | a fresh state has empty code and no language; the intro is hidden exactly when a readable stored record holds `showInfo = Some(false)`, and is shown otherwise (missing or unreadable record, or `None` flag) |
| `AppState.StoreAfterHide` | src/app.rs:157-174 | dismissing the intro leaves the entry holding `showInfo = Some(!dontShowAgain)`, whether or not the previous record was readable |
| `AppState.StoreAfter` | src/app.rs:155-191 | only `HideInitMessage` writes the storage entry, and a reload after it shows the intro exactly when the argument was false |
| `AppState.Reduce` | src/app.rs:155-191 | each message writes only its own field: `HideInitMessage` sets `showInfo` to false, `ChooseLanguage(l)` sets the language to `Some(l)`, `InputCode` sets the code to the textarea's value; no message sets `showInfo` to true |
| `AppState.HideRoundTrip` | src/app.rs:136-174 | after a dismissal with argument `d`, a fresh `create` yields `showInfo == !d` and empty code |
| `AppState.ChooseLanguageIdempotent` | src/app.rs:177-181 | choosing the same language twice is the same as choosing it once |
| `AppState.InputCodeIdempotent` | src/app.rs:182-189 | reading the same textarea value twice is the same as reading it once |
| `View.IntroHidden` | src/app.rs:205 | the intro panel is hidden exactly when `showInfo` is false, and exactly when the workbench is not hidden |
| `View.WorkbenchHidden` | src/app.rs:323 | the workbench is hidden exactly when `showInfo` is true |
| `View.ExactlyOnePanelVisible` | src/app.rs:205-323 | the intro panel's and the workbench's `hidden` attributes are complementary, so exactly one panel is visible, and it is the intro exactly when `showInfo` is true |
| `View.DropdownIcon` | src/app.rs:341-345 | an icon is shown exactly when a language is chosen, and it is that language's icon |
| `View.DropdownLabel` | src/app.rs:350-354 | the label is `Select a Programming language ...` when no language is chosen; otherwise it is two spaces followed by the chosen language's name |
| `View.DropdownLabelIdentifiesLanguage` | src/app.rs:350-354 | two states with the same dropdown label have the same language |
| `View.PreviewClass` | src/app.rs:468 | the preview's class is empty exactly when no language is chosen; otherwise it is the tag of the chosen language |
| `View.PreviewText` | src/app.rs:468 | the preview text is never empty: it is the code when there is code, and `Nothing to show...yet` otherwise |
| `HandOff.PreviewOf` | src/app.rs:468 | the element the highlighter wraps has non-empty text, and its class names the chosen language |
| `HandOff.ShouldFormat` | src/app.rs:150 | holds exactly when the code is non-empty and a language is chosen (the preview has a class); then the preview is the code itself under the chosen language's class |
| `HandOff.RemoveFirst` | src/app.rs:111-115 | removing via `query_selector` takes out the first container when there is one, and nothing otherwise |
| `HandOff.FormatCode` | src/app.rs:108-118 | the first container is removed before exactly one container for the preview is appended; from at most one container the result is exactly `[preview]`, and the count grows only from zero to one |
| `HandOff.Rendered` | src/app.rs:148-153 | without code or without a language the document is unchanged; otherwise the first container is replaced by a trailing container for the current preview, and at most one container stays at most one |
| `HandOff.RenderedShowsCurrentCode` | src/app.rs:148-153 | after a re-highlight from at most one container, the single container wraps the current code under the chosen language's class |
| `HandOff.EmptyCodeNeverHighlights` | src/app.rs:148-153 | with empty code the document is unchanged, whatever the language |
| `Session.Load` | src/app.rs:125-153 | page load starts in the state `create` builds from the storage entry (`Initial`), with no containers and the storage untouched |
| `Session.Step` | src/app.rs:148-191 | a cycle leaves the state at `Reduce` of the old state and the storage at `StoreAfter` of the old entry; it keeps the container count at most one, leaves exactly the current preview's container when highlighting is due, and leaves the document alone otherwise |
| `Session.IntroStaysHidden` | src/app.rs:155-191 | once `showInfo` is false, it stays false under every sequence of messages |
| `Session.NoAccumulation` | src/app.rs:108-191 | starting from at most one container, every sequence of messages and renders leaves at most one |
| `Session.ContainerMatchesLastCycle` | src/app.rs:108-191 | after any non-empty run that ends with code and a language, the document holds exactly one container, and it wraps the current preview |
| `Session.LastLanguageWins` | src/app.rs:177-181 | after any run, the language is the one from the last `ChooseLanguage`, or the starting one if there was none |
| `Session.LastCodeWins` | src/app.rs:182-189 | after any run, the code is the textarea value read by the last `InputCode`, or the starting code if there was none |
| `Session.ReloadAfterRun` | src/app.rs:125-174 | a run without a dismissal leaves the storage untouched; after a run with one, a reload shows the intro exactly when the last dismissal's argument was false |
| `Session.ClearingCodeKeepsContainer` | src/app.rs:148-153 | clearing the code does not remove the existing container |
| `Session.PythonThenJava` | src/app.rs:108-191 | choosing Python and entering `print(1)` leaves one container of class `python` around `print(1)`; then choosing Java leaves one of class `java` |
| `Session.DismissThenReload` | src/app.rs:294-302 | after "Don't show me this again" (`true`) a reload keeps the intro hidden; after the other button (`false`) a reload shows it |
| `Component.LocalStorage.Get` | src/app.rs:134 | reading returns the current entry, `None` when it is missing or unreadable |
| `Component.LocalStorage.Set` | src/app.rs:163-173 | writing replaces the entry with the given record |
| `Component.Document.QueryFirst` | src/app.rs:111 | returns the first container in document order, or nothing when there is none |
| `Component.Document.RemoveFirstContainer` | src/app.rs:113-115 | removes the first container, if there is one, and does not run the highlighter |
| `Component.Document.Highlight` | src/app.rs:117 | the external highlighter appends one container for the preview and counts one run |
| `Component.App.constructor` | src/app.rs:125-146 | the component starts in `Initial` of the storage entry it reads |
| `Component.App.Update` | src/app.rs:155-191 | `update` always asks for a re-render, leaves the state at `Reduce` of the old state, and writes storage only on `HideInitMessage`, as `StoreAfter` says |
| `Component.App.FormatCode` | src/app.rs:108-118 | removal happens before one highlighter run; from at most one container exactly the preview's container is left |
| `Component.Cycle` | src/app.rs:148-191 | one `update` followed by `rendered` leaves the state, the storage entry and the document exactly as `Session.Step` gives them |
| `Component.App.Rendered` | src/app.rs:148-153 | the highlighter runs exactly once when there is code and a language, and not at all otherwise; the document becomes `HandOff.Rendered` of the old one |

## Left out

- The `html!` markup of `view` (src/app.rs:196-480) is left out, except for the state-derived expressions modelled in `View`. It is layout only.
- The textarea's auto-height style (src/app.rs:449) is left out. It depends on the browser's layout measurement (`scroll_height`).
- The `expect`/`unwrap` panics are left out. They cover a missing `window` or `document`, a failing `query_selector`, a failing `LocalStorage::set`, and the `NodeRef` cast to `HtmlInputElement` (src/app.rs:109-111, 165, 173, 183-186). The model treats these foreign calls as succeeding.
- Serde serialisation of `StoredState` is left out. Any entry that cannot be read or deserialised is folded into the `None` storage entry.
- The algorithm of `highlighter::highlight()` (src/app.rs:8, 117) is left out; that module is not part of this model. It is modelled only as appending one container that wraps the preview's class and text.
- Where the highlighter puts its container in the document is not modelled, and neither is whether it hides the original `<pre>`. Only the containers, in order, are tracked.
- `debug!` logging is left out. It has no observable behaviour.
- The `_first_render` flag of `rendered` is left out; the source ignores it.
- Concurrent tabs writing the same storage entry are left out. The model has a single writer.
