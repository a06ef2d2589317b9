# ExpandableTextEditor: fill-in callback routing

A model of the part of the ExpandableTextView demo app that routes TextExpander
callbacks to the right text editor. The model covers `ExpandableTextEditor` and
its `Coordinator` in `ExpandableTextView/ExpandableTextEditor.swift`.

- **Coordinator registry.** Each editor's coordinator gets a fresh UUID when it
  is created. `makeCoordinator` stores a weak reference to it under that UUID in
  the static `knownCoordinators`.
- **Fill-in delegate contract.** When the SDK asks, the coordinator gives the
  UUID's text (`identifier(forTextArea:)`). When the fill-in completes, it gives
  the focus back to its text view and maybe moves the cursor
  (`makeIdentifiedTextObjectFirstResponder`). Both are gated by `fillInEnabled`.
- **URL dispatcher.** `handleOpenURL` accepts only URLs with the app's scheme
  `xtextview-demo` and the host `x-callback-url`. It sends `/TextExpander…`
  paths to the snippets-sync handler. Any other path is a fill-in completion:
  the first `textID` query item names the coordinator that gets it.

Files:

- `Options.dfy`: the `Option` datatype that stands for Swift optionals.
- `Uuids.dfy`: UUIDs as 32 hexadecimal digits.
  - `Format` is `UUID.description`: the 8-4-4-4-12 hyphenated layout of
    section 3 of RFC 4122, with upper-case digits as Foundation prints them.
  - `Parse` stands for `UUID(uuidString:)`. It accepts the canonical grammar
    with digits of either case, a modelling choice for a foreign parser.
  - Proved: parsing the formatted text gives back the same UUID.
- `CallbackUrls.dfy`: a URL as the parts Foundation has already split (scheme,
  host, path, query items). Also the `URL.textID` extension and the branch
  decision of `handleOpenURL`.
- `Editor.dfy`:
  - `TextView` stands for the part of `UITextView` the coordinator touches.
  - `TextBinding` is the SwiftUI binding.
  - `DelegateController` holds the fields of the SDK controller that `setUp` assigns.
  - `Coordinator`.
  - `ExpandableTextEditor` holds the type's static state: the registry and the
    shared controller.
  - `HandleOpenUrl` returns a `Handling` value. It records which branch ran,
    which SDK answer was returned, and whether a status update was requested.

The SDK is foreign code. What its URL handlers answer is an input (`SdkReplies`).
The `fillInEnabled` setting is a boolean argument. Two runtime events are
explicit methods: ARC freeing a coordinator (`ExpandableTextEditor.Deallocate`)
and freeing a text view (`Coordinator.TextViewReleased`). After one of them, the
matching weak reference reads `nil`.

Behaviour worth noting:

- The snippets-sync path returns the SDK's `urlWasValid`, whether or not the
  SDK reported an error.
- A `textID` that is not a UUID's text hits the force-unwrap at line 145 and
  crashes. This is the `Trapped` outcome, and its `Returned()` is `None`.
- The `textIdentifier` and `fillWasCanceled` arguments of
  `makeIdentifiedTextObjectFirstResponder` are ignored. The method resumes its
  own view whatever identifier it is given.

## Model

| member | source | states |
|---|---|---|
| `Uuids.Parse` | ExpandableTextView/ExpandableTextEditor.swift:145 | The model of `UUID(uuidString:)` succeeds exactly on 36 characters with hyphens at positions 8, 13, 18 and 23 and hexadecimal digits of either case elsewhere. The digits it returns are the values of those characters. |
| `Uuids.Format` | ExpandableTextView/ExpandableTextEditor.swift:78 | `identifier.description` is 36 characters long with hyphens at positions 8, 13, 18 and 23. |
| `Uuids.ParseHex` | ExpandableTextView/ExpandableTextEditor.swift:145 | A run of characters reads as digits exactly when every character is a hexadecimal digit of either case. The result has one digit per character, in order. |
| `Uuids.ParseFormat` | ExpandableTextView/ExpandableTextEditor.swift:145 | Parsing the text from `identifier.description` gives back the same UUID. |
| `Uuids.FormatInjective` | ExpandableTextView/ExpandableTextEditor.swift:78 | Different identifiers have different description texts, so the text names exactly one coordinator. |
| `CallbackUrls.FirstNamed` | ExpandableTextView/ExpandableTextEditor.swift:178 | `first(where:)` finds the least index whose item has the name. It finds none exactly when no item has the name. |
| `CallbackUrls.TextId` | ExpandableTextView/ExpandableTextEditor.swift:172-179 | `textID` is the value of the first item named "textID". It is absent exactly when there are no query items, no item has that name, or the first such item has no value. |
| `CallbackUrls.FirstNamedOfExtension` | ExpandableTextView/ExpandableTextEditor.swift:178 | Appending query items does not move the first match of a name already present. |
| `CallbackUrls.LaterTextIdIgnored` | ExpandableTextView/ExpandableTextEditor.swift:178 | Another "textID" item after the first one does not change `textID`. |
| `CallbackUrls.IsCallback` | ExpandableTextView/ExpandableTextEditor.swift:130-134 | A URL passes the guard exactly when its scheme is "xtextview-demo" and its host is "x-callback-url", both present and matched exactly. |
| `CallbackUrls.HasPrefix` | ExpandableTextView/ExpandableTextEditor.swift:136 | A path has the prefix exactly when it is at least as long as the prefix and agrees with it at every position of the prefix. |
| `CallbackUrls.Classify` | ExpandableTextView/ExpandableTextEditor.swift:130-141 | A URL is ignored exactly when its scheme is not exactly "xtextview-demo" or its host is not exactly "x-callback-url". An accepted URL is a snippets sync exactly when its path starts with "/TextExpander". Otherwise it is a fill-in completion that carries the URL's `textID`. |
| `Editor.HandleGetSnippetsUrl` | ExpandableTextView/ExpandableTextEditor.swift:151-162 | Returns the SDK's `urlWasValid`, with or without an error. A status update is requested exactly when the SDK reported no error. |
| `Editor.Handling.Returned` | ExpandableTextView/ExpandableTextEditor.swift:125-149 | `handleOpenURL` returns a Bool on every path except the trap. It returns false for an ignored URL and for a missing coordinator. Otherwise it returns the answer of the SDK handler that was called. |
| `Editor.ExpandableTextEditor.HandleOpenUrl` | ExpandableTextView/ExpandableTextEditor.swift:125-149 | A URL is ignored, returning false, exactly when it is not a callback. Each outcome below holds exactly in its own case. Snippets-sync URLs, and only they, go to `handleGetSnippetsURL`, whose result is returned. With no `textID`, the shared controller's fill result is returned. A `textID` that is not a UUID traps. A UUID with no live coordinator gives false. A UUID filed with a live coordinator is forwarded to that coordinator, and its controller's result is returned. |
| `Editor.ExpandableTextEditor.Lookup` | ExpandableTextView/ExpandableTextEditor.swift:146 | `knownCoordinators[id]?.value` gives a coordinator exactly when `id` is registered and its coordinator is still alive. The coordinator it gives is the registered one. |
| `Editor.ExpandableTextEditor.MakeCoordinator` | ExpandableTextView/ExpandableTextEditor.swift:40-45 | The new coordinator is stored under its own identifier. Every other entry, and every other lookup, is unchanged. The registry invariant is kept. The coordinator has its own fresh SDK controller, not yet wired. |
| `Editor.ExpandableTextEditor.Deallocate` | ExpandableTextView/ExpandableTextEditor.swift:106-114 | A freed coordinator's entry stays in the map but no longer resolves. Only lookups that gave this coordinator change, and they become absent. |
| `Editor.Coordinator.constructor` | ExpandableTextView/ExpandableTextEditor.swift:50-60 | A coordinator has a fixed identifier, its binding, no text view yet, and a fresh SDK controller of its own. |
| `Editor.Coordinator.SetUp` | ExpandableTextView/ExpandableTextEditor.swift:62-68 | The view's delegate becomes the coordinator's controller. The controller's next delegate and fill delegate become the coordinator. Its fill-completion scheme becomes the app scheme. The coordinator keeps the view, and the view's contents are untouched. |
| `Editor.Coordinator.TextViewDidChange` | ExpandableTextView/ExpandableTextEditor.swift:70-72 | The bound text becomes the view's text. |
| `Editor.Coordinator.IdentifierForTextArea` | ExpandableTextView/ExpandableTextEditor.swift:74-79 | Returns a value exactly when fill-in is enabled, whatever the text area. That value is 36 characters long and parses back to the coordinator's own identifier. |
| `Editor.Resume` | ExpandableTextView/ExpandableTextEditor.swift:92-96 | The view takes the focus and its text is unchanged. The selection becomes the caret at the cursor when the cursor falls inside the document. Otherwise the selection stays as it was. A selection inside the document stays inside it. |
| `Editor.TextView.PositionFrom` | ExpandableTextView/ExpandableTextEditor.swift:93 | An offset from the beginning of the document resolves exactly when it lies between 0 and the document length. |
| `Editor.Coordinator.MakeIdentifiedTextObjectFirstResponder` | ExpandableTextView/ExpandableTextEditor.swift:81-98 | Returns nil and changes nothing when fill-in is disabled or the view is gone. Otherwise it returns the view, whose new state is `Resume` of its old state at the given cursor. The identifier and the cancel flag play no part. A selection inside the document stays inside it. |
| `Editor.Coordinator.TextViewReleased` | ExpandableTextView/ExpandableTextEditor.swift:51 | The weak `textView` reads nil once the runtime frees the view. |
| `Editor.IdentifierRoutesBack` | ExpandableTextView/ExpandableTextEditor.swift:141-147 | Suppose the text from `identifier(forTextArea:)` comes back as the `textID` of a fill-in callback. Then the completion is forwarded to that same live coordinator, and its controller's result is returned. |
| `Editor.ForwardedToNamedCoordinator` | ExpandableTextView/ExpandableTextEditor.swift:145-147 | Under the registry invariant, a completion is only forwarded to a live coordinator whose identifier is the URL's `textID`. |
| `Editor.RegistryNotConsulted` | ExpandableTextView/ExpandableTextEditor.swift:130-138 | URLs that are not callbacks, and snippets-sync callbacks, are handled the same whatever the registry holds. |

## Left out

- `Editor.ExpandableTextEditor.MakeCoordinator`: requires that no registered coordinator has the new identifier. `UUID()` is random, and collisions are not modelled.
- `TextExpanderStatus.update()`, in both files, is left out. It involves background and main dispatch queues and SDK calls. The model records only whether the sync path requests an update (`statusUpdateRequested`).
- `syncSnippets` and `clearSnippets` are left out. They only forward to the SDK.
- The SDK's `SMTEDelegateController` is foreign code.
  - Its URL handlers' answers are inputs.
  - In the real app, the target controller's `handleFillCompletionURL` calls back `makeIdentifiedTextObjectFirstResponder`. The model does not link the two.
- `Uuids.Parse`: follows the canonical 36-character grammar. The platform parser is foreign code and may also accept other spellings, for example a sign or a leading blank before a digit pair. The model traps on such a text where the app may not.
- `CallbackUrls.HasPrefix`: compares Unicode scalars one by one. Swift's `hasPrefix` compares Characters (grapheme clusters). A path such as "/TextExpander" followed by a combining accent has the prefix in the model, but not in Swift, where it takes the fill-in branch. Grapheme segmentation is not modelled.
- Foundation's URL parsing is left out. URLs arrive already split into scheme, host, path and query items, with percent-decoding done.
- UIKit is reduced to a text view's text, selection, focus and delegate.
  - Offsets count characters, where UIKit counts UTF-16 code units.
  - `becomeFirstResponder` is taken to succeed.
- Logging through `os_log` is left out. It has no effect on results.
- The following are UI glue or declarations with no logic:
  - `UIFont.preferredFont(for:)`, a font-table lookup.
  - `makeUIView` and `updateUIView`.
  - `ContentView.swift` and `Helpers.swift`.
  - `SwiftWorkarounds.h`.
  - The app entry point, apart from its URL scheme constant (`ExpandableTextViewApp.swift` line 13).
- Deallocation is modelled only as the explicit events `Deallocate` and `TextViewReleased`. Reference counting is not modelled.
