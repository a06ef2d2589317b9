/**
  `ExpandableTextEditor` and its `Coordinator`: the registry of live editors,
  the fill-in delegate contract, and `handleOpenURL`, which routes a fill-in
  completion back to the editor that asked for it.

  The TextExpander SDK (`SMTEDelegateController`) is foreign code. Its
  controllers appear here only with the fields the app assigns; what its URL
  handlers answer comes in as `SdkReplies`.
*/
module Editor {
  import opened Options
  import opened Uuids
  import opened CallbackUrls

  /** A selected range of a text view, in character offsets from the beginning of the document. */
  datatype TextRange = TextRange(start: nat, end: nat)

  /** An empty selection: the insertion point at `offset`. */
  function Caret(offset: nat): TextRange
  {
    TextRange(offset, offset)
  }

  /** The selection lies within a document of length `length`. */
  predicate InDocument(r: TextRange, length: nat)
  {
    r.start <= r.end <= length
  }

  /** What a text view shows: its text, its selection and whether it has the keyboard focus. */
  datatype ViewState = ViewState(text: string, selection: TextRange, isFirstResponder: bool)

  /**
    What `makeIdentifiedTextObjectFirstResponder` does to a live view when
    fill-in is enabled: it takes the focus, and the selection becomes the
    insertion point at `cursor` when a cursor is supplied and falls inside the
    document; otherwise the selection stays as it was.
  */
  function Resume(v: ViewState, cursor: Option<int>): (w: ViewState)
    ensures w.text == v.text && w.isFirstResponder
    ensures cursor.Some? && 0 <= cursor.value <= |v.text| ==> w.selection == Caret(cursor.value)
    ensures w.selection != v.selection ==> cursor.Some? && 0 <= cursor.value <= |v.text|
    ensures InDocument(v.selection, |v.text|) ==> InDocument(w.selection, |w.text|)
  {
    var selection :=
      match cursor
      case Some(offset) =>
        if 0 <= offset <= |v.text| then Caret(offset) else v.selection
      case None => v.selection;
    v.(selection := selection, isFirstResponder := true)
  }

  /** The part of a `UITextView` the coordinator touches. */
  class TextView {
    var text: string
    var selectedTextRange: TextRange
    var isFirstResponder: bool
    var delegate: DelegateController?

    ghost predicate Valid()
      reads this
    {
      InDocument(selectedTextRange, |text|)
    }

    function State(): ViewState
      reads this
    {
      ViewState(text, selectedTextRange, isFirstResponder)
    }

    constructor ()
      ensures Valid()
      ensures State() == ViewState("", Caret(0), false) && delegate == null
    {
      text := "";
      selectedTextRange := Caret(0);
      isFirstResponder := false;
      delegate := null;
    }

    /** `position(from: beginningOfDocument, offset:)`: `None` outside the document. */
    function PositionFrom(offset: int): (p: Option<nat>)
      reads this
      ensures p.Some? <==> 0 <= offset <= |text|
      ensures p.Some? ==> p.value == offset
    {
      if 0 <= offset <= |text| then Some(offset) else None
    }
  }

  /** A SwiftUI `Binding<String>`: storage owned by the view that created the editor. */
  class TextBinding {
    var value: string

    constructor (value: string)
      ensures this.value == value
    {
      this.value := value;
    }
  }

  /** The fields of an `SMTEDelegateController` that the app assigns. */
  class DelegateController {
    var nextDelegate: Coordinator?
    var fillDelegate: Coordinator?
    var fillCompletionScheme: Option<string>

    constructor ()
      ensures nextDelegate == null && fillDelegate == null && fillCompletionScheme == None
    {
      nextDelegate := null;
      fillDelegate := null;
      fillCompletionScheme := None;
    }
  }

  /** Coordinates one editor's text view with UIKit and with the TextExpander fill-in protocol. */
  class Coordinator {
    /** Fixed at creation: `let identifier = UUID()`. */
    const identifier: Uuid
    /** Weak: `null` once the text view is gone. */
    var textView: TextView?
    const text: TextBinding
    const textExpander: DelegateController

    /** `identifier` is the fresh UUID the runtime generates. */
    constructor (identifier: Uuid, text: TextBinding)
      ensures this.identifier == identifier && this.text == text
      ensures textView == null && fresh(textExpander)
      ensures textExpander.nextDelegate == null && textExpander.fillDelegate == null
      ensures textExpander.fillCompletionScheme == None
    {
      this.identifier := identifier;
      this.text := text;
      textView := null;
      textExpander := new DelegateController();
    }

    /** Puts the SDK's controller between the view and this coordinator and keeps a weak reference to the view. */
    method SetUp(view: TextView)
      modifies this, view, textExpander
      ensures textView == view && view.delegate == textExpander
      ensures textExpander.nextDelegate == this && textExpander.fillDelegate == this
      ensures textExpander.fillCompletionScheme == Some(AppUrlScheme)
      ensures view.State() == old(view.State())
    {
      view.delegate := textExpander;
      textExpander.nextDelegate := this;
      textExpander.fillCompletionScheme := Some(AppUrlScheme);
      textExpander.fillDelegate := this;
      textView := view;
    }

    /** Copies the view's text into the binding on every edit. */
    method TextViewDidChange(view: TextView)
      modifies text
      ensures text.value == view.text
    {
      text.value := view.text;
    }

    /**
      `identifier(forTextArea:)`: the text the SDK will echo back as `textID`,
      or `None` when fill-in is disabled. The text area is not consulted.
    */
    function IdentifierForTextArea(fillInEnabled: bool, textArea: object?): (r: Option<string>)
      ensures r.Some? <==> fillInEnabled
      ensures r.Some? ==> |r.value| == TextLength && Parse(r.value) == Some(identifier)
    {
      ParseFormat(identifier);
      if fillInEnabled then Some(Format(identifier)) else None
    }

    /**
      `makeIdentifiedTextObjectFirstResponder`: gives the focus back to this
      editor's view when a fill-in completes. Neither `textIdentifier` nor
      `userCanceledFill` influences what happens.
    */
    method MakeIdentifiedTextObjectFirstResponder(
      fillInEnabled: bool,
      textIdentifier: Option<string>,
      userCanceledFill: bool,
      cursorPosition: Option<int>
    ) returns (r: TextView?)
      modifies textView
      ensures r == (if fillInEnabled then textView else null)
      ensures r == null ==> textView == null || unchanged(textView)
      ensures r != null ==> r.State() == Resume(old(r.State()), cursorPosition) && r.delegate == old(r.delegate)
      ensures r != null && old(r.Valid()) ==> r.Valid()
    {
      if !fillInEnabled || textView == null {
        return null;
      }
      var view := textView;
      if cursorPosition.Some? {
        var pos := view.PositionFrom(cursorPosition.value);
        if pos.Some? {
          view.selectedTextRange := Caret(pos.value);
        }
      }
      view.isFirstResponder := true;
      r := view;
    }

    /** The runtime frees the text view; the weak reference reads `nil` from then on. */
    method TextViewReleased()
      modifies this
      ensures textView == null
    {
      textView := null;
    }
  }

  /** A registry entry; `value` is a weak reference, readable only while the coordinator is alive. */
  datatype CoordinatorRef = CoordinatorRef(value: Coordinator)

  /** What the TextExpander SDK reported for a get-snippets callback. */
  datatype SnippetsReply = SnippetsReply(urlWasValid: bool, error: Option<string>)

  /** The answers of the SDK's URL handlers to the URL being handled. */
  datatype SdkReplies = SdkReplies(
    getSnippets: SnippetsReply,   // `sharedTextExpander.handleGetSnippetsURL`
    sharedFill: bool,             // `sharedTextExpander.handleFillCompletionURL`
    coordinatorFill: bool)        // the target coordinator's `textExpander.handleFillCompletionURL`

  /** What `handleOpenURL` did with a URL. */
  datatype Handling =
    | Ignored                                                   // not a callback for this app
    | SnippetsSynced(urlWasValid: bool, statusUpdateRequested: bool)
    | SharedFillCompletion(handled: bool)                       // no textID: the shared controller handled it
    | Forwarded(target: Coordinator, handled: bool)             // handed to the coordinator the textID names
    | NoLiveTarget(missing: Uuid)                               // unregistered, or the coordinator is gone
    | Trapped(textID: string)                                   // force-unwrap of a malformed UUID
  {
    /** The Bool `handleOpenURL` returns; `None` when it traps and returns nothing. */
    function Returned(): (r: Option<bool>)
      ensures r.None? <==> Trapped?
      ensures Ignored? || NoLiveTarget? ==> r == Some(false)
      ensures SnippetsSynced? ==> r == Some(urlWasValid)
      ensures SharedFillCompletion? || Forwarded? ==> r == Some(handled)
    {
      match this
      case Ignored => Some(false)
      case SnippetsSynced(valid, _) => Some(valid)
      case SharedFillCompletion(handled) => Some(handled)
      case Forwarded(_, handled) => Some(handled)
      case NoLiveTarget(_) => Some(false)
      case Trapped(_) => None
    }
  }

  /** `handleGetSnippetsURL`: a status update is requested exactly when the SDK reported no error. */
  function HandleGetSnippetsUrl(reply: SnippetsReply): (h: Handling)
    ensures h.SnippetsSynced?
    ensures h.Returned() == Some(reply.urlWasValid)
    ensures h.statusUpdateRequested <==> reply.error == None
  {
    SnippetsSynced(reply.urlWasValid, reply.error.None?)
  }

  /** The static state of `ExpandableTextEditor`: the coordinator registry and the shared SDK controller. */
  class ExpandableTextEditor {
    /** `knownCoordinators`: filled by `makeCoordinator`, never pruned. */
    var knownCoordinators: map<Uuid, CoordinatorRef>
    /** The coordinators not yet deallocated; a weak reference to any other reads `nil`. */
    var live: set<Coordinator>
    /**
      `sharedTextExpander`, the controller that handles snippets callbacks and
      fill-in callbacks without a `textID`. It stands only for the declaration;
      what it answers comes in as `SdkReplies`.
    */
    const sharedTextExpander: DelegateController

    /**
      Every entry is filed under its own coordinator's identifier, and every
      live coordinator is the one filed under its identifier.
    */
    ghost predicate Valid()
      reads this
    {
      && (forall id :: id in knownCoordinators ==> knownCoordinators[id].value.identifier == id)
      && (forall c :: c in live ==> c.identifier in knownCoordinators && knownCoordinators[c.identifier].value == c)
    }

    constructor ()
      ensures Valid() && knownCoordinators == map[] && live == {}
    {
      knownCoordinators := map[];
      live := {};
      sharedTextExpander := new DelegateController();
    }

    /** `knownCoordinators[id]?.value`: the registered coordinator, if it is still alive. */
    function Lookup(id: Uuid): (r: Option<Coordinator>)
      reads this
      ensures r.Some? <==> id in knownCoordinators && knownCoordinators[id].value in live
      ensures r.Some? ==> r.value == knownCoordinators[id].value
    {
      if id in knownCoordinators && knownCoordinators[id].value in live
      then Some(knownCoordinators[id].value)
      else None
    }

    /**
      `makeCoordinator`: creates a coordinator and files it under its own
      identifier. `identifier` is the fresh UUID the runtime generates: no
      registered coordinator has it.
    */
    method MakeCoordinator(identifier: Uuid, text: TextBinding) returns (c: Coordinator)
      requires Valid() && identifier !in knownCoordinators
      modifies this
      ensures Valid() && fresh(c)
      ensures c.identifier == identifier && c.text == text && c.textView == null
      ensures fresh(c.textExpander)
      ensures c.textExpander.nextDelegate == null && c.textExpander.fillDelegate == null
      ensures c.textExpander.fillCompletionScheme == None
      ensures knownCoordinators == old(knownCoordinators)[identifier := CoordinatorRef(c)]
      ensures live == old(live) + {c}
      ensures Lookup(identifier) == Some(c)
      ensures forall id :: id != identifier ==> Lookup(id) == old(Lookup(id))
    {
      c := new Coordinator(identifier, text);
      knownCoordinators := knownCoordinators[identifier := CoordinatorRef(c)];
      live := live + {c};
    }

    /** The runtime frees `c`; its registry entry stays but no longer resolves. */
    method Deallocate(c: Coordinator)
      requires Valid() && c in live
      modifies this
      ensures Valid() && knownCoordinators == old(knownCoordinators)
      ensures live == old(live) - {c}
      ensures forall id :: Lookup(id) == if old(Lookup(id)) == Some(c) then None else old(Lookup(id))
      ensures Lookup(c.identifier) == None
    {
      live := live - {c};
    }

    /** `handleOpenURL`: what the app does when opened with `url`. */
    function HandleOpenUrl(url: Url, sdk: SdkReplies): (h: Handling)
      reads this
      ensures h.Ignored? <==> !IsCallback(url)
      ensures h.SnippetsSynced? <==> IsCallback(url) && HasPrefix(url.path, SnippetsPathPrefix)
      ensures h.SnippetsSynced? ==> h == HandleGetSnippetsUrl(sdk.getSnippets)
      ensures h.SharedFillCompletion? <==> Classify(url) == FillCompletion(None)
      ensures Classify(url) == FillCompletion(None) ==> h == SharedFillCompletion(sdk.sharedFill)
      ensures h.Trapped? <==> Classify(url).FillCompletion? && TextId(url).Some? && Parse(TextId(url).value).None?
      ensures h.Forwarded? <==>
                && Classify(url).FillCompletion? && TextId(url).Some?
                && Parse(TextId(url).value).Some?
                && Lookup(Parse(TextId(url).value).value).Some?
      ensures h.Forwarded? ==>
                && Classify(url).FillCompletion? && TextId(url).Some?
                && Parse(TextId(url).value).Some?
                && Lookup(Parse(TextId(url).value).value) == Some(h.target)
                && h.handled == sdk.coordinatorFill
      ensures h.NoLiveTarget? <==>
                && Classify(url).FillCompletion? && TextId(url).Some?
                && Parse(TextId(url).value).Some?
                && Lookup(Parse(TextId(url).value).value).None?
      ensures h.NoLiveTarget? ==> h.Returned() == Some(false)
      ensures h.Trapped? ==> h.textID == TextId(url).value
      ensures h.NoLiveTarget? ==> h.missing == Parse(TextId(url).value).value
    {
      match Classify(url)
      case NotCallback => Ignored
      case SnippetsSync => HandleGetSnippetsUrl(sdk.getSnippets)
      case FillCompletion(None) => SharedFillCompletion(sdk.sharedFill)
      case FillCompletion(Some(textID)) =>
        match Parse(textID)
        case None => Trapped(textID)
        case Some(id) =>
          match Lookup(id)
          case Some(c) => Forwarded(c, sdk.coordinatorFill)
          case None => NoLiveTarget(id)
    }
  }

  /**
    The text a coordinator hands the SDK in `identifier(forTextArea:)`, once
    echoed back as the `textID` of a fill-in callback, routes the completion to
    that same coordinator while it is alive.
  */
  lemma IdentifierRoutesBack(e: ExpandableTextEditor, c: Coordinator, textArea: object?, url: Url, sdk: SdkReplies)
    requires e.Lookup(c.identifier) == Some(c)
    requires IsCallback(url) && !HasPrefix(url.path, SnippetsPathPrefix)
    requires TextId(url) == c.IdentifierForTextArea(true, textArea)
    ensures e.HandleOpenUrl(url, sdk) == Forwarded(c, sdk.coordinatorFill)
    ensures e.HandleOpenUrl(url, sdk).Returned() == Some(sdk.coordinatorFill)
  {
  }

  /** A completion is only ever forwarded to a live coordinator, the one whose identifier the URL names. */
  lemma ForwardedToNamedCoordinator(e: ExpandableTextEditor, url: Url, sdk: SdkReplies)
    requires e.Valid()
    ensures e.HandleOpenUrl(url, sdk).Forwarded? ==>
              && e.HandleOpenUrl(url, sdk).target in e.live
              && Parse(TextId(url).value) == Some(e.HandleOpenUrl(url, sdk).target.identifier)
  {
  }

  /** URLs that are not callbacks, and snippets callbacks, are handled without consulting the registry. */
  lemma RegistryNotConsulted(e1: ExpandableTextEditor, e2: ExpandableTextEditor, url: Url, sdk: SdkReplies)
    requires !IsCallback(url) || HasPrefix(url.path, SnippetsPathPrefix)
    ensures e1.HandleOpenUrl(url, sdk) == e2.HandleOpenUrl(url, sdk)
  {
  }
}
