/**
 * The `TextInput` component's handling of what the frontend sends it:
 * validation of inbound delta states, live edits (the change handler sees the
 * edited value before it is stored) and confirm messages (the value is stored
 * first, then change and confirm handlers run, then the session refreshes).
 *
 * Handlers, the delta application step and the session refresh are external
 * collaborators; each call to one of them is recorded as a `Step` in the
 * component's `log`, in the order the source performs them.
 */
module TextInputComponent {
  import opened Common
  import opened JsonValues

  /** One externally visible step taken by the component. */
  datatype Step =
      /** `_apply_delta_state_from_frontend(delta)` */
    | ApplyDelta(delta: JsonDoc)
      /** `call_event_handler(on_change, TextInputChangeEvent(text))`, made while the input stores `stored` */
    | ChangeEvent(text: Json, stored: Json)
      /** `call_event_handler(on_confirm, TextInputConfirmEvent(text))`, made while the input stores `stored` */
    | ConfirmEvent(text: Json, stored: Json)
      /** `session._refresh()` */
    | Refresh

  /**
   * An optional event handler (`None` in the source is `NoHandler`). A handler is user code;
   * the model keeps only its effect on this input's `text`: it may assign a new value.
   */
  datatype Handler = NoHandler | Handler(assigns: Option<Json>)

  /** The stored text after `handler` ran while `text` was stored. */
  function AfterHandler(handler: Handler, text: Json): (after: Json)
    ensures handler == NoHandler || handler.assigns == None ==> after == text
  {
    if handler.Handler? && handler.assigns.Some? then handler.assigns.value else text
  }

  /** The verdict of `_validate_delta_state_from_frontend`; both rejections raise `AssertionError` in the source. */
  datatype Validation =
    | Accepted
      /** the delta names an attribute other than `text` */
    | ForeignKeys(delta: JsonDoc)
      /** the delta sets `text` while `is_sensitive` is false */
    | TextLocked

  /** The `AssertionError`/`KeyError` the message handlers can raise. */
  datatype Failure =
    | TextNotAString(value: Json)
    | MessageNotADict(msg: Json)
    | MissingTextKey

  datatype Outcome = Completed | Raised(failure: Failure)

  class TextInput {
    var text: Json
    var isSensitive: bool
    var onChange: Handler
    var onConfirm: Handler
    /** Every external step taken so far, oldest first. */
    var log: seq<Step>

    /** A `TextInput()` with every field at its declared default. */
    constructor ()
      ensures text == Str("") && isSensitive
      ensures onChange == NoHandler && onConfirm == NoHandler
      ensures log == []
    {
      text := Str("");
      isSensitive := true;
      onChange := NoHandler;
      onConfirm := NoHandler;
      log := [];
    }

    /**
     * Decides whether the frontend may apply `delta` to this input: only `text` is
     * ever client-mutable, and only while the input is sensitive. Being a function,
     * validation changes nothing.
     */
    function ValidateDeltaStateFromFrontend(delta: JsonDoc): (verdict: Validation)
      reads this
      ensures verdict.Accepted? <==> forall key :: key in delta ==> key == "text" && isSensitive
      ensures verdict.ForeignKeys? <==> exists key :: key in delta && key != "text"
      ensures verdict.ForeignKeys? ==> verdict.delta == delta
      ensures verdict.TextLocked? ==> "text" in delta && !isSensitive
    {
      if !(delta.Keys <= {"text"}) then
        ForeignKeys(delta)
      else if "text" in delta && !isSensitive then
        TextLocked
      else
        Accepted
    }

    /** The delivery step: records the call and stores the delta's `text`, if it has one. */
    method ApplyDeltaStateFromFrontend(delta: JsonDoc)
      modifies this`text, this`log
      ensures log == old(log) + [ApplyDelta(delta)]
      ensures text == if "text" in delta then delta["text"] else old(text)
    {
      log := log + [ApplyDelta(delta)];
      if "text" in delta {
        text := delta["text"];
      }
    }

    /** `call_event_handler(handler, event)`: records the call, then lets the handler run. */
    method CallEventHandler(handler: Handler, event: Step)
      modifies this`text, this`log
      ensures log == old(log) + [event]
      ensures text == AfterHandler(handler, old(text))
    {
      log := log + [event];
      if handler.Handler? && handler.assigns.Some? {
        text := handler.assigns.value;
      }
    }

    /**
     * A live edit: the change handler receives the value taken from the delta,
     * while the input still stores its previous text; only then is the delta
     * applied. A non-string `text` fails the type assertion before anything happens.
     */
    method CallEventHandlersForDeltaState(delta: JsonDoc) returns (outcome: Outcome)
      modifies this`text, this`log
      ensures "text" in delta && !delta["text"].Str? ==>
        outcome == Raised(TextNotAString(delta["text"])) && text == old(text) && log == old(log)
      ensures "text" in delta && delta["text"].Str? ==>
        && outcome == Completed
        && log == old(log) + [ChangeEvent(delta["text"], old(text)), ApplyDelta(delta)]
        && text == delta["text"]
      ensures "text" !in delta ==>
        outcome == Completed && log == old(log) + [ApplyDelta(delta)] && text == old(text)
    {
      if "text" in delta {
        var newValue := delta["text"];
        if !newValue.Str? {
          return Raised(TextNotAString(newValue));
        }
        CallEventHandler(onChange, ChangeEvent(newValue, text));
      }
      ApplyDeltaStateFromFrontend(delta);
      outcome := Completed;
    }

    /**
     * A confirm message: `msg["text"]` is stored first; the change handler and
     * then the confirm handler each receive the text stored at their call; one
     * refresh follows. A message that is not an object, or has no `text`, raises
     * before anything happens.
     */
    method OnMessage(msg: Json) returns (outcome: Outcome)
      modifies this`text, this`log
      ensures !msg.Obj? ==>
        outcome == Raised(MessageNotADict(msg)) && text == old(text) && log == old(log)
      ensures msg.Obj? && "text" !in msg.fields ==>
        outcome == Raised(MissingTextKey) && text == old(text) && log == old(log)
      ensures msg.Obj? && "text" in msg.fields ==>
        var confirmed := msg.fields["text"];
        var afterChange := AfterHandler(onChange, confirmed);
        && outcome == Completed
        && log == old(log) + [ ApplyDelta(map["text" := confirmed]),
                               ChangeEvent(confirmed, confirmed),
                               ConfirmEvent(afterChange, afterChange),
                               Refresh ]
        && text == AfterHandler(onConfirm, afterChange)
    {
      if !msg.Obj? {
        return Raised(MessageNotADict(msg));
      }
      if "text" !in msg.fields {
        return Raised(MissingTextKey);
      }
      ApplyDeltaStateFromFrontend(map["text" := msg.fields["text"]]);
      CallEventHandler(onChange, ChangeEvent(text, text));
      CallEventHandler(onConfirm, ConfirmEvent(text, text));
      log := log + [Refresh];
      outcome := Completed;
    }
  }

  /** The empty delta is accepted whatever the input's state. */
  lemma EmptyDeltaAlwaysAccepted(input: TextInput)
    ensures input.ValidateDeltaStateFromFrontend(map[]) == Accepted
  {
  }

  /** A delta setting only `text` is accepted exactly when the input is sensitive. */
  lemma TextDeltaAcceptedIffSensitive(input: TextInput, value: Json)
    ensures input.ValidateDeltaStateFromFrontend(map["text" := value]) == Accepted <==> input.isSensitive
    ensures !input.isSensitive ==> input.ValidateDeltaStateFromFrontend(map["text" := value]) == TextLocked
  {
  }

  /** A freshly constructed input accepts a `text` edit from the frontend. */
  method FreshInputAcceptsTextEdit(value: string) returns (verdict: Validation)
    ensures verdict == Accepted
  {
    var input := new TextInput();
    verdict := input.ValidateDeltaStateFromFrontend(map["text" := Str(value)]);
  }

  /**
   * The asymmetry between the two paths: with `"ab"` stored and `"abc"` arriving,
   * a live edit's change handler sees `"ab"` stored, a confirm's sees `"abc"`.
   */
  method ChangeHandlerObservations() returns (live: Step, confirm: Step)
    ensures live == ChangeEvent(Str("abc"), Str("ab"))
    ensures confirm == ChangeEvent(Str("abc"), Str("abc"))
  {
    var edited := new TextInput();
    edited.text := Str("ab");
    var _ := edited.CallEventHandlersForDeltaState(map["text" := Str("abc")]);
    live := edited.log[0];

    var confirmed := new TextInput();
    confirmed.text := Str("ab");
    var _ := confirmed.OnMessage(Obj(map["text" := Str("abc")]));
    confirm := confirmed.log[1];
  }
}
