# Rio: text components and documentation post-processing

A Dafny model of three pieces of the Rio UI framework (Python):

- **`TextInput`'s handling of the frontend** (`rio/components/text_input.py`).
  The model covers three operations:
  - Validation of inbound delta states. Only `text` may ever be set by the client, and only while `is_sensitive` is true.
  - A live edit. The `on_change` handler receives the value taken from the delta while the input still stores its old text. Only after that is the delta applied.
  - A confirm message. `msg["text"]` is stored first. Then `on_change` and `on_confirm` each receive the text stored at their call, and exactly one session refresh follows.

  The component is a class whose fields are `text`, `is_sensitive`, the two handlers and a log. Each call to an external collaborator is appended to the log, in order. The collaborators are the delta application step, the event-handler dispatcher and the session refresh. A change or confirm step records the payload handed to the handler and the text stored at the moment of the call. This is what pins down the asymmetry between the two paths.
- **Documentation post-processing** (`rio/docs/__init__.py`). It covers:
  - the URL fragment of an object, which is its lower-cased name;
  - the relative or absolute documentation URL;
  - the in-place filtering of a class's documented attributes and functions by the keep rules;
  - clearing of summaries that dataclasses generate;
  - injection of constructor summaries;
  - removal of the first `bind` from component documentation.

  The `while` loops that `del` from the lists are methods over `seq` fields of a `ClassDocs` object. Each is proved equal to a filter of the original list, which keeps the original order. Each loop's `decreases` clause proves that it terminates.
- **`Text`'s encoding helpers** (`rio/components/text.py`). These are the custom serialization of the `style` union (a preset name or a `TextStyle`), the debug details that report `align_x`, and the 40-character truncation in `repr`.

Files:
- `common.dfy` holds `Option`, `StartsWith`, `EndsWith` and an order-preserving `Filter` with its lemmas.
- `json.dfy` holds the JSON values exchanged with the frontend.
- `text_input.dfy`, `docs.dfy` and `text.dfy` hold one module per source file.

Observations stated in the model:
- `_on_message` calls no validator, so the confirm path never consults `is_sensitive` or checks the type of `msg["text"]`. Whether the value is then stored depends on the apply step. That step is defined outside the modelled files; the model takes it to store the value without re-validating.
- The live-edit path fails its `str` assertion before anything is applied or any handler runs.
- A handler that assigns `text` during a live edit is overridden by the delta applied after it. On the confirm path, the confirm handler sees what the change handler left.

## Model

| member | source | states |
|---|---|---|
| `TextInputComponent.TextInput.constructor` | rio/components/text_input.py:141-150 | A new input stores the empty text, is sensitive, has no handlers and has an empty log |
| `TextInputComponent.TextInput.ValidateDeltaStateFromFrontend` | rio/components/text_input.py:152-161 | A delta is accepted iff every key is `text` and the input is sensitive. It is rejected for foreign keys iff some key is not `text`, and that rejection carries the delta. A `text` rejection happens only when `text` is present and the input is not sensitive. As a function, it changes nothing |
| `TextInputComponent.EmptyDeltaAlwaysAccepted` | rio/components/text_input.py:152-161 | The empty delta validates in every state |
| `TextInputComponent.TextDeltaAcceptedIffSensitive` | rio/components/text_input.py:158-161 | `{"text": v}` is accepted iff `is_sensitive` holds; otherwise it is rejected even though `text` is whitelisted |
| `TextInputComponent.FreshInputAcceptsTextEdit` | rio/components/text_input.py:141-161 | A default-constructed input accepts a `text` delta |
| `TextInputComponent.TextInput.ApplyDeltaStateFromFrontend` | rio/components/text_input.py:178 | The apply step is logged once. It stores the delta's `text` when present and changes nothing else |
| `TextInputComponent.TextInput.CallEventHandler` | rio/components/text_input.py:173-176 | Each handler call is logged once with its event. Only the handler's own assignment can change `text` |
| `TextInputComponent.TextInput.CallEventHandlersForDeltaState` | rio/components/text_input.py:163-178 | With a string `text`, the log gains one change event carrying the delta's value and the OLD stored text, then the apply step, and the final text is the delta's value. With a non-string `text` it raises and changes nothing. Without `text`, only the apply step happens and the text is unchanged |
| `TextInputComponent.TextInput.OnMessage` | rio/components/text_input.py:180-203 | A non-dict message, or one without `text`, raises and changes nothing. Otherwise the log gains, in order: apply `{"text": v}`, a change event carrying `v` while `v` is stored, a confirm event carrying the text the change handler left, and exactly one refresh |
| `TextInputComponent.ChangeHandlerObservations` | rio/components/text_input.py:163-203 | With "ab" stored and "abc" arriving, the live edit's change event sees "ab" stored and the confirm's sees "abc" |
| `Docs.Lower` | rio/docs/__init__.py:29 | Lower-casing keeps the length and maps every character through the ASCII lower-case map |
| `Docs.DocumentationFragment` | rio/docs/__init__.py:24-29 | The fragment has the name's length, each character is the lower-case form of the name's character at that position, and it holds no upper-case letter |
| `Docs.FragmentIsStable` | rio/docs/__init__.py:24-29 | Lower-casing a fragment again changes nothing |
| `Docs.BuildDocumentationUrl` | rio/docs/__init__.py:32-51 | The URL starts with `/docs/api/`, or with `https://rio.dev/docs/api/` when not relative, and what follows is exactly the fragment |
| `Docs.AbsoluteUrlExtendsRelative` | rio/docs/__init__.py:44-48 | The absolute URL is `https://rio.dev` followed by the relative URL |
| `Docs.UrlsAgreeIffFragmentsAgree` | rio/docs/__init__.py:44-48 | Two names get the same URL iff they get the same fragment |
| `Docs.PostprocessFunctionDocs` | rio/docs/__init__.py:167-171 | Function documentation is returned unchanged |
| `Docs.KeepFunctionRule` | rio/docs/__init__.py:216-250 | `__init__` is kept iff the class is neither `FileInfo` nor `Session`. Other `_`-names and `<lambda>` are dropped. `build`, `call_event_handler` and `force_refresh` are kept only on `Component`. Every other public name is kept |
| `Docs.FinishFunction` | rio/docs/__init__.py:259-273 | Names are unchanged and non-constructors are untouched. A constructor whose summary is missing or equals the literal the source compares against gets "Creates a new `<name>` instance.", losing its details when the summary was that literal. A constructor with no summary keeps its details. Any other summary is left alone |
| `Docs.FirstIndexNamed` | rio/docs/__init__.py:282-285 | It returns the index of the first function with the given name, or reports that none has it |
| `Docs.KeptAttributesAreExactlyThePublicOnes` | rio/docs/__init__.py:193-207 | Kept attributes are exactly those that neither start with `_` nor are `KW_ONLY`, in their original relative order |
| `Docs.ProcessedFunctionsObeyKeepRule` | rio/docs/__init__.py:180-256 | Every published function satisfies the keep rule. `FileInfo` and `Session` publish no `__init__`. `Session` publishes nothing inherited from the RPC base class |
| `Docs.PublishedConstructorsHaveSummaries` | rio/docs/__init__.py:258-273 | Every published `__init__` has a summary, and it is never the literal the source compares against |
| `Docs.InitSummaryIsNotTheDefault` | rio/docs/__init__.py:263-273 | The injected constructor summary never equals the literal the source compares against |
| `Docs.ConstructorSummaryInjected` | rio/docs/__init__.py:237-273 | A constructor of a user-constructible class whose summary was missing or equal to the compared literal is published with "Creates a new `<name>` instance." |
| `Docs.RemoveFirstNamedKeepsOthers` | rio/docs/__init__.py:280-285 | Removing the first `bind` leaves every non-`bind` function in place and in order |
| `Docs.RemoveFirstNamedDropsOnlyTheFirst` | rio/docs/__init__.py:280-285 | Of the `bind` functions, exactly the first is removed. The list shrinks by one iff a `bind` exists |
| `Docs.PostprocessClassDocs` | rio/docs/__init__.py:174-273 | The name is unchanged. A dataclass-signature summary is cleared together with its details; otherwise both are kept. Attributes become the filtered original. Functions become the `Session`-stripped, filtered and finished original |
| `Docs.StripInternalAttributes` | rio/docs/__init__.py:192-207 | The in-place `while`/`del` loop terminates and leaves exactly the filter of the original attributes |
| `Docs.StripInternalFunctions` | rio/docs/__init__.py:209-256 | The in-place `while`/`del` loop terminates. Its step-by-step keep computation agrees with the keep rule, and it leaves exactly the filter of the original functions |
| `Docs.FinishConstructorSummaries` | rio/docs/__init__.py:258-273 | The per-function loop leaves each function finished and in place |
| `Docs.PostprocessComponentDocs` | rio/docs/__init__.py:276-285 | The class post-processing runs first, then the first `bind` is removed and nothing else changes |
| `Docs.RemoveFirstBind` | rio/docs/__init__.py:280-285 | The `for`/`break` loop removes the first `bind`, if any |
| `TextComponent.CustomSerialize` | rio/components/text.py:58-69 | The keys are exactly `style` and `text_align`. `text_align` is the given alignment. A preset is emitted as its name, a `TextStyle` as its own serialization |
| `TextComponent.StyleEncodingRoundTrip` | rio/components/text.py:55-69 | Decoding the `style` entry recovers the variant, and a preset's name |
| `TextComponent.GetDebugDetails` | rio/components/text.py:71-77 | `align_x` is set to the alignment and every other entry of the parent's details is unchanged |
| `TextComponent.ShownText` | rio/components/text.py:80-83 | Text of at most 40 characters (including exactly 40) is shown unchanged. Longer text shows as its first 40 characters then `...`. The shown text is never longer than 43 |
| `TextComponent.ShownTextStartsWithOriginal` | rio/components/text.py:80-83 | The shown text starts with the original's first `min(len, 40)` characters |
| `TextComponent.DecimalString` | rio/components/text.py:85 | The id is written as a non-empty string of decimal digits |
| `TextComponent.DecimalStringDenotes` | rio/components/text.py:85 | The digits denote exactly the id, and there is no leading zero unless the id is a single digit |
| `TextComponent.Repr` | rio/components/text.py:79-85 | The repr is `<TypeName id:`, then the id's digits, then ` text:` with the quoted shown text, then `>` |
| `TextComponent.ReprShowsId` | rio/components/text.py:85 | The digits right after `id:` in the repr denote the component's id |
| `TextComponent.ReprSeesOnlyFirstCharacters` | rio/components/text.py:79-85 | Two long texts with the same first 40 characters and the same id have the same repr |

## Left out

- Event handlers are user code. The model keeps only one effect of a handler: it may assign this input's `text`. Other effects on the application's state, and any awaiting a handler does, are not modelled.
- Each `await` is a sequential step in the log. Concurrency and cancellation are not modelled.
- `_apply_delta_state_from_frontend`, `call_event_handler` and `session._refresh` are defined outside the modelled files. The model's apply step stores the delta's `text` and does not re-validate. Attributes other than `text` are not modelled.
- `TextInput` attributes that no modelled operation reads (`label`, `prefix_text`, `suffix_text`, `is_secret`, `is_valid`) are not modelled.
- Docs.Lower: covers ASCII letters only. Python's `str.lower` also maps non-ASCII letters, and the Unicode case tables are not modelled.
- Docs.BuildDocumentationUrl: returns the URL string. Parsing it into a `rio.URL` object is not modelled.
- Docs.PostprocessClassDocs: the names `Session` inherits from the RPC base class are found by reflection (`dir`/`vars`) in the source. Here they are a parameter.
- Docs.PublishedConstructorsHaveSummaries: the source marks the strip of the inherited constructor docstring as not working. The literal it compares against apparently never matches the real docstring, so in the running program a published constructor may still carry the inherited docstring. The model proves its statement only about the literal as written.
- Docs.FinishConstructorSummaries: function documentation is a value, so the in-place edit of each function's object becomes a replacement in the list. Aliasing of those objects is not modelled.
- `_find_possibly_public_objects` and `find_documented_objects` are left out: they rely on Python reflection and on an external docstring parser.
- Parsed documentation is modelled only through the fields post-processing reads or writes: names, summaries, details and attribute types.
- TextComponent.CustomSerialize: `TextStyle._serialize` and `_text_align` are defined elsewhere. They are a parameter and a value here, and the serializer is assumed to return a JSON object.
- TextComponent.Repr: Python's quoting of the shown text (`!r`) is a parameter. The id is taken to be non-negative.
- JSON numbers are integers in the model. No modelled operation depends on the number type.
- The asyncio test client and the plain record declarations of client messages and layouts are not modelled.
- The session reconciler, dirty set and diffing engine are not among the modelled files and are not reconstructed.
