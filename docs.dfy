/**
 * Rio-specific documentation helpers: the URL of an object's documentation
 * page, and the post-processing that strips internal attributes and functions
 * from parsed class documentation before it is published.
 */
module Docs {
  import opened Common

  // ---------------------------------------------------------------------------
  // Documentation fragments and URLs
  // ---------------------------------------------------------------------------

  predicate IsUpper(c: char) {
    'A' <= c <= 'Z'
  }

  /** `c.lower()` for ASCII letters; every other character is left alone. */
  function LowerChar(c: char): (lower: char)
    ensures !IsUpper(lower)
    ensures !IsUpper(c) ==> lower == c
  {
    if IsUpper(c) then (c as int - 'A' as int + 'a' as int) as char else c
  }

  /** `s.lower()`, character by character. */
  function Lower(s: string): (lower: string)
    ensures |lower| == |s|
    ensures forall i :: 0 <= i < |s| ==> lower[i] == LowerChar(s[i])
  {
    if s == [] then [] else [LowerChar(s[0])] + Lower(s[1..])
  }

  /** The URL fragment naming an object's documentation page: its name, lower-cased. */
  function DocumentationFragment(objectName: string): (fragment: string)
    ensures |fragment| == |objectName|
    ensures forall i :: 0 <= i < |fragment| ==> fragment[i] == LowerChar(objectName[i])
    ensures forall i :: 0 <= i < |fragment| ==> !IsUpper(fragment[i])
  {
    Lower(objectName)
  }

  /** Lower-casing a fragment once more changes nothing. */
  lemma FragmentIsStable(objectName: string)
    ensures DocumentationFragment(DocumentationFragment(objectName)) == DocumentationFragment(objectName)
  {
  }

  const DocsApiPath := "/docs/api/"
  const RioSite := "https://rio.dev"

  /** The path of the API documentation, made absolute on the Rio site unless `relative`. */
  function DocumentationPrefix(relative: bool): string {
    if relative then DocsApiPath else RioSite + DocsApiPath
  }

  /** `build_documentation_url(objectName, relative=relative)`, as a string. */
  function BuildDocumentationUrl(objectName: string, relative: bool): (url: string)
    ensures StartsWith(url, DocumentationPrefix(relative))
    ensures url[|DocumentationPrefix(relative)|..] == DocumentationFragment(objectName)
  {
    var resultString := DocsApiPath + DocumentationFragment(objectName);
    if relative then resultString else RioSite + resultString
  }

  /** The absolute URL is the Rio site followed by the relative URL. */
  lemma AbsoluteUrlExtendsRelative(objectName: string)
    ensures BuildDocumentationUrl(objectName, false) == RioSite + BuildDocumentationUrl(objectName, true)
  {
  }

  /** Two objects share a documentation URL exactly when they share a fragment. */
  lemma UrlsAgreeIffFragmentsAgree(a: string, b: string, relative: bool)
    ensures BuildDocumentationUrl(a, relative) == BuildDocumentationUrl(b, relative)
        <==> DocumentationFragment(a) == DocumentationFragment(b)
  {
  }

  // ---------------------------------------------------------------------------
  // Parsed documentation
  // ---------------------------------------------------------------------------

  /** An attribute's annotated type; the `KW_ONLY` marker of dataclasses is singled out. */
  datatype AttributeType = KwOnlyMarker | Annotated(annotation: string)

  datatype AttributeDocs = AttributeDocs(name: string, attrType: AttributeType)

  datatype FunctionDocs = FunctionDocs(name: string, summary: Option<string>, details: Option<string>)

  /** The parsed documentation of one class, which post-processing edits in place. */
  class ClassDocs {
    var name: string
    var summary: Option<string>
    var details: Option<string>
    var attributes: seq<AttributeDocs>
    var functions: seq<FunctionDocs>

    constructor (name: string, summary: Option<string>, details: Option<string>,
                 attributes: seq<AttributeDocs>, functions: seq<FunctionDocs>)
      ensures this.name == name && this.summary == summary && this.details == details
      ensures this.attributes == attributes && this.functions == functions
    {
      this.name := name;
      this.summary := summary;
      this.details := details;
      this.attributes := attributes;
      this.functions := functions;
    }
  }

  /** Post-processing of function documentation: nothing is changed. */
  function PostprocessFunctionDocs(docs: FunctionDocs): (processed: FunctionDocs)
    ensures processed == docs
  {
    docs
  }

  // ---------------------------------------------------------------------------
  // Keep rules
  // ---------------------------------------------------------------------------

  /** An attribute is published unless it is internal (leading `_`) or the `KW_ONLY` marker. */
  predicate KeepAttribute(attr: AttributeDocs) {
    !StartsWith(attr.name, "_") && attr.attrType != KwOnlyMarker
  }

  /** Methods only the component itself calls; documented on `Component` alone. */
  const ProtectedComponentMethods: set<string> := {"build", "call_event_handler", "force_refresh"}

  /** Classes users never construct; their `__init__` is never documented. */
  const UserUnconstructible: set<string> := {"FileInfo", "Session"}

  /**
   * Whether a function of class `className` is published: the constructor exactly
   * when users construct the class; any other function when it is public, not a
   * lambda, and not a protected component method inherited by a class other than
   * `Component`.
   */
  predicate KeepFunction(className: string, funcName: string) {
    if funcName == "__init__" then
      className !in UserUnconstructible
    else
      && !StartsWith(funcName, "_")
      && funcName != "<lambda>"
      && (className == "Component" || funcName !in ProtectedComponentMethods)
  }

  function KeepFunctionOf(className: string): FunctionDocs -> bool {
    (f: FunctionDocs) => KeepFunction(className, f.name)
  }

  function NotInherited(inherited: set<string>): FunctionDocs -> bool {
    (f: FunctionDocs) => f.name !in inherited
  }

  function NameIs(name: string): FunctionDocs -> bool {
    (f: FunctionDocs) => f.name == name
  }

  function NameIsNot(name: string): FunctionDocs -> bool {
    (f: FunctionDocs) => f.name != name
  }

  /** The keep rule, case by case. */
  lemma KeepFunctionRule(className: string, funcName: string)
    ensures KeepFunction(className, "__init__") <==> className != "FileInfo" && className != "Session"
    ensures funcName != "__init__" && StartsWith(funcName, "_") ==> !KeepFunction(className, funcName)
    ensures !KeepFunction(className, "<lambda>")
    ensures funcName in ProtectedComponentMethods ==> (KeepFunction(className, funcName) <==> className == "Component")
    ensures (funcName != "__init__" && funcName != "<lambda>" && funcName !in ProtectedComponentMethods
             && !StartsWith(funcName, "_")) ==> KeepFunction(className, funcName)
  {
    if funcName in ProtectedComponentMethods {
      assert funcName == "build" || funcName == "call_event_handler" || funcName == "force_refresh";
      assert funcName[0] != '_';
    }
  }

  // ---------------------------------------------------------------------------
  // Specification of the class post-processing
  // ---------------------------------------------------------------------------

  /** The summary dataclasses generate: the class's own signature, `Name(...)`. */
  predicate IsDataclassSignature(className: string, summary: Option<string>) {
    summary.Some? && StartsWith(summary.value, className + "(")
  }

  /**
   * The literal the source compares constructor summaries against; it is meant
   * to be the docstring dataclass constructors inherit, which the source notes
   * does not match in practice.
   */
  const ComparedInitSummary := "Initialize self. See help(type(self)) for accurate signature."

  function InitSummary(className: string): string {
    "Creates a new `" + className + "` instance."
  }

  /** For `Session`, drop the functions inherited from the RPC base class; others are untouched. */
  function SessionStripped(className: string, functions: seq<FunctionDocs>, unicallInherited: set<string>): seq<FunctionDocs> {
    if className == "Session" then Filter(NotInherited(unicallInherited), functions) else functions
  }

  /** The per-function touch-up: constructors get a summary when they have none worth keeping. */
  function FinishFunction(className: string, f: FunctionDocs): (g: FunctionDocs)
    ensures g.name == f.name
    ensures f.name != "__init__" ==> g == f
    ensures f.name == "__init__" && (f.summary == None || f.summary == Some(ComparedInitSummary)) ==>
      g.summary == Some(InitSummary(className))
    ensures f.name == "__init__" && f.summary == Some(ComparedInitSummary) ==> g.details == None
    ensures f.summary.Some? && f.summary != Some(ComparedInitSummary) ==> g == f
    ensures f.name == "__init__" && f.summary == None ==> g == f.(summary := Some(InitSummary(className)))
  {
    var stripped :=
      if f.name == "__init__" && f.summary == Some(ComparedInitSummary) then f.(summary := None, details := None) else f;
    if stripped.name == "__init__" && stripped.summary == None then
      stripped.(summary := Some(InitSummary(className)))
    else
      stripped
  }

  function FinishFunctions(className: string, functions: seq<FunctionDocs>): (finished: seq<FunctionDocs>)
    ensures |finished| == |functions|
    ensures forall i :: 0 <= i < |functions| ==> finished[i] == FinishFunction(className, functions[i])
  {
    seq(|functions|, i requires 0 <= i < |functions| => FinishFunction(className, functions[i]))
  }

  /** The published functions of a class, as `postprocess_class_docs` leaves them. */
  function ProcessedClassFunctions(className: string, functions: seq<FunctionDocs>, unicallInherited: set<string>): seq<FunctionDocs> {
    FinishFunctions(className, Filter(KeepFunctionOf(className), SessionStripped(className, functions, unicallInherited)))
  }

  /** The position of the first function called `name`, if any. */
  function FirstIndexNamed(functions: seq<FunctionDocs>, name: string): (index: Option<nat>)
    ensures index.Some? ==> index.value < |functions| && functions[index.value].name == name
    ensures index.Some? ==> forall j :: 0 <= j < index.value ==> functions[j].name != name
    ensures index.None? ==> forall j :: 0 <= j < |functions| ==> functions[j].name != name
  {
    if functions == [] then None
    else if functions[0].name == name then Some(0)
    else match FirstIndexNamed(functions[1..], name)
      case None => None
      case Some(k) => Some(k + 1)
  }

  /** The list without its first function called `name`. */
  function RemoveFirstNamed(functions: seq<FunctionDocs>, name: string): seq<FunctionDocs> {
    match FirstIndexNamed(functions, name)
    case None => functions
    case Some(i) => functions[..i] + functions[i + 1..]
  }

  // ---------------------------------------------------------------------------
  // Properties of the specification
  // ---------------------------------------------------------------------------

  /**
   * The kept attributes are exactly those satisfying the keep rule, in their
   * original relative order; none is internal and none is the `KW_ONLY` marker.
   */
  lemma KeptAttributesAreExactlyThePublicOnes(attributes: seq<AttributeDocs>)
    ensures forall a :: a in Filter(KeepAttribute, attributes) ==> !StartsWith(a.name, "_") && a.attrType != KwOnlyMarker
    ensures forall a :: a in Filter(KeepAttribute, attributes) <==> a in attributes && KeepAttribute(a)
    ensures IsSubsequence(Filter(KeepAttribute, attributes), attributes)
  {
    forall a | a in attributes && KeepAttribute(a)
      ensures a in Filter(KeepAttribute, attributes)
    {
      FilterComplete(KeepAttribute, attributes, a);
    }
    FilterIsSubsequence(KeepAttribute, attributes);
  }

  /** Every published function obeys the keep rule; `FileInfo` and `Session` publish no constructor. */
  lemma ProcessedFunctionsObeyKeepRule(className: string, functions: seq<FunctionDocs>, unicallInherited: set<string>)
    ensures forall g :: g in ProcessedClassFunctions(className, functions, unicallInherited) ==> KeepFunction(className, g.name)
    ensures className in UserUnconstructible ==>
      forall g :: g in ProcessedClassFunctions(className, functions, unicallInherited) ==> g.name != "__init__"
    ensures className == "Session" ==>
      forall g :: g in ProcessedClassFunctions(className, functions, unicallInherited) ==> g.name !in unicallInherited
  {
    var stripped := SessionStripped(className, functions, unicallInherited);
    var kept := Filter(KeepFunctionOf(className), stripped);
    var finished := ProcessedClassFunctions(className, functions, unicallInherited);
    forall g | g in finished
      ensures KeepFunction(className, g.name)
      ensures className == "Session" ==> g.name !in unicallInherited
    {
      var i :| 0 <= i < |finished| && finished[i] == g;
      assert kept[i] in kept;
      assert g.name == kept[i].name;
      assert kept[i] in stripped;
    }
  }

  /** Every published constructor has a summary, and never the compared literal. */
  lemma PublishedConstructorsHaveSummaries(className: string, functions: seq<FunctionDocs>, unicallInherited: set<string>)
    ensures forall g :: g in ProcessedClassFunctions(className, functions, unicallInherited) && g.name == "__init__" ==>
      g.summary.Some? && g.summary != Some(ComparedInitSummary)
  {
    var finished := ProcessedClassFunctions(className, functions, unicallInherited);
    var kept := Filter(KeepFunctionOf(className), SessionStripped(className, functions, unicallInherited));
    forall g | g in finished && g.name == "__init__"
      ensures g.summary.Some? && g.summary != Some(ComparedInitSummary)
    {
      var i :| 0 <= i < |finished| && finished[i] == g;
      InitSummaryIsNotTheDefault(className);
    }
  }

  lemma InitSummaryIsNotTheDefault(className: string)
    ensures InitSummary(className) != ComparedInitSummary
  {
    var generated := InitSummary(className);
    assert generated[|generated| - 3] == 'c';
    assert ComparedInitSummary[|ComparedInitSummary| - 3] == 'r';
  }

  /** A constructor that is published and had no summary, or the default one, gets the generated summary. */
  lemma ConstructorSummaryInjected(className: string, functions: seq<FunctionDocs>, unicallInherited: set<string>, f: FunctionDocs)
    requires f in functions && f.name == "__init__"
    requires f.summary == None || f.summary == Some(ComparedInitSummary)
    requires className !in UserUnconstructible
    ensures FinishFunction(className, f) in ProcessedClassFunctions(className, functions, unicallInherited)
    ensures FinishFunction(className, f).summary == Some(InitSummary(className))
  {
    var kept := Filter(KeepFunctionOf(className), SessionStripped(className, functions, unicallInherited));
    assert className != "Session";
    FilterComplete(KeepFunctionOf(className), functions, f);
    var i :| 0 <= i < |kept| && kept[i] == f;
    assert ProcessedClassFunctions(className, functions, unicallInherited)[i] == FinishFunction(className, f);
  }

  /** Removing the first `bind` leaves every other function in place and in order. */
  lemma RemoveFirstNamedKeepsOthers(functions: seq<FunctionDocs>, name: string)
    ensures Filter(NameIsNot(name), RemoveFirstNamed(functions, name)) == Filter(NameIsNot(name), functions)
  {
    match FirstIndexNamed(functions, name)
    case None =>
    case Some(i) =>
      var before, found, after := functions[..i], functions[i], functions[i + 1..];
      assert functions == before + [found] + after;
      FilterSkipsRejected(NameIsNot(name), before, found, after);
      FilterAppend(NameIsNot(name), before, after);
  }

  /** Of the functions called `name`, exactly the first is removed, when there is one. */
  lemma RemoveFirstNamedDropsOnlyTheFirst(functions: seq<FunctionDocs>, name: string)
    ensures var named := Filter(NameIs(name), functions);
      Filter(NameIs(name), RemoveFirstNamed(functions, name)) == if named == [] then [] else named[1..]
    ensures |RemoveFirstNamed(functions, name)| == if FirstIndexNamed(functions, name).Some? then |functions| - 1 else |functions|
  {
    match FirstIndexNamed(functions, name)
    case None =>
      FilterNoneNamed(functions, name);
    case Some(i) =>
      var before, found, after := functions[..i], functions[i], functions[i + 1..];
      assert functions == before + [found] + after;
      FilterPassesAccepted(NameIs(name), before, found, after);
      FilterAppend(NameIs(name), before, after);
      FilterNoneNamed(before, name);
  }

  lemma {:induction false} FilterNoneNamed(functions: seq<FunctionDocs>, name: string)
    requires forall j :: 0 <= j < |functions| ==> functions[j].name != name
    ensures Filter(NameIs(name), functions) == []
  {
    if functions != [] {
      FilterNoneNamed(functions[1..], name);
    }
  }

  // ---------------------------------------------------------------------------
  // The post-processing itself
  // ---------------------------------------------------------------------------

  /**
   * `postprocess_class_docs`: strips the RPC base-class functions from `Session`,
   * clears a dataclass-generated summary, drops internal attributes and functions,
   * and injects constructor summaries. `unicallInherited` is the set of names the
   * source computes by reflection.
   */
  method PostprocessClassDocs(docs: ClassDocs, unicallInherited: set<string>)
    modifies docs
    ensures docs.name == old(docs.name)
    ensures IsDataclassSignature(old(docs.name), old(docs.summary)) ==> docs.summary == None && docs.details == None
    ensures !IsDataclassSignature(old(docs.name), old(docs.summary)) ==>
      docs.summary == old(docs.summary) && docs.details == old(docs.details)
    ensures docs.attributes == Filter(KeepAttribute, old(docs.attributes))
    ensures docs.functions == ProcessedClassFunctions(old(docs.name), old(docs.functions), unicallInherited)
  {
    if docs.name == "Session" {
      docs.functions := Filter(NotInherited(unicallInherited), docs.functions);
    }

    if docs.summary.Some? && StartsWith(docs.summary.value, docs.name + "(") {
      docs.summary := None;
      docs.details := None;
    }

    StripInternalAttributes(docs);
    StripInternalFunctions(docs);
    FinishConstructorSummaries(docs);
  }

  /** The attribute loop: deletes in place every attribute the keep rule rejects. */
  method StripInternalAttributes(docs: ClassDocs)
    modifies docs`attributes
    ensures docs.attributes == Filter(KeepAttribute, old(docs.attributes))
  {
    ghost var original := docs.attributes;
    ghost var visited := 0;
    var index := 0;
    while index < |docs.attributes|
      invariant 0 <= index <= |docs.attributes|
      invariant 0 <= visited <= |original|
      invariant docs.attributes[..index] == Filter(KeepAttribute, original[..visited])
      invariant docs.attributes[index..] == original[visited..]
      decreases |docs.attributes| - index
    {
      var attr := docs.attributes[index];

      var keep := true;
      keep := keep && !StartsWith(attr.name, "_");
      keep := keep && attr.attrType != KwOnlyMarker;

      if keep {
        FilterLoopKeep(KeepAttribute, original, visited, docs.attributes, index);
        index := index + 1;
      } else {
        FilterLoopDrop(KeepAttribute, original, visited, docs.attributes, index);
        docs.attributes := docs.attributes[..index] + docs.attributes[index + 1..];
      }
      visited := visited + 1;
    }
    FilterLoopDone(KeepAttribute, original, visited, docs.attributes, index);
  }

  /** The function loop: deletes in place every function the keep rule rejects. */
  method StripInternalFunctions(docs: ClassDocs)
    modifies docs`functions
    ensures docs.functions == Filter(KeepFunctionOf(docs.name), old(docs.functions))
  {
    ghost var original := docs.functions;
    ghost var visited := 0;
    var index := 0;
    while index < |docs.functions|
      invariant 0 <= index <= |docs.functions|
      invariant 0 <= visited <= |original|
      invariant docs.functions[..index] == Filter(KeepFunctionOf(docs.name), original[..visited])
      invariant docs.functions[index..] == original[visited..]
      decreases |docs.functions| - index
    {
      var func := docs.functions[index];

      var keep := !StartsWith(func.name, "_");
      var isInheritedProtectedMethod := docs.name != "Component" && func.name in ProtectedComponentMethods;
      keep := keep && !isInheritedProtectedMethod;
      keep := keep && func.name != "<lambda>";
      keep := keep || func.name == "__init__";
      if docs.name in UserUnconstructible && func.name == "__init__" {
        keep := false;
      }

      assert keep == KeepFunctionOf(docs.name)(func);
      if keep {
        FilterLoopKeep(KeepFunctionOf(docs.name), original, visited, docs.functions, index);
        index := index + 1;
      } else {
        FilterLoopDrop(KeepFunctionOf(docs.name), original, visited, docs.functions, index);
        docs.functions := docs.functions[..index] + docs.functions[index + 1..];
      }
      visited := visited + 1;
    }
    FilterLoopDone(KeepFunctionOf(docs.name), original, visited, docs.functions, index);
  }

  /** The per-function loop: replaces the dataclass constructor summary and fills in missing ones. */
  method FinishConstructorSummaries(docs: ClassDocs)
    modifies docs`functions
    ensures docs.functions == FinishFunctions(docs.name, old(docs.functions))
  {
    ghost var original := docs.functions;
    var i := 0;
    while i < |docs.functions|
      invariant 0 <= i <= |docs.functions| == |original|
      invariant forall j :: 0 <= j < i ==> docs.functions[j] == FinishFunction(docs.name, original[j])
      invariant forall j :: i <= j < |original| ==> docs.functions[j] == original[j]
    {
      var funcDocs := docs.functions[i];
      if funcDocs.name == "__init__" && funcDocs.summary == Some(ComparedInitSummary) {
        funcDocs := funcDocs.(summary := None, details := None);
      }
      if funcDocs.name == "__init__" && funcDocs.summary == None {
        funcDocs := funcDocs.(summary := Some(InitSummary(docs.name)));
      }
      docs.functions := docs.functions[i := funcDocs];
      i := i + 1;
    }
  }

  /**
   * `postprocess_component_docs`: the class post-processing, then removal of the
   * first function called `bind` (the one inherited from `Component`).
   */
  method PostprocessComponentDocs(docs: ClassDocs, unicallInherited: set<string>)
    modifies docs
    ensures docs.name == old(docs.name)
    ensures IsDataclassSignature(old(docs.name), old(docs.summary)) ==> docs.summary == None && docs.details == None
    ensures !IsDataclassSignature(old(docs.name), old(docs.summary)) ==>
      docs.summary == old(docs.summary) && docs.details == old(docs.details)
    ensures docs.attributes == Filter(KeepAttribute, old(docs.attributes))
    ensures docs.functions == RemoveFirstNamed(ProcessedClassFunctions(old(docs.name), old(docs.functions), unicallInherited), "bind")
  {
    PostprocessClassDocs(docs, unicallInherited);
    RemoveFirstBind(docs);
  }

  /** The `for`/`break` loop deleting the first `bind`. */
  method RemoveFirstBind(docs: ClassDocs)
    modifies docs`functions
    ensures docs.functions == RemoveFirstNamed(old(docs.functions), "bind")
  {
    ghost var original := docs.functions;
    var i := 0;
    while i < |docs.functions|
      invariant 0 <= i <= |docs.functions|
      invariant docs.functions == original
      invariant forall j :: 0 <= j < i ==> original[j].name != "bind"
    {
      if docs.functions[i].name == "bind" {
        assert FirstIndexNamed(original, "bind") == Some(i);
        docs.functions := docs.functions[..i] + docs.functions[i + 1..];
        break;
      }
      i := i + 1;
    }
  }
}
