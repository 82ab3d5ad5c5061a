/** From the answer of the image model to ordinary edit calls (`_expand_image_extraction` in
    `ai_assistant/service.py`). */
module ImageExtraction {
  import opened Text
  import opened Seqs
  import opened Uml
  import opened Calls
  import opened Translator
  import opened Reconcile
  import opened Shorthand

  /** A loop over a value that Python cannot iterate. */
  datatype ExpandError = NotIterable

  // ---- reading the answer ----------------------------------------------

  function TextField(item: Json, key: string): (r: Option<string>)
    ensures r.Some? ==> item.JObject?
  {
    if item.JObject? && key in item.fields && item.fields[key].JString? then Some(item.fields[key].s) else None
  }

  /** The dictionaries that a loop over `item.get(key, [])` can meet: text and dictionaries
      are iterable too, but their elements are no dictionaries. */
  function ItemsOf(fields: map<string, Json>, key: string): Result<seq<Json>, ExpandError> {
    if key !in fields then Ok([])
    else
      match fields[key]
      case JArray(items) => Ok(items)
      case JString(_) => Ok([])
      case JObject(_) => Ok([])
      case _ => Err(NotIterable)
  }

  function ClassCall(item: Json): seq<Call> {
    match TextField(item, "name")
    case None => []
    case Some(name) => [AddClassCall(name)]
  }

  function ClassCalls(items: seq<Json>): seq<Call> {
    if items == [] then [] else ClassCalls(items[..|items| - 1]) + ClassCall(items[|items| - 1])
  }

  function AttributeCall(className: string, item: Json): seq<Call> {
    match (TextField(item, "name"), TextField(item, "type"))
    case (Some(name), Some(text)) => [AddAttributeCall(className, name, text)]
    case _ => []
  }

  function AttributeCalls(className: string, items: seq<Json>): seq<Call> {
    if items == [] then [] else AttributeCalls(className, items[..|items| - 1]) + AttributeCall(className, items[|items| - 1])
  }

  function OperationCall(className: string, item: Json): seq<Call> {
    match TextField(item, "name")
    case None => []
    case Some(name) => [AddOperationCall(className, name, TextField(item, "return_type"))]
  }

  function OperationCalls(className: string, items: seq<Json>): seq<Call> {
    if items == [] then [] else OperationCalls(className, items[..|items| - 1]) + OperationCall(className, items[|items| - 1])
  }

  function MemberCalls(item: Json): Result<seq<Call>, ExpandError> {
    match TextField(item, "name")
    case None => Ok([])
    case Some(className) =>
      match (ItemsOf(item.fields, "attributes"), ItemsOf(item.fields, "operations"))
      case (Ok(attributes), Ok(operations)) => Ok(AttributeCalls(className, attributes) + OperationCalls(className, operations))
      case _ => Err(NotIterable)
  }

  function AllMemberCalls(items: seq<Json>): Result<seq<Call>, ExpandError> {
    if items == [] then Ok([])
    else
      match AllMemberCalls(items[..|items| - 1])
      case Err(e) => Err(e)
      case Ok(front) =>
        match MemberCalls(items[|items| - 1])
        case Err(e) => Err(e)
        case Ok(last) => Ok(front + last)
  }

  function NormalizedText(text: Option<string>): Option<string> {
    match text
    case None => None
    case Some(t) => Some(NormalizeMultiplicity(t))
  }

  function ExtractedLinkCall(item: Json): seq<Call> {
    match (TextField(item, "kind"), TextField(item, "source_class_name"), TextField(item, "target_class_name"))
    case (Some(kind), Some(source), Some(target)) =>
      [AddRelationshipCall(LinkArguments(kind, source, target, NormalizedText(TextField(item, "source_multiplicity")),
        NormalizedText(TextField(item, "target_multiplicity")), TextField(item, "name")))]
    case _ => []
  }

  function ExtractedLinkCalls(items: seq<Json>): seq<Call> {
    if items == [] then [] else ExtractedLinkCalls(items[..|items| - 1]) + ExtractedLinkCall(items[|items| - 1])
  }

  /** `args.get(key, [])`. */
  function ListArgument(args: map<string, Json>, key: string): Json {
    if key in args then args[key] else JArray([])
  }

  /** `_expand_image_extraction` for an answer with these arguments: all classes, then all
      members, then all relationships; items of another shape are skipped. */
  function Expand(args: map<string, Json>): Result<seq<Call>, ExpandError> {
    var classes, relationships := ListArgument(args, "classes"), ListArgument(args, "relationships");
    if !classes.JArray? || !relationships.JArray? then Ok([UnsupportedCall(EXTRACT)])
    else
      match AllMemberCalls(classes.items)
      case Err(e) => Err(e)
      case Ok(members) => Ok((ClassCalls(classes.items) + members) + ExtractedLinkCalls(relationships.items))
  }

  // ---- the loops -------------------------------------------------------

  method ExpandMembers(item: Json) returns (r: Result<seq<Call>, ExpandError>)
    ensures r == MemberCalls(item)
  {
    var name := TextField(item, "name");
    if name.None? {
      return Ok([]);
    }
    var attributes, operations := ItemsOf(item.fields, "attributes"), ItemsOf(item.fields, "operations");
    if attributes.Err? {
      return Err(NotIterable);
    }
    hide AttributeCall, OperationCall;
    var calls := [];
    for i := 0 to |attributes.value|
      invariant calls == AttributeCalls(name.value, attributes.value[..i])
    {
      PrefixStep(attributes.value, i);
      calls := calls + AttributeCall(name.value, attributes.value[i]);
    }
    FullPrefix(attributes.value);
    if operations.Err? {
      return Err(NotIterable);
    }
    var more := [];
    for i := 0 to |operations.value|
      invariant more == OperationCalls(name.value, operations.value[..i])
    {
      PrefixStep(operations.value, i);
      more := more + OperationCall(name.value, operations.value[i]);
    }
    FullPrefix(operations.value);
    return Ok(calls + more);
  }

  lemma {:induction false} MemberErrorStands(items: seq<Json>, i: nat)
    requires i <= |items| && AllMemberCalls(items[..i]).Err?
    ensures AllMemberCalls(items) == AllMemberCalls(items[..i])
  {
    hide MemberCalls;
    if i < |items| {
      assert items[..|items| - 1][..i] == items[..i];
      MemberErrorStands(items[..|items| - 1], i);
    } else {
      assert items[..i] == items;
    }
  }

  method ExpandClasses(items: seq<Json>) returns (r: Result<seq<Call>, ExpandError>)
    ensures match AllMemberCalls(items)
      case Ok(members) => r == Ok(ClassCalls(items) + members)
      case Err(e) => r == Err(e)
  {
    hide ClassCall, MemberCalls;
    var expanded := [];
    for i := 0 to |items|
      invariant expanded == ClassCalls(items[..i])
    {
      PrefixStep(items, i);
      expanded := expanded + ClassCall(items[i]);
    }
    FullPrefix(items);
    var members := [];
    for i := 0 to |items|
      invariant AllMemberCalls(items[..i]) == Ok(members)
    {
      PrefixStep(items, i);
      var more := ExpandMembers(items[i]);
      if more.Err? {
        MemberErrorStands(items, i + 1);
        return more;
      }
      members := members + more.value;
    }
    FullPrefix(items);
    return Ok(expanded + members);
  }

  method ExpandImageExtraction(args: map<string, Json>) returns (r: Result<seq<Call>, ExpandError>)
    ensures r == Expand(args)
  {
    var classes, relationships := ListArgument(args, "classes"), ListArgument(args, "relationships");
    if !classes.JArray? || !relationships.JArray? {
      return Ok([UnsupportedCall(EXTRACT)]);
    }
    hide ListArgument, ExtractedLinkCall, AllMemberCalls, ClassCalls;
    var expanded := ExpandClasses(classes.items);
    if expanded.Err? {
      return expanded;
    }
    var links := [];
    for i := 0 to |relationships.items|
      invariant links == ExtractedLinkCalls(relationships.items[..i])
    {
      PrefixStep(relationships.items, i);
      links := links + ExtractedLinkCall(relationships.items[i]);
    }
    FullPrefix(relationships.items);
    return Ok(expanded.value + links);
  }
}
