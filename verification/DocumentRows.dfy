/** One document row under its row lock: every write is one atomic step. */
module DocumentRows {
  import opened Text
  import opened Uml
  import opened Commands
  import opened Documents

  // ---- the steps as functions ------------------------------------------

  /** `submit_command`: the gate, then the handler, then revision + 1. */
  ghost function Submit(doc: Document, command: Command): Result<Document, SubmitError> {
    match Gate(doc.model, command)
    case Some(e) => Err(e)
    case None => Ok(Document(Handle(doc.model, command), doc.layout, doc.revision + 1))
  }

  /** Single submissions one after the other, up to the first that is refused. */
  ghost function SubmitEach(doc: Document, commands: seq<Command>): Result<Document, SubmitError>
    decreases |commands|
  {
    if commands == [] then Ok(doc)
    else
      match Submit(doc, commands[0])
      case Err(e) => Err(e)
      case Ok(next) => SubmitEach(next, commands[1..])
  }

  /** What a batch does to the row: everything, or an error and nothing. */
  ghost function SubmitBatch(doc: Document, commands: seq<Command>, expected: Option<nat>): Result<Document, SubmitError> {
    if expected.Some? && doc.revision != expected.value then Err(StaleRevision)
    else if commands == [] then Err(EmptyBatch)
    else SubmitEach(doc, commands)
  }

  function LivePositions(layout: Layout, classes: seq<UmlClass>): Layout {
    map id | id in layout && ClassById(classes, id).Some? :: layout[id]
  }

  /** `save_layout_position`: a class that is gone writes nothing. */
  function SavePosition(doc: Document, classId: ElementId, position: Position): Document {
    if ClassById(doc.model.classes, classId).None? then doc
    else
      Document(doc.model, LivePositions(doc.layout, doc.model.classes)[classId := position], doc.revision + 1)
  }

  // ---- the row ---------------------------------------------------------

  class DocumentRow {
    var content: Document

    constructor ()
      ensures content == Document(EMPTY_MODEL, map[], 1)
    {
      content := Document(EMPTY_MODEL, map[], 1);
    }

    method Validate(model: Model, command: Command) returns (r: Option<SubmitError>)
      ensures r == Gate(model, command)
    {
      match command {
        case SetGenerationProfile(id, profile) => r := ValidateGenerationProfile(model, id, profile);
        case UpdateRelationship(id, _, source, target) => r := UpdateGate(model, id, source, target);
        case _ => r := None;
      }
    }

    method SubmitCommand(command: Command) returns (r: Result<Document, SubmitError>)
      modifies this
      ensures r == Submit(old(content), command)
      ensures content == if r.Ok? then r.value else old(content)
    {
      var refused := Validate(content.model, command);
      if refused.Some? {
        return Err(refused.value);
      }
      content := Document(Handle(content.model, command), content.layout, content.revision + 1);
      return Ok(content);
    }

    /** The row is written once, after the last command; an error leaves it untouched. */
    method SubmitCommands(commands: seq<Command>, expected: Option<nat>) returns (r: Result<Document, SubmitError>)
      modifies this
      ensures r == SubmitBatch(old(content), commands, expected)
      ensures content == if r.Ok? then r.value else old(content)
    {
      hide Gate;
      var document := content;
      if expected.Some? && document.revision != expected.value {
        return Err(StaleRevision);
      }
      for i := 0 to |commands|
        invariant content == old(content)
        invariant SubmitEach(content, commands) == SubmitEach(document, commands[i..])
      {
        assert commands[i..][1..] == commands[i + 1..];
        var refused := Validate(document.model, commands[i]);
        if refused.Some? {
          return Err(refused.value);
        }
        document := Document(Handle(document.model, commands[i]), document.layout, document.revision + 1);
      }
      if commands == [] {
        return Err(EmptyBatch);
      }
      content := document;
      return Ok(document);
    }

    method ReplaceContent(model: Model, layout: Layout)
      modifies this
      ensures content == Document(model, layout, old(content).revision + 1)
    {
      content := Document(model, layout, content.revision + 1);
    }

    method SaveLayoutPosition(classId: ElementId, position: Position)
      modifies this
      ensures content == SavePosition(old(content), classId, position)
    {
      if ClassById(content.model.classes, classId).None? {
        return;
      }
      var positions := LivePositions(content.layout, content.model.classes)[classId := position];
      content := Document(content.model, positions, content.revision + 1);
    }
  }

  // ---- batches ---------------------------------------------------------

  /** Each accepted command raises the revision by one. */
  lemma {:induction false} EachRaisesRevision(doc: Document, commands: seq<Command>)
    requires SubmitEach(doc, commands).Ok?
    ensures SubmitEach(doc, commands).value.revision == doc.revision + |commands|
    ensures SubmitEach(doc, commands).value.layout == doc.layout
    decreases |commands|
  {
    hide Gate;
    if commands != [] {
      EachRaisesRevision(Submit(doc, commands[0]).value, commands[1..]);
    }
  }

  /** The state of a row after submitting the commands one by one, refused ones having no effect. */
  ghost function RowAfterEach(doc: Document, commands: seq<Command>): Document
    decreases |commands|
  {
    if commands == [] then doc
    else RowAfterEach(if Submit(doc, commands[0]).Ok? then Submit(doc, commands[0]).value else doc, commands[1..])
  }

  /** Every command is accepted in the state its predecessors leave. */
  ghost predicate AllAccepted(doc: Document, commands: seq<Command>)
    decreases |commands|
  {
    commands == [] || (Submit(doc, commands[0]).Ok? && AllAccepted(Submit(doc, commands[0]).value, commands[1..]))
  }

  /** A batch of n commands is n single submissions, or nothing at all. */
  lemma {:induction false} EachIsSingles(doc: Document, commands: seq<Command>)
    ensures SubmitEach(doc, commands).Ok? <==> AllAccepted(doc, commands)
    ensures SubmitEach(doc, commands).Ok? ==> SubmitEach(doc, commands).value == RowAfterEach(doc, commands)
    decreases |commands|
  {
    hide Gate;
    if commands != [] && Submit(doc, commands[0]).Ok? {
      EachIsSingles(Submit(doc, commands[0]).value, commands[1..]);
    }
  }

  lemma BatchIsSinglesOrNothing(doc: Document, commands: seq<Command>, expected: Option<nat>)
    ensures SubmitBatch(doc, commands, expected).Ok? <==>
      (expected.Some? ==> doc.revision == expected.value) && commands != [] && AllAccepted(doc, commands)
    ensures SubmitBatch(doc, commands, expected).Ok? ==>
      SubmitBatch(doc, commands, expected).value == RowAfterEach(doc, commands)
      && SubmitBatch(doc, commands, expected).value.revision == doc.revision + |commands|
  {
    EachIsSingles(doc, commands);
    if SubmitEach(doc, commands).Ok? {
      EachRaisesRevision(doc, commands);
    }
  }
}
