/** The name-based edit calls the assistant works with (`ai_assistant/tools.py`, `gemini_client.py`). */
module Calls {
  import opened Text

  /** Classes are named by text; an absent optional argument is `None`. */
  datatype Call =
    | AddClassCall(name: string)
    | RemoveClassCall(className: string)
    | RenameClassCall(className: string, newName: string)
    | AddAttributeCall(className: string, attributeName: string, attributeType: string)
    | RemoveAttributeCall(className: string, attributeName: string)
    | AddOperationCall(className: string, operationName: string, returnType: Option<string>)
    | RemoveOperationCall(className: string, operationName: string)
    | AddRelationshipCall(link: LinkArguments)
    | RemoveRelationshipCall(sourceName: string, targetName: string, kindFilter: Option<string>)
    | UpdateRelationshipCall(
        sourceName: string, targetName: string, kindFilter: Option<string>,
        newLinkName: Option<Option<string>>, newSource: Option<string>, newTarget: Option<string>)
    | UnsupportedCall(functionName: string)

  datatype LinkArguments = LinkArguments(
    kind: string,
    sourceName: string,
    targetName: string,
    source: Option<string>,
    target: Option<string>,
    name: Option<string>)
}
