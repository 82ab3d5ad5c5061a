/** The errors `map_to_relational` declares (`mapping/errors.py`). */
module MapErrors {
  import opened Uml

  datatype MapError =
    | MultipleGeneralizationParents(classId: ElementId, parentIds: seq<ElementId>)
    | GeneralizationCycle(classIds: seq<ElementId>)
    | UnknownEnumeration(attributeId: ElementId, enumerationId: ElementId)
    | DanglingRelationshipEndpoint(relationshipId: ElementId)
    | InvalidGenerationProfile
    | InvalidElementName(name: string)
}
