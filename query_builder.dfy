// The SPARQL templates of the graph service. Person data lives in the data graph and
// the schema in the ontology graph, two named graphs of one dataset; every query opens
// with the same PREFIX block. Each template is written as the list of its pieces, so
// that what a query contains can be read off the pieces.
module QueryBuilder {
  import opened Strings

  /** The default `ONTOLOGY_GRAPH_URI` and `DATA_GRAPH_URI` settings. Each builder takes
      the graph it reads or writes as its first argument: the data-graph builders are
      called with `DataGraph` and the ontology builders with `OntologyGraph`. */
  const OntologyGraph := "http://example.org/foaf-poc/ontology"
  const DataGraph := "http://example.org/foaf-poc/data"

  /** The `PREFIXES` block: a blank line, then one `PREFIX name: <iri>` line per
      vocabulary. */
  const Prefixes :=
    "\nPREFIX foaf: <http://xmlns.com/foaf/0.1/>\nPREFIX rel: <http://purl.org/vocab/relationship/>\n"
    + "PREFIX schema: <http://schema.org/>\nPREFIX custom: <http://example.org/foaf-poc/>\n"
    + "PREFIX xsd: <http://www.w3.org/2001/XMLSchema#>\nPREFIX rdfs: <http://www.w3.org/2000/01/rdf-schema#>\n"
    + "PREFIX rdf: <http://www.w3.org/1999/02/22-rdf-syntax-ns#>\nPREFIX owl: <http://www.w3.org/2002/07/owl#>\n"

  function GraphClause(graph: string): string {
    "GRAPH <" + graph + ">"
  }

  function Iri(uri: string): string {
    "<" + uri + ">"
  }

  // The fixed text of the templates, between the pieces the contracts name.
  const SearchSelect := "\nSELECT ?person ?name ?age ?phone ?email ?jobTitle ?city\nWHERE {\n    "
  const SearchPatterns :=
    " {\n        ?person a custom:Person ;\n                foaf:name ?name .\n"
    + "        OPTIONAL { ?person foaf:age ?age }\n        OPTIONAL { ?person foaf:phone ?phone }\n"
    + "        OPTIONAL { ?person foaf:mbox ?email }\n        OPTIONAL { ?person schema:jobTitle ?jobTitle }\n"
    + "        OPTIONAL { ?person schema:addressLocality ?city }\n        "
  const SearchLimit := "LIMIT 10\n"
  const SearchEnd := "))\n    }\n}\n" + SearchLimit
  const DetailsSelect := "\nSELECT ?predicate ?value\nWHERE {\n    "
  const OpenGraph := " {\n        "
  const CloseTriple := " .\n    }\n}\n"
  const RelationshipsSelect := "\nSELECT ?relationship ?relatedPerson ?relatedName\nWHERE {\n    "
  const OpenBranch := " {\n        {\n            "
  const RelationshipFilter :=
    "            FILTER (\n"
    + "                STRSTARTS(STR(?relationship), \"http://purl.org/vocab/relationship/\") ||\n"
    + "                ?relationship = foaf:knows ||\n"
    + "                ?relationship = custom:colleagueOf ||\n"
    + "                ?relationship = custom:neighborOf\n"
    + "            )\n"
  const RelatedPerson := " .\n            ?relatedPerson a custom:Person .\n            ?relatedPerson foaf:name ?relatedName .\n"
  const FirstBranchEnd := RelatedPerson + RelationshipFilter + "        }\n        "
  const SecondBranchStart := "\n        {\n            "
  const SecondBranchEnd := RelatedPerson + RelationshipFilter + "        }\n    }\n}\n"
  const CountWhere := "\nWHERE {\n    "
  const PersonPattern := " { ?p a custom:Person }"
  const InsertOpen := " {\n    "
  const InsertClose := "\n    }\n}\n"
  const AllSelect := "\nSELECT ?person ?name ?age ?jobTitle ?city\nWHERE {\n    "
  const AllPatterns :=
    " {\n        ?person a custom:Person ;\n                foaf:name ?name .\n"
    + "        OPTIONAL { ?person foaf:age ?age }\n        OPTIONAL { ?person schema:jobTitle ?jobTitle }\n"
    + "        OPTIONAL { ?person schema:addressLocality ?city }\n    }\n}\n"
  const ClassesSelect := "\nSELECT ?class ?label ?comment\nWHERE {\n    "
  const ClassesEnd := " .\n        OPTIONAL { ?class rdfs:label ?label }\n        OPTIONAL { ?class rdfs:comment ?comment }\n    }\n}\n"
  const PropertiesSelect := "\nSELECT ?property ?type ?label ?domain ?range\nWHERE {\n    "
  const PropertiesEnd :=
    " }\n        ?property a ?type .\n        OPTIONAL { ?property rdfs:label ?label }\n"
    + "        OPTIONAL { ?property rdfs:domain ?domain }\n        OPTIONAL { ?property rdfs:range ?range }\n"
    + "    }\n}\nORDER BY ?type ?property\n"
  const FullSelect := "\nSELECT ?subject ?predicate ?object\nWHERE {\n    "

  function SearchPersonByNameParts(graph: string, name: string): seq<string> {
    [Prefixes, SearchSelect, GraphClause(graph), SearchPatterns,
     "FILTER", " (", "CONTAINS", "(LCASE(?name), ", "LCASE(\"" + name + "\")", SearchEnd]
  }

  /** `search_person_by_name`: a case-insensitive substring match on `foaf:name`, at most
      ten hits, in the data graph. */
  function SearchPersonByName(graph: string, name: string): (q: string)
    ensures StartsWith(q, Prefixes)
    ensures Contains(q, GraphClause(graph))
    ensures Contains(q, "FILTER") && Contains(q, "CONTAINS")
    ensures EndsWith(q, "LIMIT 10\n")
  {
    var parts := SearchPersonByNameParts(graph, name);
    FlattenContains(parts, 2);
    FlattenContains(parts, 4);
    FlattenContains(parts, 6);
    FlattenEndsWith(parts);
    EndsWithTail("))\n    }\n}\n", SearchLimit);
    EndsWithTrans(Flatten(parts), SearchEnd, SearchLimit);
    Flatten(parts)
  }

  /** The name is spliced into the filter as given: the callers escape it. */
  lemma SearchIncludesName(graph: string, name: string)
    ensures Contains(SearchPersonByName(graph, name), "LCASE(\"" + name + "\")")
    ensures Contains(SearchPersonByName(graph, name), name)
  {
    var parts := SearchPersonByNameParts(graph, name);
    var filter := parts[8];
    FlattenSplit(parts, 8);
    ContainsMiddle(Flatten(parts[..8]), filter, Flatten(parts[9..]));
    ContainsMiddle("LCASE(\"", name, "\")");
    ContainsWiden(filter, name, Flatten(parts[..8]), Flatten(parts[9..]));
  }

  function PersonDetailsParts(graph: string, personUri: string): seq<string> {
    [Prefixes, DetailsSelect, GraphClause(graph), OpenGraph,
     Iri(personUri) + " ?predicate ?value", CloseTriple]
  }

  /** `get_person_details`: every predicate and value of the person in the data graph. */
  function PersonDetails(graph: string, personUri: string): (q: string)
    ensures StartsWith(q, Prefixes)
    ensures Contains(q, GraphClause(graph))
    ensures Contains(q, Iri(personUri) + " ?predicate ?value")
  {
    var parts := PersonDetailsParts(graph, personUri);
    FlattenContains(parts, 2);
    FlattenContains(parts, 4);
    Flatten(parts)
  }

  function PersonRelationshipsParts(graph: string, personUri: string): seq<string> {
    [Prefixes, RelationshipsSelect, GraphClause(graph), OpenBranch,
     Iri(personUri) + " ?relationship ?relatedPerson", FirstBranchEnd,
     "UNION", SecondBranchStart,
     "?relatedPerson ?relationship " + Iri(personUri), SecondBranchEnd]
  }

  /** `get_person_relationships`: the relationships in both directions, the person as
      subject in one branch of a UNION and as object in the other. */
  function PersonRelationships(graph: string, personUri: string): (q: string)
    ensures StartsWith(q, Prefixes)
    ensures Contains(q, GraphClause(graph))
    ensures Contains(q, "UNION")
    ensures Contains(q, Iri(personUri) + " ?relationship ?relatedPerson")
    ensures Contains(q, "?relatedPerson ?relationship " + Iri(personUri))
  {
    var parts := PersonRelationshipsParts(graph, personUri);
    FlattenContains(parts, 2);
    FlattenContains(parts, 4);
    FlattenContains(parts, 6);
    FlattenContains(parts, 8);
    Flatten(parts)
  }

  function NextPersonIdQueryParts(graph: string): seq<string> {
    [Prefixes, "\nSELECT ", "(COUNT(?p) as ?count)", CountWhere,
     GraphClause(graph) + PersonPattern, "\n}\n"]
  }

  /** `get_next_person_id`: the number of persons in the data graph. */
  function NextPersonIdQuery(graph: string): (q: string)
    ensures StartsWith(q, Prefixes)
    ensures Contains(q, GraphClause(graph) + PersonPattern)
    ensures Contains(q, "(COUNT(?p) as ?count)")
  {
    var parts := NextPersonIdQueryParts(graph);
    FlattenContains(parts, 2);
    FlattenContains(parts, 4);
    Flatten(parts)
  }

  function InsertPersonParts(graph: string, personUri: string, triples: string): seq<string> {
    [Prefixes, "\n", "INSERT DATA", InsertOpen,
     GraphClause(graph) + OpenGraph + triples, InsertClose]
  }

  /** `insert_person`: the triples written into the data graph. The URI argument is not
      used by the template. */
  function InsertPerson(graph: string, personUri: string, triples: string): (q: string)
    ensures StartsWith(q, Prefixes)
    ensures Contains(q, "INSERT DATA")
    ensures Contains(q, GraphClause(graph) + OpenGraph + triples)
  {
    var parts := InsertPersonParts(graph, personUri, triples);
    FlattenContains(parts, 2);
    FlattenContains(parts, 4);
    Flatten(parts)
  }

  function InsertRelationshipParts(graph: string, subjectUri: string, predicateUri: string, objectUri: string): seq<string> {
    [Prefixes, "\n", "INSERT DATA", InsertOpen, GraphClause(graph), OpenGraph,
     Iri(subjectUri) + " " + Iri(predicateUri) + " " + Iri(objectUri) + " .", InsertClose]
  }

  /** `insert_relationship`: one triple written into the data graph. */
  function InsertRelationship(graph: string, subjectUri: string, predicateUri: string, objectUri: string): (q: string)
    ensures StartsWith(q, Prefixes)
    ensures Contains(q, "INSERT DATA")
    ensures Contains(q, GraphClause(graph))
    ensures Contains(q, Iri(subjectUri) + " " + Iri(predicateUri) + " " + Iri(objectUri) + " .")
  {
    var parts := InsertRelationshipParts(graph, subjectUri, predicateUri, objectUri);
    FlattenContains(parts, 2);
    FlattenContains(parts, 4);
    FlattenContains(parts, 6);
    Flatten(parts)
  }

  function AllPersonsParts(graph: string, limit: int): seq<string> {
    [Prefixes, AllSelect, GraphClause(graph), AllPatterns,
     "ORDER BY ?name", "\n", "LIMIT " + IntToString(limit), "\n"]
  }

  /** `get_all_persons`: persons of the data graph ordered by name, at most `limit`. */
  function AllPersons(graph: string, limit: int): (q: string)
    ensures StartsWith(q, Prefixes)
    ensures Contains(q, GraphClause(graph))
    ensures Contains(q, "ORDER BY ?name")
    ensures Contains(q, "LIMIT " + IntToString(limit))
  {
    var parts := AllPersonsParts(graph, limit);
    FlattenContains(parts, 2);
    FlattenContains(parts, 4);
    FlattenContains(parts, 6);
    Flatten(parts)
  }

  function OntologyClassesParts(graph: string): seq<string> {
    [Prefixes, ClassesSelect, GraphClause(graph), " {\n        ?class a ",
     "owl:Class", ClassesEnd]
  }

  /** `get_ontology_classes`: the OWL classes of the ontology graph. */
  function OntologyClasses(graph: string): (q: string)
    ensures StartsWith(q, Prefixes)
    ensures Contains(q, GraphClause(graph))
    ensures Contains(q, "owl:Class")
  {
    var parts := OntologyClassesParts(graph);
    FlattenContains(parts, 2);
    FlattenContains(parts, 4);
    Flatten(parts)
  }

  function OntologyPropertiesParts(graph: string): seq<string> {
    [Prefixes, PropertiesSelect, GraphClause(graph), " {\n        VALUES ?type { ",
     "owl:ObjectProperty", " ", "owl:DatatypeProperty", PropertiesEnd]
  }

  /** `get_ontology_properties`: the object and datatype properties of the ontology graph. */
  function OntologyProperties(graph: string): (q: string)
    ensures StartsWith(q, Prefixes)
    ensures Contains(q, GraphClause(graph))
    ensures Contains(q, "owl:ObjectProperty") && Contains(q, "owl:DatatypeProperty")
  {
    var parts := OntologyPropertiesParts(graph);
    FlattenContains(parts, 2);
    FlattenContains(parts, 4);
    FlattenContains(parts, 6);
    Flatten(parts)
  }

  function FullOntologyParts(graph: string): seq<string> {
    [Prefixes, FullSelect, GraphClause(graph), OpenGraph,
     "?subject ?predicate ?object", CloseTriple]
  }

  /** `get_full_ontology`: every triple of the ontology graph. */
  function FullOntology(graph: string): (q: string)
    ensures StartsWith(q, Prefixes)
    ensures Contains(q, GraphClause(graph))
    ensures Contains(q, "?subject ?predicate ?object")
  {
    var parts := FullOntologyParts(graph);
    FlattenContains(parts, 2);
    FlattenContains(parts, 4);
    Flatten(parts)
  }
}
