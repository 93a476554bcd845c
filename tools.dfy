// The graph agent's tools. Each tool talks to the SPARQL server, given here as an
// oracle, and returns the dictionary the agent reads; the model returns that reply
// together with the requests the tool sent, in order.
module GraphTools {
  import opened Base
  import opened Strings
  import opened SparqlTypes
  import opened Validator
  import Helpers
  import QueryBuilder
  import opened PrefixStrip

  /** The shapes of the dictionaries the tools return. */
  datatype Reply =
    | Rows(results: seq<Row>, count: nat)
    | Answer(answer: bool)
    | Message(message: string)
    | PersonRows(personUri: string, results: seq<Row>, count: nat)
    | PersonAdded(personUri: string, message: string)
    | Schema(classes: seq<Row>, properties: seq<Row>, classCount: nat, propertyCount: nat)
    | Failed(error: string)

  datatype Outcome = Outcome(reply: Reply, sent: seq<Request>)

  // ---------------------------------------------------------------------------
  // `execute_sparql_query`
  // ---------------------------------------------------------------------------

  const UnsupportedPrefix := "Unsupported query type. Query body starts with: "
  const UpdateDone := "Update executed successfully"

  /** The request the tool sends for a query of the given kind. */
  function RequestFor(kind: QueryKind, query: string): Request
    requires !kind.Unsupported?
  {
    match kind
    case SelectQuery => SelectRequest(query)
    case AskQuery => AskRequest(query)
    case UpdateQuery => UpdateRequest(query)
  }

  /** The tool classifies the query by its body, sends the whole query (declarations
      included) as that kind of request, and reports the server's answer or error; a
      body of any other kind is refused without contacting the server. */
  function ExecuteSparqlQuery(ep: Endpoint, query: string): (o: Outcome)
    ensures var kind := KindOf(QueryBody(query));
      && (kind.Unsupported? <==> o.sent == [])
      && (kind.Unsupported? ==>
            o.reply == Failed(UnsupportedPrefix + Take(QueryBody(query), 30) + "..."))
      && (!kind.Unsupported? ==> o.sent == [RequestFor(kind, query)])
    ensures o.reply.Rows? <==> KindOf(QueryBody(query)).SelectQuery? && ep.select(query).Ok?
    ensures o.reply.Rows? ==> o.reply.results == ep.select(query).value && o.reply.count == |o.reply.results|
    ensures o.reply.Answer? <==> KindOf(QueryBody(query)).AskQuery? && ep.ask(query).Ok?
    ensures o.reply.Answer? ==> o.reply.answer == ep.ask(query).value
    ensures o.reply.Message? <==> KindOf(QueryBody(query)).UpdateQuery? && ep.update(query).Ok?
    ensures o.reply.Message? ==> o.reply.message == UpdateDone
    ensures o.reply.Rows? || o.reply.Answer? || o.reply.Message? || o.reply.Failed?
  {
    var body := QueryBody(query);
    match KindOf(body)
    case SelectQuery =>
      var sent := [SelectRequest(query)];
      (match ep.select(query)
       case Ok(results) => Outcome(Rows(results, |results|), sent)
       case Err(e) => Outcome(Failed(e), sent))
    case AskQuery =>
      var sent := [AskRequest(query)];
      (match ep.ask(query)
       case Ok(answer) => Outcome(Answer(answer), sent)
       case Err(e) => Outcome(Failed(e), sent))
    case UpdateQuery =>
      var sent := [UpdateRequest(query)];
      (match ep.update(query)
       case Ok(_) => Outcome(Message(UpdateDone), sent)
       case Err(e) => Outcome(Failed(e), sent))
    case Unsupported =>
      Outcome(Failed(UnsupportedPrefix + Take(body, 30) + "..."), [])
  }

  /** Well-formed declarations in front of a query change neither the kind of request
      sent nor, therefore, which of the server's answers comes back. */
  lemma ExecuteIgnoresDeclarations(ep: Endpoint, table: seq<(string, string)>, t: string)
    requires WellFormedTable(table) && NoDotAhead(t) && !KindOf(QueryBody(t)).Unsupported?
    ensures var q := PrefixBlock(table) + t;
      ExecuteSparqlQuery(ep, q).sent == [RequestFor(KindOf(QueryBody(t)), q)]
  {
    DeclaredKind(table, t);
  }

  /** Declarations, whitespace and a SELECT: the whole text goes to the server as a
      SELECT. */
  lemma ExecuteDeclaredSelect(ep: Endpoint, table: seq<(string, string)>, t: string, n: nat)
    requires WellFormedTable(table)
    requires n + 6 <= |t| && 0 < n && forall k :: 0 <= k < n ==> IsSpace(t[k])
    requires forall k :: 0 <= k < 6 ==> t[n + k] == SelectWord[k]
    ensures var q := PrefixBlock(table) + t;
      ExecuteSparqlQuery(ep, q).sent == [SelectRequest(q)]
  {
    SelectQueryKind(table, t, n);
  }

  /** ... and an INSERT as an update. */
  lemma ExecuteDeclaredInsert(ep: Endpoint, table: seq<(string, string)>, t: string, n: nat)
    requires WellFormedTable(table)
    requires n + 6 <= |t| && 0 < n && forall k :: 0 <= k < n ==> IsSpace(t[k])
    requires forall k :: 0 <= k < 6 ==> t[n + k] == InsertWord[k]
    ensures var q := PrefixBlock(table) + t;
      ExecuteSparqlQuery(ep, q).sent == [UpdateRequest(q)]
  {
    InsertQueryKind(table, t, n);
  }

  // ---------------------------------------------------------------------------
  // `search_person_by_name` and `get_person_relationships`
  // ---------------------------------------------------------------------------

  /** The query texts the tools send, as functions of what varies in them. The
      service's own are the query builder's templates over its data and ontology graphs
      (`ServiceQueries`); the tools are stated over any such family, so that their
      contracts name the text sent without spelling it out. */
  datatype Queries = Queries(
    search: string -> string,
    relationships: string -> string,
    nextId: string,
    insertPerson: (string, string) -> string,
    insertRelationship: (string, string, string) -> string,
    classes: string,
    properties: string)

  const ServiceQueries := Queries(
    name => QueryBuilder.SearchPersonByName(QueryBuilder.DataGraph, name),
    uri => QueryBuilder.PersonRelationships(QueryBuilder.DataGraph, uri),
    QueryBuilder.NextPersonIdQuery(QueryBuilder.DataGraph),
    (uri, triples) => QueryBuilder.InsertPerson(QueryBuilder.DataGraph, uri, triples),
    (s, p, o) => QueryBuilder.InsertRelationship(QueryBuilder.DataGraph, s, p, o),
    QueryBuilder.OntologyClasses(QueryBuilder.OntologyGraph),
    QueryBuilder.OntologyProperties(QueryBuilder.OntologyGraph))

  /** The search the tools send for a name: the name escaped first. */
  function SearchQuery(qs: Queries, name: string): string {
    qs.search(Sanitize(name))
  }

  /** The search text always carries the name with its quotes and backslashes
      escaped, so a name cannot end the string literal it is placed in. */
  lemma SearchQueryEscapes(name: string)
    ensures Contains(SearchQuery(ServiceQueries, name), Escape(name))
    ensures Contains(SearchQuery(ServiceQueries, name), QueryBuilder.GraphClause(QueryBuilder.DataGraph))
  {
    SanitizeEscapes(name);
    QueryBuilder.SearchIncludesName(QueryBuilder.DataGraph, Sanitize(name));
  }

  function SearchPersonByName(ep: Endpoint, qs: Queries, name: string): (o: Outcome)
    ensures o.sent == [SelectRequest(SearchQuery(qs, name))]
    ensures ep.select(SearchQuery(qs, name)).Ok? ==>
              o.reply == Rows(ep.select(SearchQuery(qs, name)).value, |ep.select(SearchQuery(qs, name)).value|)
    ensures ep.select(SearchQuery(qs, name)).Err? ==> o.reply == Failed(ep.select(SearchQuery(qs, name)).error)
  {
    var query := SearchQuery(qs, name);
    match ep.select(query)
    case Ok(results) => Outcome(Rows(results, |results|), [SelectRequest(query)])
    case Err(e) => Outcome(Failed(e), [SelectRequest(query)])
  }

  /** A person reference resolved to a URI, and the requests that took. */
  datatype Resolved = Resolved(uri: Result<string, string>, sent: seq<Request>)

  function NoPersonNamed(value: string): string {
    "No person found with name '" + value + "'"
  }

  /** `KeyError('person')` as `str()` shows it. */
  const MissingPerson := "'person'"

  /** How both tools turn a name or URI into a URI: text starting with `"http"` is a URI
      already; anything else is searched for and the first hit's `person` binding is
      taken, an empty search being an error. */
  function ResolveName(ep: Endpoint, qs: Queries, value: string): (r: Resolved)
    ensures StartsWith(value, "http") ==> r == Resolved(Ok(value), [])
    ensures !StartsWith(value, "http") ==> r.sent == [SelectRequest(SearchQuery(qs, value))]
    ensures !StartsWith(value, "http") && r.uri.Ok? ==>
              var hits := ep.select(SearchQuery(qs, value));
              hits.Ok? && hits.value != [] && "person" in hits.value[0]
              && r.uri.value == hits.value[0]["person"].value
    ensures !StartsWith(value, "http") && ep.select(SearchQuery(qs, value)) == Ok([]) ==>
              r.uri == Err(NoPersonNamed(value))
  {
    if StartsWith(value, "http") then Resolved(Ok(value), [])
    else
      var sent := [SelectRequest(SearchQuery(qs, value))];
      match ep.select(SearchQuery(qs, value))
      case Err(e) => Resolved(Err(e), sent)
      case Ok(hits) =>
        if hits == [] then Resolved(Err(NoPersonNamed(value)), sent)
        else if "person" !in hits[0] then Resolved(Err(MissingPerson), sent)
        else Resolved(Ok(hits[0]["person"].value), sent)
  }

  /** `get_person_relationships`: resolve, then ask for the relationships of the URI;
      a failed resolution is reported and nothing more is sent. */
  function GetPersonRelationships(ep: Endpoint, qs: Queries, personNameOrUri: string): (o: Outcome)
    ensures var r := ResolveName(ep, qs, personNameOrUri);
      && (r.uri.Err? ==> o == Outcome(Failed(r.uri.error), r.sent))
      && (r.uri.Ok? ==> o.sent == r.sent + [SelectRequest(qs.relationships(r.uri.value))])
      && (r.uri.Ok? && ep.select(qs.relationships(r.uri.value)).Ok? ==>
            var rows := ep.select(qs.relationships(r.uri.value)).value;
            o.reply == PersonRows(r.uri.value, rows, |rows|))
    ensures o.reply.PersonRows? || o.reply.Failed?
  {
    var r := ResolveName(ep, qs, personNameOrUri);
    match r.uri
    case Err(e) => Outcome(Failed(e), r.sent)
    case Ok(uri) =>
      var query := qs.relationships(uri);
      var sent := r.sent + [SelectRequest(query)];
      match ep.select(query)
      case Ok(rows) => Outcome(PersonRows(uri, rows, |rows|), sent)
      case Err(e) => Outcome(Failed(e), sent)
  }

  /** A URI is used as given: one request, for its relationships. */
  lemma RelationshipsOfUri(ep: Endpoint, qs: Queries, uri: string)
    requires StartsWith(uri, "http")
    ensures GetPersonRelationships(ep, qs, uri).sent == [SelectRequest(qs.relationships(uri))]
  {
  }

  /** A name nobody has: one search, and the error that names it. */
  lemma RelationshipsOfUnknownName(ep: Endpoint, qs: Queries, name: string)
    requires !StartsWith(name, "http") && ep.select(SearchQuery(qs, name)) == Ok([])
    ensures GetPersonRelationships(ep, qs, name) == Outcome(Failed(NoPersonNamed(name)), [SelectRequest(SearchQuery(qs, name))])
  {
  }

  /** The service's relationship query asks for the resolved URI as either end. */
  lemma ServiceRelationshipsQuery(uri: string)
    ensures Contains(ServiceQueries.relationships(uri), QueryBuilder.Iri(uri) + " ?relationship ?relatedPerson")
    ensures Contains(ServiceQueries.relationships(uri), "?relatedPerson ?relationship " + QueryBuilder.Iri(uri))
  {
  }

  // ---------------------------------------------------------------------------
  // `add_person_to_graph`
  // ---------------------------------------------------------------------------

  /** The tool's arguments; `None` is an argument left out. */
  datatype PersonInput = PersonInput(
    name: string, age: Option<AgeValue>,
    gender: Option<string>, phone: Option<string>, email: Option<string>,
    address: Option<string>, city: Option<string>, state: Option<string>,
    postalCode: Option<string>, country: Option<string>, jobTitle: Option<string>,
    occupation: Option<string>, industry: Option<string>)

  /** The dictionary the validator sees. */
  function PersonDataOf(p: PersonInput): PersonData {
    PersonData(Some(p.name), p.age, p.gender)
  }

  /** Python truthiness of an optional string. */
  predicate Truthy(v: Option<string>) { v.Some? && v.value != "" }

  /** `f"{n:03d}"`: at least three characters, zero-padded after the sign. */
  function Pad3(n: int): (r: string)
    ensures |r| >= 3
  {
    if n < 0 then "-" + ZeroPad(-n, 2) else ZeroPad(n, 3)
  }

  function PersonId(count: int): string {
    "person" + Pad3(count + 1)
  }

  function PersonUri(count: int): string {
    Helpers.DefaultNamespace + PersonId(count)
  }

  /** The text of `int(...)`'s error for a value it cannot read. */
  function NotAnInteger(v: string): string {
    "invalid literal for int() with base 10: '" + v + "'"
  }

  const MissingCount := "'count'"

  /** `int(count_results[0]["count"]["value"]) if count_results else 0`. */
  function CountOf(r: Result<seq<Row>, string>): (c: Result<int, string>)
    ensures r == Ok([]) ==> c == Ok(0)
    ensures c.Ok? && r.Ok? && r.value != [] ==>
              "count" in r.value[0] && ParseInt(r.value[0]["count"].value) == Some(c.value)
    ensures r.Err? ==> c == Err(r.error)
  {
    match r
    case Err(e) => Err(e)
    case Ok(rows) =>
      if rows == [] then Ok(0)
      else if "count" !in rows[0] then Err(MissingCount)
      else
        var v := rows[0]["count"].value;
        match ParseInt(v)
        case None => Err(NotAnInteger(v))
        case Some(n) => Ok(n)
  }

  /** One optional property of the new person: its predicate, its value, and whether
      the value is a mailbox IRI rather than a string literal. */
  datatype Field = Field(property: string, value: Option<string>, mailbox: bool)

  // The properties of the optional arguments.
  const GenderProperty := "foaf:gender"
  const PhoneProperty := "foaf:phone"
  const MailboxProperty := "foaf:mbox"
  const AddressProperty := "schema:address"
  const LocalityProperty := "schema:addressLocality"
  const RegionProperty := "schema:addressRegion"
  const PostalCodeProperty := "schema:postalCode"
  const CountryProperty := "schema:addressCountry"
  const JobTitleProperty := "schema:jobTitle"
  const OccupationProperty := "custom:occupation"
  const IndustryProperty := "custom:industry"

  /** The optional properties in the order the tool writes them. */
  function Fields(p: PersonInput): seq<Field> {
    [Field(GenderProperty, p.gender, false), Field(PhoneProperty, p.phone, false),
     Field(MailboxProperty, p.email, true), Field(AddressProperty, p.address, false),
     Field(LocalityProperty, p.city, false), Field(RegionProperty, p.state, false),
     Field(PostalCodeProperty, p.postalCode, false), Field(CountryProperty, p.country, false),
     Field(JobTitleProperty, p.jobTitle, false), Field(OccupationProperty, p.occupation, false),
     Field(IndustryProperty, p.industry, false)]
  }

  function Subject(uri: string): string { "<" + uri + ">" }

  function TypeTriple(uri: string): string { Subject(uri) + " a custom:Person" }

  function NameTriple(uri: string, name: string): string {
    Subject(uri) + " foaf:name \"" + Sanitize(name) + "\""
  }

  function AgeTriple(uri: string, age: int): string {
    Subject(uri) + " foaf:age " + IntToString(age)
  }

  function FieldTriple(uri: string, f: Field): string
    requires f.value.Some?
  {
    var v := Sanitize(f.value.value);
    Subject(uri) + " " + f.property + " " + (if f.mailbox then "<mailto:" + v + ">" else "\"" + v + "\"")
  }

  function CreatedTriple(uri: string, timestamp: string): string {
    Subject(uri) + " custom:createdAt \"" + timestamp + "\"^^xsd:dateTime"
  }

  /** `int(age)` of an age the validator has accepted. */
  function AgeInt(a: AgeValue): int
    requires AgeOf(a).Some?
  {
    AgeOf(a).value
  }

  predicate AgeReadable(p: PersonInput) {
    p.age.Some? ==> AgeOf(p.age.value).Some?
  }

  function AgeTriples(uri: string, p: PersonInput): seq<string>
    requires AgeReadable(p)
  {
    if p.age.Some? then [AgeTriple(uri, AgeInt(p.age.value))] else []
  }

  /** The triple of each truthy field, in order. */
  function FieldTriples(uri: string, fs: seq<Field>): (r: seq<string>)
    ensures |r| <= |fs|
  {
    if fs == [] then []
    else (if Truthy(fs[0].value) then [FieldTriple(uri, fs[0])] else []) + FieldTriples(uri, fs[1..])
  }

  /** The triples of a new person: its type and name, its age whenever one was given,
      its truthy optional properties in their fixed order, and its creation time. */
  function PersonTriples(uri: string, p: PersonInput, timestamp: string): seq<string>
    requires AgeReadable(p)
  {
    [TypeTriple(uri), NameTriple(uri, p.name)] + AgeTriples(uri, p) + FieldTriples(uri, Fields(p))
    + [CreatedTriple(uri, timestamp)]
  }

  const TripleSeparator := " .\n    "

  function TripleString(triples: seq<string>): string {
    Join(triples, TripleSeparator) + " ."
  }

  function InsertQuery(qs: Queries, uri: string, p: PersonInput, timestamp: string): string
    requires AgeReadable(p)
  {
    qs.insertPerson(uri, TripleString(PersonTriples(uri, p, timestamp)))
  }

  /** The service writes the triple string of the new person into the data graph. */
  lemma ServiceInsertPerson(uri: string, p: PersonInput, timestamp: string)
    requires AgeReadable(p)
    ensures Contains(InsertQuery(ServiceQueries, uri, p, timestamp),
                     QueryBuilder.GraphClause(QueryBuilder.DataGraph) + QueryBuilder.OpenGraph
                     + TripleString(PersonTriples(uri, p, timestamp)))
  {
  }

  function AddedMessage(name: string): string {
    "Person '" + name + "' added successfully"
  }

  lemma {:induction false} FieldTriplesSnoc(uri: string, fs: seq<Field>, f: Field)
    ensures FieldTriples(uri, fs + [f])
         == FieldTriples(uri, fs) + (if Truthy(f.value) then [FieldTriple(uri, f)] else [])
  {
    if fs == [] {
      assert [] + [f] == [f];
      assert [f][1..] == [];
    } else {
      assert (fs + [f])[1..] == fs[1..] + [f];
      FieldTriplesSnoc(uri, fs[1..], f);
    }
  }

  /** `if value: triples.append(...)` for the `k`-th optional property, the triples of
      the ones before it having been written after `head`. */
  method AppendField(triples: seq<string>, uri: string, ghost head: seq<string>, fs: seq<Field>, k: nat)
    returns (next: seq<string>)
    requires k < |fs| && triples == head + FieldTriples(uri, fs[..k])
    ensures next == head + FieldTriples(uri, fs[..k + 1])
  {
    assert fs[..k + 1] == fs[..k] + [fs[k]];
    FieldTriplesSnoc(uri, fs[..k], fs[k]);
    next := triples;
    if Truthy(fs[k].value) {
      next := next + [FieldTriple(uri, fs[k])];
    }
  }

  /** The eleven `if value: triples.append(...)` statements, in order. */
  method AppendFields(triples: seq<string>, uri: string, fs: seq<Field>) returns (next: seq<string>)
    requires |fs| == 11
    ensures next == triples + FieldTriples(uri, fs)
  {
    ghost var head := triples;
    assert fs[..0] == [];
    next := triples;
    next := AppendField(next, uri, head, fs, 0);
    next := AppendField(next, uri, head, fs, 1);
    next := AppendField(next, uri, head, fs, 2);
    next := AppendField(next, uri, head, fs, 3);
    next := AppendField(next, uri, head, fs, 4);
    next := AppendField(next, uri, head, fs, 5);
    next := AppendField(next, uri, head, fs, 6);
    next := AppendField(next, uri, head, fs, 7);
    next := AppendField(next, uri, head, fs, 8);
    next := AppendField(next, uri, head, fs, 9);
    next := AppendField(next, uri, head, fs, 10);
    assert fs[..11] == fs;
  }

  /** The triples, appended one by one as the tool does. */
  method BuildTriples(uri: string, p: PersonInput, timestamp: string) returns (triples: seq<string>)
    requires AgeReadable(p)
    ensures triples == PersonTriples(uri, p, timestamp)
  {
    triples := [TypeTriple(uri)];
    triples := triples + [NameTriple(uri, p.name)];
    if p.age.Some? {
      triples := triples + [AgeTriple(uri, AgeInt(p.age.value))];
    }
    triples := AppendFields(triples, uri, Fields(p));
    triples := triples + [CreatedTriple(uri, timestamp)];
  }

  /** `add_person_to_graph`: validate before anything is sent; count the persons to
      number the new one; write its triples into the data graph. */
  method AddPersonToGraph(ep: Endpoint, qs: Queries, p: PersonInput, timestamp: string) returns (reply: Reply, sent: seq<Request>)
    ensures var verdict := ValidatePerson(PersonDataOf(p));
      !verdict.ok ==> reply == Failed(verdict.error.value) && sent == []
    ensures ValidatePerson(PersonDataOf(p)).ok ==> |sent| >= 1 && sent[0] == SelectRequest(qs.nextId)
    ensures var counted := CountOf(ep.select(qs.nextId));
      ValidatePerson(PersonDataOf(p)).ok && counted.Err? ==> reply == Failed(counted.error) && |sent| == 1
    ensures var counted := CountOf(ep.select(qs.nextId));
      ValidatePerson(PersonDataOf(p)).ok && counted.Ok? ==>
        var uri := PersonUri(counted.value);
        && sent == [SelectRequest(qs.nextId), UpdateRequest(InsertQuery(qs, uri, p, timestamp))]
        && (ep.update(InsertQuery(qs, uri, p, timestamp)).Ok? ==> reply == PersonAdded(uri, AddedMessage(p.name)))
        && (ep.update(InsertQuery(qs, uri, p, timestamp)).Err? ==>
              reply == Failed(ep.update(InsertQuery(qs, uri, p, timestamp)).error))
  {
    var verdict := ValidatePerson(PersonDataOf(p));
    if !verdict.ok {
      return Failed(verdict.error.value), [];
    }
    var countQuery := qs.nextId;
    sent := [SelectRequest(countQuery)];
    var counted := CountOf(ep.select(countQuery));
    if counted.Err? {
      return Failed(counted.error), sent;
    }
    var uri := PersonUri(counted.value);
    var triples := BuildTriples(uri, p, timestamp);
    var insert := qs.insertPerson(uri, TripleString(triples));
    sent := sent + [UpdateRequest(insert)];
    match ep.update(insert)
    case Err(e) =>
      return Failed(e), sent;
    case Ok(_) =>
      return PersonAdded(uri, AddedMessage(p.name)), sent;
  }

  // Properties of the numbering and of the triples.

  /** Ids have at least three digits and differ for different counts. */
  lemma PersonIdInjective(m: nat, n: nat)
    requires PersonId(m) == PersonId(n)
    ensures m == n
  {
    assert Pad3(m + 1) == PersonId(m)[6..];
    ZeroPadInjective(m + 1, n + 1, 3);
  }

  /** With no persons yet, the first id is `person001`. */
  lemma FirstPersonId()
    ensures PersonId(0) == "person001"
  {
    assert NatToString(1) == "1";
    assert Repeat('0', 2) == "00";
  }

  /** The id of the new person is what `uri_to_id` reads back off its URI. */
  lemma PersonUriId(count: int)
    ensures Helpers.UriToId(PersonUri(count)) == PersonId(count)
  {
    var id := PersonId(count);
    var pad := Pad3(count + 1);
    assert '/' !in pad by {
      if count + 1 < 0 {
        assert pad[1..] == ZeroPad(-(count + 1), 2);
        ZeroPadValue(-(count + 1), 2);
      } else {
        ZeroPadValue(count + 1, 3);
      }
    }
    assert '/' !in id by {
      forall i | 0 <= i < |id| ensures id[i] != '/' {
        if i >= 6 {
          assert id[i] == pad[i - 6];
        }
      }
    }
    assert PersonUri(count) == "http://example.org/foaf-poc" + "/" + id;
    Helpers.UriToIdAfterSlash("http://example.org/foaf-poc", id);
  }

  /** Every triple is about the new person. */
  lemma {:induction false} FieldTriplesAbout(uri: string, fs: seq<Field>)
    ensures forall t :: t in FieldTriples(uri, fs) ==> StartsWith(t, Subject(uri))
  {
    if fs != [] {
      FieldTriplesAbout(uri, fs[1..]);
    }
  }

  lemma PersonTriplesShape(uri: string, p: PersonInput, timestamp: string)
    requires AgeReadable(p)
    ensures var ts := PersonTriples(uri, p, timestamp);
      && |ts| >= 3
      && ts[0] == TypeTriple(uri) && ts[1] == NameTriple(uri, p.name)
      && ts[|ts| - 1] == CreatedTriple(uri, timestamp)
      && (p.age.Some? ==> ts[2] == AgeTriple(uri, AgeInt(p.age.value)))
      && (forall t :: t in ts ==> StartsWith(t, Subject(uri)))
  {
    FieldTriplesAbout(uri, Fields(p));
  }

  /** An age of 0 is written: the test is `is not None`, not truthiness. */
  lemma AgeZeroWritten(uri: string, p: PersonInput, timestamp: string)
    requires p.age == Some(AgeNumber(0))
    ensures PersonTriples(uri, p, timestamp)[2] == Subject(uri) + " foaf:age 0"
  {
    assert IntToString(0) == "0";
  }

  /** Two field lists that differ only in values that are not truthy on either side
      give the same triples: an empty string is the same as a missing argument. */
  lemma {:induction false} FieldTriplesTruthy(uri: string, fs: seq<Field>, gs: seq<Field>)
    requires |fs| == |gs|
    requires forall i :: 0 <= i < |fs| ==>
               && fs[i].property == gs[i].property && fs[i].mailbox == gs[i].mailbox
               && Truthy(fs[i].value) == Truthy(gs[i].value)
               && (Truthy(fs[i].value) ==> fs[i].value == gs[i].value)
    ensures FieldTriples(uri, fs) == FieldTriples(uri, gs)
  {
    if fs != [] {
      FieldTriplesTruthy(uri, fs[1..], gs[1..]);
    }
  }

  lemma EmptyFieldsIgnored(uri: string, p: PersonInput, timestamp: string)
    requires AgeReadable(p)
    ensures var q := p.(gender := None, phone := None, email := None, address := None, city := None,
                        state := None, postalCode := None, country := None, jobTitle := None,
                        occupation := None, industry := None);
      var blank := p.(gender := Some(""), phone := Some(""), email := Some(""), address := Some(""),
                      city := Some(""), state := Some(""), postalCode := Some(""), country := Some(""),
                      jobTitle := Some(""), occupation := Some(""), industry := Some(""));
      PersonTriples(uri, blank, timestamp) == PersonTriples(uri, q, timestamp)
  {
    var q := p.(gender := None, phone := None, email := None, address := None, city := None,
                state := None, postalCode := None, country := None, jobTitle := None,
                occupation := None, industry := None);
    var blank := p.(gender := Some(""), phone := Some(""), email := Some(""), address := Some(""),
                    city := Some(""), state := Some(""), postalCode := Some(""), country := Some(""),
                    jobTitle := Some(""), occupation := Some(""), industry := Some(""));
    FieldTriplesTruthy(uri, Fields(blank), Fields(q));
  }

  /** The triple string opens with the type triple and closes with the creation
      triple and the final `" ."`. */
  lemma TripleStringEnds(uri: string, p: PersonInput, timestamp: string)
    requires AgeReadable(p)
    ensures var s := TripleString(PersonTriples(uri, p, timestamp));
      StartsWith(s, TypeTriple(uri)) && EndsWith(s, CreatedTriple(uri, timestamp) + " .")
  {
    var ts := PersonTriples(uri, p, timestamp);
    PersonTriplesShape(uri, p, timestamp);
    JoinFirst(ts, TripleSeparator);
    var j := Join(ts, TripleSeparator);
    assert j == Join(ts[..|ts| - 1], TripleSeparator) + TripleSeparator + ts[|ts| - 1];
    var s := j + " .";
    assert s[..|TypeTriple(uri)|] == j[..|TypeTriple(uri)|];
    assert s[|s| - |CreatedTriple(uri, timestamp) + " ."|..] == CreatedTriple(uri, timestamp) + " .";
  }

  lemma {:induction false} JoinFirst(parts: seq<string>, sep: string)
    requires parts != []
    ensures StartsWith(Join(parts, sep), parts[0])
  {
    if |parts| > 1 {
      var init := parts[..|parts| - 1];
      JoinFirst(init, sep);
      assert init[0] == parts[0];
      var j := Join(parts, sep);
      assert j == Join(init, sep) + sep + parts[|parts| - 1];
      assert j[..|parts[0]|] == Join(init, sep)[..|parts[0]|];
    }
  }

  // ---------------------------------------------------------------------------
  // `add_relationship_to_graph`
  // ---------------------------------------------------------------------------

  function RelationshipQuery(qs: Queries, subjectUri: string, relation: string, objectUri: string): string {
    qs.insertRelationship(subjectUri, Helpers.ResolvePredicate(relation), objectUri)
  }

  function RelationshipAdded(subject: string, relation: string, target: string): string {
    "Relationship '" + relation + "' added between " + subject + " and " + target
  }

  /** `add_relationship_to_graph`: validate the predicate before any lookup; resolve
      the subject, then the object, stopping at the first failure; write one triple
      with the resolved predicate. */
  method AddRelationshipToGraph(ep: Endpoint, qs: Queries, subject: string, relation: string, target: string)
    returns (reply: Reply, sent: seq<Request>)
    ensures var verdict := ValidateRelationship(relation);
      !verdict.ok ==> reply == Failed(verdict.error.value) && sent == []
    ensures var s := ResolveName(ep, qs, subject);
      ValidateRelationship(relation).ok && s.uri.Err? ==> reply == Failed(s.uri.error) && sent == s.sent
    ensures var s, o := ResolveName(ep, qs, subject), ResolveName(ep, qs, target);
      ValidateRelationship(relation).ok && s.uri.Ok? && o.uri.Err? ==>
        reply == Failed(o.uri.error) && sent == s.sent + o.sent
    ensures var s, o := ResolveName(ep, qs, subject), ResolveName(ep, qs, target);
      ValidateRelationship(relation).ok && s.uri.Ok? && o.uri.Ok? ==>
        var insert := RelationshipQuery(qs, s.uri.value, relation, o.uri.value);
        && sent == s.sent + o.sent + [UpdateRequest(insert)]
        && (ep.update(insert).Ok? ==> reply == Message(RelationshipAdded(subject, relation, target)))
        && (ep.update(insert).Err? ==> reply == Failed(ep.update(insert).error))
  {
    var verdict := ValidateRelationship(relation);
    if !verdict.ok {
      return Failed(verdict.error.value), [];
    }
    var pairs := [("subject", subject), ("object", target)];
    var subjectUri, objectUri := "", "";
    sent := [];
    for i := 0 to 2
      invariant i >= 1 ==> ResolveName(ep, qs, subject).uri == Ok(subjectUri)
      invariant i == 2 ==> ResolveName(ep, qs, target).uri == Ok(objectUri)
      invariant sent == if i == 0 then [] else if i == 1 then ResolveName(ep, qs, subject).sent
                        else ResolveName(ep, qs, subject).sent + ResolveName(ep, qs, target).sent
    {
      var (role, value) := pairs[i];
      var r := ResolveName(ep, qs, value);
      sent := sent + r.sent;
      if r.uri.Err? {
        return Failed(r.uri.error), sent;
      }
      if role == "subject" {
        subjectUri := r.uri.value;
      } else {
        objectUri := r.uri.value;
      }
    }
    var insert := RelationshipQuery(qs, subjectUri, relation, objectUri);
    sent := sent + [UpdateRequest(insert)];
    match ep.update(insert)
    case Err(e) =>
      return Failed(e), sent;
    case Ok(_) =>
      return Message(RelationshipAdded(subject, relation, target)), sent;
  }

  // ---------------------------------------------------------------------------
  // `get_ontology_schema`
  // ---------------------------------------------------------------------------

  /** Classes, then properties, from the ontology graph, each with its count; the
      first failure is reported. */
  function GetOntologySchema(ep: Endpoint, qs: Queries): (o: Outcome)
    ensures ep.select(qs.classes).Err? ==>
              o == Outcome(Failed(ep.select(qs.classes).error), [SelectRequest(qs.classes)])
    ensures ep.select(qs.classes).Ok? ==>
              o.sent == [SelectRequest(qs.classes), SelectRequest(qs.properties)]
    ensures o.reply.Schema? <==> ep.select(qs.classes).Ok? && ep.select(qs.properties).Ok?
    ensures o.reply.Schema? ==>
              && o.reply.classes == ep.select(qs.classes).value
              && o.reply.properties == ep.select(qs.properties).value
              && o.reply.classCount == |o.reply.classes| && o.reply.propertyCount == |o.reply.properties|
  {
    match ep.select(qs.classes)
    case Err(e) => Outcome(Failed(e), [SelectRequest(qs.classes)])
    case Ok(classes) =>
      var sent := [SelectRequest(qs.classes), SelectRequest(qs.properties)];
      match ep.select(qs.properties)
      case Err(e) => Outcome(Failed(e), sent)
      case Ok(properties) => Outcome(Schema(classes, properties, |classes|, |properties|), sent)
  }
}
