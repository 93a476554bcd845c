// What the graph service's SPARQL client hands back, and the endpoint it talks to. The
// Fuseki server is an oracle: each request text maps to an outcome, an error being the
// text of the exception the client raised.
module SparqlTypes {
  import opened Base

  /** One bound value of a result row: its RDF term type (`"uri"`, `"literal"`,
      `"bnode"`) and its lexical value. */
  datatype Term = Term(kind: string, value: string)

  /** One binding of a SELECT result: variable name to term. */
  type Row = map<string, Term>

  datatype Endpoint = Endpoint(
    select: string -> Result<seq<Row>, string>,
    ask: string -> Result<bool, string>,
    update: string -> Result<(), string>)

  /** A request sent to the server, in the order it was sent. */
  datatype Request = SelectRequest(query: string) | AskRequest(query: string) | UpdateRequest(query: string)
}
