// The graph service's visualisation endpoints: the bindings of the persons and
// relationships queries become vis.js nodes and edges for the data graph, and the
// triples of the ontology graph become styled nodes and edges. The SPARQL results are
// inputs; a failed query, or a binding without a key the code reads with `[...]`, is
// the `error` reply.
module GraphViz {
  import opened Base
  import opened Strings
  import opened SparqlTypes
  import Helpers

  /** `str(KeyError(key))`. */
  function MissingKey(key: string): string {
    "'" + key + "'"
  }

  /** `row.get(key, {}).get("value", "")`. */
  function ValueOr(r: Row, key: string): string {
    if key in r then r[key].value else ""
  }

  // ---------------------------------------------------------------------------
  // The data graph (`get_data_graph`)
  // ---------------------------------------------------------------------------

  const MaleColor := "#6366f1"
  const FemaleColor := "#ec4899"
  const OtherColor := "#8b5cf6"

  /** A person node; its shape, size and font are the same for every node. */
  datatype PersonNode = PersonNode(id: string, caption: string, title: string, color: string)

  /** A relationship edge; its arrows, font and curve are the same for every edge. */
  datatype RelEdge = RelEdge(from: string, to: string, caption: string, color: string)

  datatype DataView =
    | DataView(nodes: seq<PersonNode>, edges: seq<RelEdge>, nodeCount: nat, edgeCount: nat)
    | DataError(error: string)

  /** Node colour by gender. */
  function GenderColor(gender: string): (c: string)
    ensures c == MaleColor <==> gender == "male"
    ensures c == FemaleColor <==> gender == "female"
    ensures c == OtherColor <==> gender != "male" && gender != "female"
  {
    if gender == "male" then MaleColor else if gender == "female" then FemaleColor else OtherColor
  }

  const AgeLine := "<br>Age: "
  const JobLine := "<br>Job: "
  const CityLine := "<br>City: "

  function TooltipHead(name: string, pid: string): string {
    "<b>" + name + "</b><br>ID: " + pid
  }

  /** A tooltip line, present only for a non-empty value. */
  function OptionalLine(line: string, value: string): string {
    if value == "" then "" else line + value
  }

  /** The tooltip: name and id, then the age, job and city lines that have a value. */
  function Tooltip(name: string, pid: string, age: string, job: string, city: string): string {
    TooltipHead(name, pid) + OptionalLine(AgeLine, age) + OptionalLine(JobLine, job) + OptionalLine(CityLine, city)
  }

  lemma TooltipLines(name: string, pid: string, age: string, job: string, city: string)
    ensures var t := Tooltip(name, pid, age, job, city);
      && StartsWith(t, TooltipHead(name, pid))
      && (age == "" && job == "" && city == "" ==> t == TooltipHead(name, pid))
      && (age != "" ==> Contains(t, AgeLine + age))
      && (job != "" ==> Contains(t, JobLine + job))
      && (city != "" ==> EndsWith(t, CityLine + city))
      && |t| == |TooltipHead(name, pid)| + |OptionalLine(AgeLine, age)| + |OptionalLine(JobLine, job)|
                + |OptionalLine(CityLine, city)|
  {
    var head := TooltipHead(name, pid);
    var a, j, c := OptionalLine(AgeLine, age), OptionalLine(JobLine, job), OptionalLine(CityLine, city);
    var t := head + a + j + c;
    assert t[..|head|] == head;
    ContainsMiddle(head, a, j + c);
    assert head + a + (j + c) == t;
    ContainsMiddle(head + a, j, c);
    assert t[|t| - |c|..] == c;
  }

  function PidOf(p: Row): string
    requires "person" in p
  {
    Helpers.UriToId(p["person"].value)
  }

  function PersonNodeOf(p: Row): PersonNode
    requires "person" in p && "name" in p
  {
    var pid := PidOf(p);
    PersonNode(pid, p["name"].value,
               Tooltip(p["name"].value, pid, ValueOr(p, "age"), ValueOr(p, "jobTitle"), ValueOr(p, "city")),
               GenderColor(ValueOr(p, "gender")))
  }

  function IdSet(nodes: seq<PersonNode>): set<string> {
    set n | n in nodes :: n.id
  }

  /** One person binding: its node, unless its id already has one. */
  function AddPerson(nodes: seq<PersonNode>, p: Row): Result<seq<PersonNode>, string> {
    if "person" !in p then Err(MissingKey("person"))
    else if PidOf(p) in IdSet(nodes) then Ok(nodes)
    else if "name" !in p then Err(MissingKey("name"))
    else Ok(nodes + [PersonNodeOf(p)])
  }

  /** The nodes the first loop builds from the person bindings, in order. */
  function PersonNodes(persons: seq<Row>): Result<seq<PersonNode>, string> {
    if persons == [] then Ok([])
    else match PersonNodes(persons[..|persons| - 1])
      case Err(e) => Err(e)
      case Ok(nodes) => AddPerson(nodes, persons[|persons| - 1])
  }

  const EdgeColors: map<string, string> := map[
    "friendOf" := "#22c55e", "spouseOf" := "#ef4444", "parentOf" := "#f59e0b",
    "childOf" := "#f97316", "siblingOf" := "#06b6d4", "colleagueOf" := "#8b5cf6",
    "neighborOf" := "#64748b", "knows" := "#94a3b8"]

  const DefaultEdgeColor := "#64748b"

  function EdgeColor(relType: string): string {
    if relType in EdgeColors then EdgeColors[relType] else DefaultEdgeColor
  }

  /** The colour table names exactly the relationships the service writes; any other
      relationship type is drawn in the default colour. */
  lemma EdgeColorsNameRelationships()
    ensures EdgeColors.Keys == Helpers.RelationshipMap.Keys
    ensures forall t :: t !in Helpers.RelationshipMap ==> EdgeColor(t) == DefaultEdgeColor
  {
    Helpers.MapCoversValidRelationships();
  }

  /** The text the loop deduplicates edges by. */
  function EdgeKey(from: string, relType: string, to: string): string {
    from + "-" + relType + "-" + to
  }

  function KeyOf(e: RelEdge): string {
    EdgeKey(e.from, e.caption, e.to)
  }

  function KeySet(edges: seq<RelEdge>): set<string> {
    set e | e in edges :: KeyOf(e)
  }

  predicate HasEdgeKeys(r: Row) {
    "from" in r && "to" in r && "relType" in r
  }

  function EdgeOf(r: Row): RelEdge
    requires HasEdgeKeys(r)
  {
    var relType := r["relType"].value;
    RelEdge(Helpers.UriToId(r["from"].value), Helpers.UriToId(r["to"].value), relType, EdgeColor(relType))
  }

  /** One relationship binding: its edge, when both ends are nodes and its key is new. */
  function AddRel(ids: set<string>, edges: seq<RelEdge>, r: Row): Result<seq<RelEdge>, string> {
    if "from" !in r then Err(MissingKey("from"))
    else if "to" !in r then Err(MissingKey("to"))
    else if "relType" !in r then Err(MissingKey("relType"))
    else
      var e := EdgeOf(r);
      if e.from !in ids || e.to !in ids then Ok(edges)
      else if KeyOf(e) in KeySet(edges) then Ok(edges)
      else Ok(edges + [e])
  }

  function RelEdges(ids: set<string>, rels: seq<Row>): Result<seq<RelEdge>, string> {
    if rels == [] then Ok([])
    else match RelEdges(ids, rels[..|rels| - 1])
      case Err(e) => Err(e)
      case Ok(edges) => AddRel(ids, edges, rels[|rels| - 1])
  }

  /** The reply: either query failing, or a binding missing a key, gives the error. */
  function DataGraphOf(persons: Result<seq<Row>, string>, rels: Result<seq<Row>, string>): (v: DataView)
    ensures v.DataView? ==> v.nodeCount == |v.nodes| && v.edgeCount == |v.edges|
    ensures v.DataView? <==>
              persons.Ok? && rels.Ok? && PersonNodes(persons.value).Ok?
              && RelEdges(IdSet(PersonNodes(persons.value).value), rels.value).Ok?
  {
    if persons.Err? then DataError(persons.error)
    else if rels.Err? then DataError(rels.error)
    else match PersonNodes(persons.value)
      case Err(e) => DataError(e)
      case Ok(nodes) =>
        match RelEdges(IdSet(nodes), rels.value)
        case Err(e) => DataError(e)
        case Ok(edges) => DataView(nodes, edges, |nodes|, |edges|)
  }

  lemma {:induction false} PersonNodesErr(persons: seq<Row>, k: nat)
    requires k <= |persons| && PersonNodes(persons[..k]).Err?
    ensures PersonNodes(persons) == PersonNodes(persons[..k])
    decreases |persons| - k
  {
    if k < |persons| {
      assert persons[..k + 1][..k] == persons[..k];
      PersonNodesErr(persons, k + 1);
    } else {
      assert persons[..k] == persons;
    }
  }

  lemma {:induction false} RelEdgesErr(ids: set<string>, rels: seq<Row>, k: nat)
    requires k <= |rels| && RelEdges(ids, rels[..k]).Err?
    ensures RelEdges(ids, rels) == RelEdges(ids, rels[..k])
    decreases |rels| - k
  {
    if k < |rels| {
      assert rels[..k + 1][..k] == rels[..k];
      RelEdgesErr(ids, rels, k + 1);
    } else {
      assert rels[..k] == rels;
    }
  }

  /** One `if value: title += line + value` step. */
  lemma AppendOptional(t: string, line: string, value: string, next: string)
    requires next == if value != "" then t + (line + value) else t
    ensures next == t + OptionalLine(line, value)
  {
    if value == "" {
      assert t + "" == t;
    }
  }

  lemma KeySetSnoc(edges: seq<RelEdge>, e: RelEdge)
    ensures KeySet(edges + [e]) == KeySet(edges) + {KeyOf(e)}
  {
    assert forall x :: x in edges + [e] <==> x in edges || x == e;
  }

  lemma PersonNodesNext(ps: seq<Row>, i: nat)
    requires i < |ps|
    ensures PersonNodes(ps[..i + 1]) ==
      if PersonNodes(ps[..i]).Err? then PersonNodes(ps[..i]) else AddPerson(PersonNodes(ps[..i]).value, ps[i])
  {
    assert ps[..i + 1][..i] == ps[..i];
  }

  lemma RelEdgesNext(ids: set<string>, rs: seq<Row>, i: nat)
    requires i < |rs|
    ensures RelEdges(ids, rs[..i + 1]) ==
      if RelEdges(ids, rs[..i]).Err? then RelEdges(ids, rs[..i]) else AddRel(ids, RelEdges(ids, rs[..i]).value, rs[i])
  {
    assert rs[..i + 1][..i] == rs[..i];
  }

  /** `get_data_graph` after its two queries: the node loop, then the edge loop. */
  method GetDataGraph(persons: Result<seq<Row>, string>, rels: Result<seq<Row>, string>) returns (v: DataView)
    ensures v == DataGraphOf(persons, rels)
  {
    if persons.Err? {
      return DataError(persons.error);
    }
    if rels.Err? {
      return DataError(rels.error);
    }
    var ps, rs := persons.value, rels.value;
    var nodes: seq<PersonNode> := [];
    var nodeIds: set<string> := {};
    for i := 0 to |ps|
      invariant PersonNodes(ps[..i]) == Ok(nodes)
      invariant nodeIds == IdSet(nodes)
    {
      var p := ps[i];
      PersonNodesNext(ps, i);
      if "person" !in p {
        PersonNodesErr(ps, i + 1);
        return DataError(MissingKey("person"));
      }
      var pid := Helpers.UriToId(p["person"].value);
      if pid !in nodeIds {
        nodeIds := nodeIds + {pid};
        if "name" !in p {
          PersonNodesErr(ps, i + 1);
          return DataError(MissingKey("name"));
        }
        var name := p["name"].value;
        var age, gender := ValueOr(p, "age"), ValueOr(p, "gender");
        var job, city := ValueOr(p, "jobTitle"), ValueOr(p, "city");
        var color := GenderColor(gender);
        var title := TooltipHead(name, pid);
        ghost var before := title;
        if age != "" {
          title := title + (AgeLine + age);
        }
        AppendOptional(before, AgeLine, age, title);
        before := title;
        if job != "" {
          title := title + (JobLine + job);
        }
        AppendOptional(before, JobLine, job, title);
        before := title;
        if city != "" {
          title := title + (CityLine + city);
        }
        AppendOptional(before, CityLine, city, title);
        IdSetSnoc(nodes, PersonNode(pid, name, title, color));
        nodes := nodes + [PersonNode(pid, name, title, color)];
      }
    }
    assert ps[..|ps|] == ps;
    var edges: seq<RelEdge> := [];
    var seenEdges: set<string> := {};
    for i := 0 to |rs|
      invariant RelEdges(nodeIds, rs[..i]) == Ok(edges)
      invariant seenEdges == KeySet(edges)
    {
      var r := rs[i];
      RelEdgesNext(nodeIds, rs, i);
      if "from" !in r || "to" !in r || "relType" !in r {
        RelEdgesErr(nodeIds, rs, i + 1);
        return DataError(if "from" !in r then MissingKey("from")
                         else if "to" !in r then MissingKey("to") else MissingKey("relType"));
      }
      var fromId := Helpers.UriToId(r["from"].value);
      var toId := Helpers.UriToId(r["to"].value);
      var relType := r["relType"].value;
      if fromId in nodeIds && toId in nodeIds {
        var key := EdgeKey(fromId, relType, toId);
        if key !in seenEdges {
          var e := RelEdge(fromId, toId, relType, EdgeColor(relType));
          KeySetSnoc(edges, e);
          seenEdges := seenEdges + {key};
          edges := edges + [e];
        }
      }
    }
    assert rs[..|rs|] == rs;
    return DataView(nodes, edges, |nodes|, |edges|);
  }

  // Properties of the data graph.

  /** The binding that made a node: the first one with its id. */
  predicate FirstBinding(persons: seq<Row>, n: PersonNode) {
    exists i :: 0 <= i < |persons| && FirstAt(persons, i, n)
  }

  predicate FirstAt(persons: seq<Row>, i: int, n: PersonNode)
    requires 0 <= i < |persons|
  {
    && "person" in persons[i] && "name" in persons[i] && n == PersonNodeOf(persons[i])
    && forall j :: 0 <= j < i ==> "person" in persons[j] && PidOf(persons[j]) != n.id
  }

  lemma FirstBindingExtend(persons: seq<Row>, n: PersonNode)
    requires persons != [] && FirstBinding(persons[..|persons| - 1], n)
    ensures FirstBinding(persons, n)
  {
    var init := persons[..|persons| - 1];
    var i :| 0 <= i < |init| && FirstAt(init, i, n);
    assert forall j :: 0 <= j <= i ==> persons[j] == init[j];
    assert FirstAt(persons, i, n);
  }

  lemma IdSetSnoc(nodes: seq<PersonNode>, n: PersonNode)
    ensures IdSet(nodes + [n]) == IdSet(nodes) + {n.id}
  {
    assert forall m :: m in nodes + [n] <==> m in nodes || m == n;
  }

  /** Node ids are distinct. */
  lemma {:induction false} PersonNodesDistinct(persons: seq<Row>)
    requires PersonNodes(persons).Ok?
    ensures var nodes := PersonNodes(persons).value;
      forall i, j :: 0 <= i < j < |nodes| ==> nodes[i].id != nodes[j].id
  {
    if persons != [] {
      var m := |persons| - 1;
      var init := persons[..m];
      PersonNodesDistinct(init);
      var prev := PersonNodes(init).value;
      var p := persons[m];
      if PidOf(p) !in IdSet(prev) {
        DistinctSnoc(prev, PersonNodeOf(p));
      }
    }
  }

  lemma DistinctSnoc(nodes: seq<PersonNode>, n: PersonNode)
    requires forall i, j :: 0 <= i < j < |nodes| ==> nodes[i].id != nodes[j].id
    requires n.id !in IdSet(nodes)
    ensures var s := nodes + [n]; forall i, j :: 0 <= i < j < |s| ==> s[i].id != s[j].id
  {
    assert forall i :: 0 <= i < |nodes| ==> nodes[i] in nodes;
  }

  /** Every binding has an id, and the id is in `ids`. */
  predicate Covers(persons: seq<Row>, ids: set<string>) {
    forall i :: 0 <= i < |persons| ==> "person" in persons[i] && PidOf(persons[i]) in ids
  }

  lemma CoversSnoc(persons: seq<Row>, ids: set<string>, more: set<string>)
    requires persons != [] && Covers(persons[..|persons| - 1], ids) && ids <= more
    requires "person" in persons[|persons| - 1] && PidOf(persons[|persons| - 1]) in more
    ensures Covers(persons, more)
  {
    var init := persons[..|persons| - 1];
    assert forall i :: 0 <= i < |init| ==> persons[i] == init[i];
  }

  /** Every binding's id has a node. */
  lemma {:induction false} PersonNodesCover(persons: seq<Row>)
    requires PersonNodes(persons).Ok?
    ensures Covers(persons, IdSet(PersonNodes(persons).value))
  {
    if persons != [] {
      var m := |persons| - 1;
      var init := persons[..m];
      PersonNodesCover(init);
      var prev := PersonNodes(init).value;
      AddPersonHas(prev, persons[m]);
      CoversSnoc(persons, IdSet(prev), IdSet(PersonNodes(persons).value));
    }
  }

  lemma AddPersonHas(nodes: seq<PersonNode>, p: Row)
    requires AddPerson(nodes, p).Ok?
    ensures "person" in p && PidOf(p) in IdSet(AddPerson(nodes, p).value)
    ensures IdSet(nodes) <= IdSet(AddPerson(nodes, p).value)
  {
    if PidOf(p) !in IdSet(nodes) {
      IdSetSnoc(nodes, PersonNodeOf(p));
    }
  }

  /** Every node is made from the first binding with its id. */
  lemma {:induction false} PersonNodesFirst(persons: seq<Row>)
    requires PersonNodes(persons).Ok?
    ensures var nodes := PersonNodes(persons).value;
      forall k :: 0 <= k < |nodes| ==> FirstBinding(persons, nodes[k])
  {
    if persons != [] {
      var m := |persons| - 1;
      var init := persons[..m];
      PersonNodesFirst(init);
      PersonNodesCover(init);
      var prev := PersonNodes(init).value;
      var p := persons[m];
      forall k | 0 <= k < |prev|
        ensures FirstBinding(persons, prev[k])
      {
        FirstBindingExtend(persons, prev[k]);
      }
      if PidOf(p) !in IdSet(prev) {
        FirstAtLast(persons, IdSet(prev));
      }
    }
  }

  /** A binding whose id is new is the first with that id. */
  lemma FirstAtLast(persons: seq<Row>, ids: set<string>)
    requires persons != [] && Covers(persons[..|persons| - 1], ids)
    requires "person" in persons[|persons| - 1] && "name" in persons[|persons| - 1]
    requires PidOf(persons[|persons| - 1]) !in ids
    ensures FirstAt(persons, |persons| - 1, PersonNodeOf(persons[|persons| - 1]))
  {
    var init := persons[..|persons| - 1];
    assert forall j :: 0 <= j < |init| ==> persons[j] == init[j];
  }

  /** What one relationship binding does to the edges. */
  lemma AddRelStep(ids: set<string>, edges: seq<RelEdge>, r: Row)
    requires AddRel(ids, edges, r).Ok?
    ensures HasEdgeKeys(r)
    ensures var next := AddRel(ids, edges, r).value;
      && KeySet(edges) <= KeySet(next)
      && (EdgeOf(r).from in ids && EdgeOf(r).to in ids ==> KeyOf(EdgeOf(r)) in KeySet(next))
      && (next == edges || (next == edges + [EdgeOf(r)] && EdgeOf(r).from in ids && EdgeOf(r).to in ids
                            && KeyOf(EdgeOf(r)) !in KeySet(edges)))
  {
    var e := EdgeOf(r);
    if e.from in ids && e.to in ids && KeyOf(e) !in KeySet(edges) {
      assert forall x :: x in edges + [e] <==> x in edges || x == e;
    }
  }

  /** The edges of the bindings that have the three keys, in order, duplicates kept. */
  function BindingEdges(rels: seq<Row>): seq<RelEdge> {
    if rels == [] then []
    else
      var r := rels[|rels| - 1];
      BindingEdges(rels[..|rels| - 1]) + (if HasEdgeKeys(r) then [EdgeOf(r)] else [])
  }

  /** Every edge is one of `all`. */
  predicate AllIn(edges: seq<RelEdge>, all: seq<RelEdge>) {
    forall k :: 0 <= k < |edges| ==> edges[k] in all
  }

  /** Every binding has the three keys, and the key of each one between two of `ids` is in `keys`. */
  predicate KeysCover(rels: seq<Row>, ids: set<string>, keys: set<string>) {
    forall i :: 0 <= i < |rels| ==>
      HasEdgeKeys(rels[i])
      && (EdgeOf(rels[i]).from in ids && EdgeOf(rels[i]).to in ids ==> KeyOf(EdgeOf(rels[i])) in keys)
  }

  predicate DistinctKeys(edges: seq<RelEdge>) {
    forall i, j :: 0 <= i < j < |edges| ==> KeyOf(edges[i]) != KeyOf(edges[j])
  }

  lemma AllInSnoc(edges: seq<RelEdge>, all: seq<RelEdge>, e: RelEdge, next: seq<RelEdge>)
    requires AllIn(edges, all)
    requires next == edges || next == edges + [e]
    ensures AllIn(next, all + [e])
  {
    forall k | 0 <= k < |next|
      ensures next[k] in all + [e]
    {
      if k < |edges| {
        assert next[k] == edges[k];
        assert edges[k] in all;
      } else {
        assert next[k] == e;
      }
    }
  }

  lemma KeysCoverSnoc(rels: seq<Row>, ids: set<string>, keys: set<string>, more: set<string>)
    requires rels != [] && KeysCover(rels[..|rels| - 1], ids, keys) && keys <= more
    requires HasEdgeKeys(rels[|rels| - 1])
    requires var e := EdgeOf(rels[|rels| - 1]); e.from in ids && e.to in ids ==> KeyOf(e) in more
    ensures KeysCover(rels, ids, more)
  {
    var init := rels[..|rels| - 1];
    assert forall i :: 0 <= i < |init| ==> rels[i] == init[i];
  }

  lemma DistinctKeysSnoc(edges: seq<RelEdge>, e: RelEdge)
    requires DistinctKeys(edges) && KeyOf(e) !in KeySet(edges)
    ensures DistinctKeys(edges + [e])
  {
    assert forall i :: 0 <= i < |edges| ==> edges[i] in edges;
  }

  /** Every edge joins two of `ids`, no two edges share a key, every edge comes from a
      binding, and every binding between two of `ids` has its key among the edges. */
  lemma {:induction false} RelEdgesSound(ids: set<string>, rels: seq<Row>)
    requires RelEdges(ids, rels).Ok?
    ensures var edges := RelEdges(ids, rels).value;
      && (forall e :: e in edges ==> e.from in ids && e.to in ids)
      && DistinctKeys(edges)
      && AllIn(edges, BindingEdges(rels))
      && KeysCover(rels, ids, KeySet(edges))
  {
    if rels != [] {
      var init := rels[..|rels| - 1];
      RelEdgesSound(ids, init);
      var prev := RelEdges(ids, init).value;
      var r := rels[|rels| - 1];
      AddRelStep(ids, prev, r);
      var edges := AddRel(ids, prev, r).value;
      AllInSnoc(prev, BindingEdges(init), EdgeOf(r), edges);
      KeysCoverSnoc(rels, ids, KeySet(prev), KeySet(edges));
      if edges != prev {
        DistinctKeysSnoc(prev, EdgeOf(r));
      }
    }
  }

  /** The data view's edges join its own nodes. */
  lemma DataEdgesJoinNodes(persons: Result<seq<Row>, string>, rels: Result<seq<Row>, string>)
    requires DataGraphOf(persons, rels).DataView?
    ensures var v := DataGraphOf(persons, rels);
      forall e :: e in v.edges ==> e.from in IdSet(v.nodes) && e.to in IdSet(v.nodes)
  {
    var nodes := PersonNodes(persons.value).value;
    RelEdgesSound(IdSet(nodes), rels.value);
  }

  // ---------------------------------------------------------------------------
  // The ontology graph (`get_ontology_graph`)
  // ---------------------------------------------------------------------------

  const ClassColor := "#6366f1"
  const ObjectPropertyColor := "#22c55e"
  const DatatypePropertyColor := "#f59e0b"
  const LiteralColor := "#64748b"
  const ResourceColor := "#8b5cf6"

  datatype Shape = Dot | Diamond | Triangle | TriangleDown | Box

  /** An ontology node. `types` is a set in the source too; the order in which it is
      listed in the reply is not modelled. */
  datatype OntologyNode = OntologyNode(
    id: string, caption: string, title: string, uri: Option<string>,
    color: string, shape: Shape, size: nat, types: set<string>)

  /** An edge to a resource (solid) or to a literal's node (dashed). */
  datatype OntologyEdge = OntologyEdge(from: string, to: string, caption: string, dashed: bool)

  datatype OntologyView =
    | OntologyView(nodes: seq<OntologyNode>, edges: seq<OntologyEdge>, nodeCount: nat, edgeCount: nat)
    | OntologyError(error: string)

  /** The dict being built: nodes by id, the ids in insertion order, and the edges. */
  datatype Build = Build(nodes: map<string, OntologyNode>, order: seq<string>, edges: seq<OntologyEdge>)

  const TypePredicate := "type"
  const LabelPredicate := "label"
  const CommentPredicate := "comment"
  const UriKind := "uri"
  const LiteralKind := "literal"

  /** `uri.split("/")[-1].split("#")[-1]`. */
  function ShortName(uri: string): (r: string)
    ensures '/' !in r && '#' !in r
  {
    LastSegment(LastSegment(uri, '/'), '#')
  }

  /** The node id of a URI: `"http://"` removed, then `/`, `#` and `.` made `_`. */
  function NodeId(uri: string): string {
    ReplaceAll(ReplaceAll(ReplaceAll(ReplaceAll(uri, "http://", ""), "/", "_"), "#", "_"), ".", "_")
  }

  lemma NodeIdClean(uri: string)
    ensures '/' !in NodeId(uri) && '#' !in NodeId(uri) && '.' !in NodeId(uri)
  {
    var a := ReplaceAll(uri, "http://", "");
    var b := ReplaceAll(a, "/", "_");
    var c := ReplaceAll(b, "#", "_");
    ReplaceAllRemoves(a, '/', "_");
    ReplaceAllRemoves(b, '#', "_");
    ReplaceAllKeepsOut(b, "#", "_", '/');
    ReplaceAllRemoves(c, '.', "_");
    ReplaceAllKeepsOut(c, ".", "_", '/');
    ReplaceAllKeepsOut(c, ".", "_", '#');
  }

  /** A label binding when it is non-empty, else the URI's short name. */
  function LabelOf(t: Row, key: string, uri: string): string {
    if ValueOr(t, key) != "" then ValueOr(t, key) else ShortName(uri)
  }

  /** A literal's node label: at most 20 characters. */
  function ShortValue(v: string): (r: string)
    ensures |r| <= 20
    ensures |v| <= 20 ==> r == v
    ensures |v| > 20 ==> |r| == 20 && StartsWith(r, v[..17]) && EndsWith(r, "...")
  {
    if |v| <= 20 then v else v[..17] + "..."
  }

  function ResourceNode(id: string, caption: string, uri: string, size: nat): OntologyNode {
    OntologyNode(id, caption, "<b>" + caption + "</b><br>URI: " + uri, Some(uri), ResourceColor, Dot, size, {})
  }

  function LiteralNode(id: string, property: string, value: string): OntologyNode {
    OntologyNode(id, ShortValue(value), "<b>" + property + "</b>: " + value, None, LiteralColor, Box, 10, {})
  }

  /** The style a type gives its subject: `Class` is looked for first, then
      `ObjectProperty`, then `DatatypeProperty`; any other type leaves the style. */
  function TypeStyle(typeName: string): Option<(string, Shape, nat)> {
    if Contains(typeName, "Class") then Some((ClassColor, Diamond, 28))
    else if Contains(typeName, "ObjectProperty") then Some((ObjectPropertyColor, Triangle, 20))
    else if Contains(typeName, "DatatypeProperty") then Some((DatatypePropertyColor, TriangleDown, 20))
    else None
  }

  /** `nodes[id] = ...` unless the id is taken. */
  function AddNode(b: Build, n: OntologyNode): Build {
    if n.id in b.nodes then b else Build(b.nodes[n.id := n], b.order + [n.id], b.edges)
  }

  /** A type triple: the type is recorded and may restyle the subject. */
  function Retype(node: OntologyNode, typeName: string): OntologyNode {
    var typed := node.(types := node.types + {typeName});
    match TypeStyle(typeName)
    case None => typed
    case Some((color, shape, size)) => typed.(color := color, shape := shape, size := size)
  }

  function RetypeNode(b: Build, id: string, typeName: string): Build
    requires id in b.nodes
  {
    b.(nodes := b.nodes[id := Retype(b.nodes[id], typeName)])
  }

  function AddEdge(b: Build, e: OntologyEdge): Build {
    b.(edges := b.edges + [e])
  }

  /** One pass of the loop over the ontology triples. */
  function AddTriple(b: Build, t: Row): Result<Build, string> {
    if "s" !in t then Err(MissingKey("s"))
    else if "p" !in t then Err(MissingKey("p"))
    else if "o" !in t then Err(MissingKey("o"))
    else
      var sUri, pUri, o := t["s"].value, t["p"].value, t["o"];
      var sId, pShort := NodeId(sUri), ShortName(pUri);
      var b1 := AddNode(b, ResourceNode(sId, LabelOf(t, "sLabel", sUri), sUri, 16));
      var b2 := if pShort == TypePredicate then RetypeNode(b1, sId, ShortName(o.value)) else b1;
      if o.kind == UriKind then
        var oId := NodeId(o.value);
        var b3 := AddNode(b2, ResourceNode(oId, LabelOf(t, "oLabel", o.value), o.value, 14));
        if pShort != TypePredicate then Ok(AddEdge(b3, OntologyEdge(sId, oId, pShort, false)))
        else Ok(b3)
      else if o.kind == LiteralKind && pShort != LabelPredicate && pShort != CommentPredicate then
        var lId := sId + "_" + pShort;
        if lId in b2.nodes then Ok(b2)
        else
          var b3 := AddNode(b2, LiteralNode(lId, pShort, o.value));
          Ok(AddEdge(b3, OntologyEdge(sId, lId, pShort, true)))
      else Ok(b2)
  }

  function OntologyBuild(triples: seq<Row>): Result<Build, string> {
    if triples == [] then Ok(Build(map[], [], []))
    else match OntologyBuild(triples[..|triples| - 1])
      case Err(e) => Err(e)
      case Ok(b) => AddTriple(b, triples[|triples| - 1])
  }

  /** What a well-built dict satisfies: each id entered once, in order; nodes filed
      under their own id; edges between nodes; no solid edge for a type; one dashed
      edge per literal node. */
  ghost predicate Consistent(b: Build) {
    && (forall i, j :: 0 <= i < j < |b.order| ==> b.order[i] != b.order[j])
    && (forall id :: id in b.nodes <==> id in b.order)
    && (forall id :: id in b.nodes ==> b.nodes[id].id == id)
    && (forall e :: e in b.edges ==> e.from in b.nodes && e.to in b.nodes)
    && (forall e :: e in b.edges && !e.dashed ==> e.caption != TypePredicate)
    && (forall i, j :: 0 <= i < j < |b.edges| && b.edges[i].dashed && b.edges[j].dashed ==>
          b.edges[i].to != b.edges[j].to)
  }

  lemma AddNodeConsistent(b: Build, n: OntologyNode)
    requires Consistent(b)
    ensures Consistent(AddNode(b, n)) && n.id in AddNode(b, n).nodes
    ensures AddNode(b, n).edges == b.edges && b.nodes.Keys <= AddNode(b, n).nodes.Keys
  {
  }

  lemma RetypeConsistent(b: Build, id: string, typeName: string)
    requires Consistent(b) && id in b.nodes
    ensures Consistent(RetypeNode(b, id, typeName))
    ensures RetypeNode(b, id, typeName).nodes.Keys == b.nodes.Keys
  {
  }

  lemma AddEdgeConsistent(b: Build, e: OntologyEdge)
    requires Consistent(b) && e.from in b.nodes && e.to in b.nodes
    requires !e.dashed ==> e.caption != TypePredicate
    requires e.dashed ==> forall f :: f in b.edges && f.dashed ==> f.to != e.to
    ensures Consistent(AddEdge(b, e))
  {
    var edges := b.edges + [e];
    assert forall f :: f in edges <==> f in b.edges || f == e;
    assert forall i :: 0 <= i < |b.edges| ==> edges[i] == b.edges[i] && b.edges[i] in b.edges;
  }

  lemma AddTripleConsistent(b: Build, t: Row)
    requires Consistent(b) && AddTriple(b, t).Ok?
    ensures Consistent(AddTriple(b, t).value)
  {
    var sUri, pUri, o := t["s"].value, t["p"].value, t["o"];
    var sId, pShort := NodeId(sUri), ShortName(pUri);
    var b1 := AddNode(b, ResourceNode(sId, LabelOf(t, "sLabel", sUri), sUri, 16));
    AddNodeConsistent(b, ResourceNode(sId, LabelOf(t, "sLabel", sUri), sUri, 16));
    var b2 := if pShort == TypePredicate then RetypeNode(b1, sId, ShortName(o.value)) else b1;
    if pShort == TypePredicate {
      RetypeConsistent(b1, sId, ShortName(o.value));
    }
    if o.kind == UriKind {
      var oId := NodeId(o.value);
      var b3 := AddNode(b2, ResourceNode(oId, LabelOf(t, "oLabel", o.value), o.value, 14));
      AddNodeConsistent(b2, ResourceNode(oId, LabelOf(t, "oLabel", o.value), o.value, 14));
      if pShort != TypePredicate {
        AddEdgeConsistent(b3, OntologyEdge(sId, oId, pShort, false));
      }
    } else if o.kind == LiteralKind && pShort != LabelPredicate && pShort != CommentPredicate {
      var lId := sId + "_" + pShort;
      if lId !in b2.nodes {
        var b3 := AddNode(b2, LiteralNode(lId, pShort, o.value));
        AddNodeConsistent(b2, LiteralNode(lId, pShort, o.value));
        AddEdgeConsistent(b3, OntologyEdge(sId, lId, pShort, true));
      }
    }
  }

  lemma {:induction false} OntologyConsistent(triples: seq<Row>)
    requires OntologyBuild(triples).Ok?
    ensures Consistent(OntologyBuild(triples).value)
  {
    if triples != [] {
      OntologyConsistent(triples[..|triples| - 1]);
      AddTripleConsistent(OntologyBuild(triples[..|triples| - 1]).value, triples[|triples| - 1]);
    }
  }

  lemma OntologyBuildNext(ts: seq<Row>, i: nat)
    requires i < |ts|
    ensures OntologyBuild(ts[..i + 1]) ==
      if OntologyBuild(ts[..i]).Err? then OntologyBuild(ts[..i]) else AddTriple(OntologyBuild(ts[..i]).value, ts[i])
  {
    assert ts[..i + 1][..i] == ts[..i];
  }

  lemma {:induction false} OntologyBuildErr(triples: seq<Row>, k: nat)
    requires k <= |triples| && OntologyBuild(triples[..k]).Err?
    ensures OntologyBuild(triples) == OntologyBuild(triples[..k])
    decreases |triples| - k
  {
    if k < |triples| {
      assert triples[..k + 1][..k] == triples[..k];
      OntologyBuildErr(triples, k + 1);
    } else {
      assert triples[..k] == triples;
    }
  }

  /** The nodes in the order they were entered. */
  function NodeList(b: Build): seq<OntologyNode>
    requires forall id :: id in b.order ==> id in b.nodes
  {
    seq(|b.order|, i requires 0 <= i < |b.order| => b.nodes[b.order[i]])
  }

  function OntologyGraphOf(triples: Result<seq<Row>, string>): (v: OntologyView)
    ensures v.OntologyView? ==> v.nodeCount == |v.nodes| && v.edgeCount == |v.edges|
    ensures v.OntologyView? <==> triples.Ok? && OntologyBuild(triples.value).Ok?
  {
    if triples.Err? then OntologyError(triples.error)
    else match OntologyBuild(triples.value)
      case Err(e) => OntologyError(e)
      case Ok(b) =>
        OntologyConsistent(triples.value);
        var nodes := NodeList(b);
        OntologyView(nodes, b.edges, |nodes|, |b.edges|)
  }

  /** Node ids in the ontology view are distinct, edges join listed nodes, and no
      solid edge comes from a type triple. */
  lemma OntologyViewShape(triples: Result<seq<Row>, string>)
    requires OntologyGraphOf(triples).OntologyView?
    ensures var v := OntologyGraphOf(triples);
      && (forall i, j :: 0 <= i < j < |v.nodes| ==> v.nodes[i].id != v.nodes[j].id)
      && (forall e :: e in v.edges ==>
            exists i, j :: 0 <= i < |v.nodes| && 0 <= j < |v.nodes| && v.nodes[i].id == e.from && v.nodes[j].id == e.to)
      && (forall e :: e in v.edges && !e.dashed ==> e.caption != TypePredicate)
  {
    var b := OntologyBuild(triples.value).value;
    OntologyConsistent(triples.value);
    var v := OntologyGraphOf(triples);
    forall e | e in v.edges
      ensures exists i, j :: 0 <= i < |v.nodes| && 0 <= j < |v.nodes| &&
                v.nodes[i].id == e.from && v.nodes[j].id == e.to
    {
      var i :| 0 <= i < |b.order| && b.order[i] == e.from;
      var j :| 0 <= j < |b.order| && b.order[j] == e.to;
      assert v.nodes[i].id == e.from && v.nodes[j].id == e.to;
    }
  }

  /** A type triple with a resource object adds no edge. */
  lemma TypeTripleNoEdge(b: Build, t: Row)
    requires AddTriple(b, t).Ok? && "p" in t && "o" in t
    requires ShortName(t["p"].value) == TypePredicate && t["o"].kind == UriKind
    ensures AddTriple(b, t).value.edges == b.edges
  {
  }

  /** `Class` wins over the property types, and `ObjectProperty` over `DatatypeProperty`. */
  lemma TypeStylePrecedence(typeName: string)
    ensures Contains(typeName, "Class") ==> TypeStyle(typeName) == Some((ClassColor, Diamond, 28))
    ensures !Contains(typeName, "Class") && Contains(typeName, "ObjectProperty") ==>
              TypeStyle(typeName) == Some((ObjectPropertyColor, Triangle, 20))
    ensures TypeStyle(typeName).None? <==>
              !Contains(typeName, "Class") && !Contains(typeName, "ObjectProperty")
              && !Contains(typeName, "DatatypeProperty")
  {
  }

  /** `get_ontology_graph` after its query: the loop over the triples, then the node list. */
  method GetOntologyGraph(triples: Result<seq<Row>, string>) returns (v: OntologyView)
    ensures v == OntologyGraphOf(triples)
  {
    if triples.Err? {
      return OntologyError(triples.error);
    }
    var built := BuildOntology(triples.value);
    match built {
      case Err(e) =>
        return OntologyError(e);
      case Ok(b) =>
        OntologyConsistent(triples.value);
        var nodeList := ListNodes(b.nodes, b.order);
        assert nodeList == NodeList(b);
        return OntologyView(nodeList, b.edges, |nodeList|, |b.edges|);
    }
  }

  /** The loop over the triples, filling the node dict and the edge list in place. */
  method BuildOntology(ts: seq<Row>) returns (r: Result<Build, string>)
    ensures r == OntologyBuild(ts)
  {
    var nodes: map<string, OntologyNode> := map[];
    var order: seq<string> := [];
    var edges: seq<OntologyEdge> := [];
    for i := 0 to |ts|
      invariant OntologyBuild(ts[..i]) == Ok(Build(nodes, order, edges))
    {
      var t := ts[i];
      OntologyBuildNext(ts, i);
      if "s" !in t || "p" !in t || "o" !in t {
        OntologyBuildErr(ts, i + 1);
        return Err(if "s" !in t then MissingKey("s") else if "p" !in t then MissingKey("p") else MissingKey("o"));
      }
      var sUri, pUri, oVal, oType := t["s"].value, t["p"].value, t["o"].value, t["o"].kind;
      var sLabel := LabelOf(t, "sLabel", sUri);
      var sId := NodeId(sUri);
      var pShort := ShortName(pUri);
      ghost var b0 := Build(nodes, order, edges);
      if sId !in nodes {
        nodes := nodes[sId := ResourceNode(sId, sLabel, sUri, 16)];
        order := order + [sId];
      }
      assert Build(nodes, order, edges) == AddNode(b0, ResourceNode(sId, sLabel, sUri, 16));
      ghost var b1 := Build(nodes, order, edges);
      if pShort == TypePredicate {
        nodes := nodes[sId := Retype(nodes[sId], ShortName(oVal))];
        assert Build(nodes, order, edges) == RetypeNode(b1, sId, ShortName(oVal));
      }
      ghost var b2 := Build(nodes, order, edges);
      if oType == UriKind {
        var oId := NodeId(oVal);
        var node := ResourceNode(oId, LabelOf(t, "oLabel", oVal), oVal, 14);
        if oId !in nodes {
          nodes := nodes[oId := node];
          order := order + [oId];
        }
        assert Build(nodes, order, edges) == AddNode(b2, node);
        if pShort != TypePredicate {
          edges := edges + [OntologyEdge(sId, oId, pShort, false)];
        }
      } else if oType == LiteralKind && pShort != LabelPredicate && pShort != CommentPredicate {
        var lId := sId + "_" + pShort;
        if lId !in nodes {
          nodes := nodes[lId := LiteralNode(lId, pShort, oVal)];
          order := order + [lId];
          edges := edges + [OntologyEdge(sId, lId, pShort, true)];
        }
      }
    }
    assert ts[..|ts|] == ts;
    return Ok(Build(nodes, order, edges));
  }

  /** The loop over `nodes.values()`, in insertion order. */
  method ListNodes(nodes: map<string, OntologyNode>, order: seq<string>) returns (list: seq<OntologyNode>)
    requires forall id :: id in order ==> id in nodes
    ensures |list| == |order| && forall i :: 0 <= i < |order| ==> list[i] == nodes[order[i]]
  {
    list := [];
    for j := 0 to |order|
      invariant |list| == j && forall i :: 0 <= i < j ==> list[i] == nodes[order[i]]
    {
      list := list + [nodes[order[j]]];
    }
  }
}
