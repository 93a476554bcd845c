// The URI and predicate helpers of both services: person ids are the last path segment
// of their URI, and relationship names resolve to predicate URIs (graph service) or to
// prefixed names and readable labels (vector service).
module Helpers {
  import opened Strings
  import Validator
  import PrefixStrip

  const DefaultNamespace := "http://example.org/foaf-poc/"

  /** `uri.split("/")[-1]`: the text after the last `/`, or all of it. */
  function UriToId(uri: string): (id: string)
    ensures '/' !in id
    ensures EndsWith(uri, id)
    ensures |id| < |uri| ==> uri[|uri| - |id| - 1] == '/'
  {
    LastSegment(uri, '/')
  }

  /** Text without a `/` is its own id. */
  lemma UriToIdWhole(uri: string)
    requires '/' !in uri
    ensures UriToId(uri) == uri
  {
    LastSegmentWhole(uri, '/');
  }

  /** `uri_to_id` keeps exactly what follows the last `/`. */
  lemma UriToIdAfterSlash(prefix: string, id: string)
    requires '/' !in id
    ensures UriToId(prefix + "/" + id) == id
  {
    LastSegmentAfter(prefix, '/', id);
  }

  /** `id_to_uri`: text starting with `"http"` is taken to be a URI already. */
  function IdToUri(personId: string, namespace: string): (uri: string)
    ensures StartsWith(personId, "http") ==> uri == personId
    ensures !StartsWith(personId, "http") ==> uri == namespace + personId
  {
    if StartsWith(personId, "http") then personId else namespace + personId
  }

  /** An id without `/` that does not look like a URI survives the trip to a URI in the
      default namespace and back. */
  lemma IdRoundTrip(personId: string)
    requires '/' !in personId && !StartsWith(personId, "http")
    ensures UriToId(IdToUri(personId, DefaultNamespace)) == personId
  {
    var prefix := "http://example.org/foaf-poc";
    assert DefaultNamespace + personId == prefix + "/" + personId;
    UriToIdAfterSlash(prefix, personId);
  }

  /** A person URI in the default namespace is rebuilt from its id. */
  lemma UriRoundTrip(personId: string)
    requires '/' !in personId && !StartsWith(personId, "http")
    ensures IdToUri(UriToId(DefaultNamespace + personId), DefaultNamespace) == DefaultNamespace + personId
  {
    IdRoundTrip(personId);
  }

  /** The graph service's `RELATIONSHIP_MAP`. */
  const RelationshipMap: map<string, string> := map[
    "friendOf" := "http://purl.org/vocab/relationship/friendOf",
    "spouseOf" := "http://purl.org/vocab/relationship/spouseOf",
    "parentOf" := "http://purl.org/vocab/relationship/parentOf",
    "childOf" := "http://purl.org/vocab/relationship/childOf",
    "siblingOf" := "http://purl.org/vocab/relationship/siblingOf",
    "colleagueOf" := "http://example.org/foaf-poc/colleagueOf",
    "neighborOf" := "http://example.org/foaf-poc/neighborOf",
    "knows" := "http://xmlns.com/foaf/0.1/knows"]

  /** `resolve_predicate`: a URI is kept, a known short name becomes its URI, and any
      other name is passed through unchanged. */
  function ResolvePredicate(p: string): (r: string)
    ensures StartsWith(p, "http") ==> r == p
    ensures !StartsWith(p, "http") && p in RelationshipMap ==> r == RelationshipMap[p]
    ensures !StartsWith(p, "http") && p !in RelationshipMap ==> r == p
  {
    if StartsWith(p, "http") then p
    else if p in RelationshipMap then RelationshipMap[p]
    else p
  }

  const PurlRelationship := "http://purl.org/vocab/relationship/"
  const FoafVocabulary := "http://xmlns.com/foaf/0.1/"

  // Five names resolve into the RELATIONSHIP vocabulary, two into the project's own
  // namespace, and `knows` into FOAF.

  lemma PurlPredicates()
    ensures forall k :: k in {"friendOf", "spouseOf", "parentOf", "childOf", "siblingOf"} ==>
              RelationshipMap[k] == PurlRelationship + k
  {
  }

  lemma LocalPredicates()
    ensures forall k :: k in {"colleagueOf", "neighborOf"} ==> RelationshipMap[k] == DefaultNamespace + k
    ensures RelationshipMap["knows"] == FoafVocabulary + "knows"
  {
  }

  /** Every predicate URI of the map starts with `"http://"`. */
  lemma MapValuesAreUris()
    ensures forall k :: k in RelationshipMap ==> StartsWith(RelationshipMap[k], "http://")
  {
    PurlPredicates();
    LocalPredicates();
    forall k | k in RelationshipMap ensures StartsWith(RelationshipMap[k], "http://") {
      var base := if k in {"colleagueOf", "neighborOf"} then DefaultNamespace
                  else if k == "knows" then FoafVocabulary else PurlRelationship;
      assert RelationshipMap[k] == base + k;
      assert (base + k)[..7] == base[..7];
    }
  }

  /** Resolving twice is resolving once, because every value of the map is a URI. */
  lemma ResolveIdempotent(p: string)
    ensures ResolvePredicate(ResolvePredicate(p)) == ResolvePredicate(p)
  {
    MapValuesAreUris();
    var r := ResolvePredicate(p);
    if r != p {
      assert StartsWith(r, "http://");
      assert r[..4] == r[..7][..4];
    }
  }

  /** The names the map resolves are exactly the names the validator accepts. */
  lemma MapCoversValidRelationships()
    ensures RelationshipMap.Keys == Validator.ValidRelationships
  {
  }

  // ---------------------------------------------------------------------------
  // The vector service's helpers
  // ---------------------------------------------------------------------------

  /** The vector service's `RELATIONSHIP_MAP`: prefixed names. */
  const VectorRelationshipMap: map<string, string> := map[
    "friendOf" := "rel:friendOf",
    "spouseOf" := "rel:spouseOf",
    "parentOf" := "rel:parentOf",
    "childOf" := "rel:childOf",
    "siblingOf" := "rel:siblingOf",
    "colleagueOf" := "custom:colleagueOf",
    "neighborOf" := "custom:neighborOf",
    "knows" := "foaf:knows",
    "ancestorOf" := "custom:ancestorOf",
    "descendantOf" := "custom:descendantOf"]

  const RelationshipLabels: map<string, string> := map[
    "friendOf" := "is friends with",
    "spouseOf" := "is married to",
    "parentOf" := "is the parent of",
    "childOf" := "is the child of",
    "siblingOf" := "is a sibling of",
    "colleagueOf" := "is a colleague of",
    "neighborOf" := "is a neighbor of",
    "knows" := "knows",
    "ancestorOf" := "is an ancestor of",
    "descendantOf" := "is a descendant of"]

  /** Every relationship with a prefixed name has a label and the other way round. */
  lemma VectorMapsAgree()
    ensures VectorRelationshipMap.Keys == RelationshipLabels.Keys
  {
  }

  /** Every prefixed name is `<prefix><key>` for a prefix the SPARQL prefix block
      declares (`rel:`, `custom:` or `foaf:`), so each one expands to a full URI. */
  lemma VectorNamesDeclared()
    ensures forall k :: k in VectorRelationshipMap ==>
      exists i :: 0 <= i < |PrefixStrip.PrefixTable| && VectorRelationshipMap[k] == PrefixStrip.PrefixTable[i].0 + k
  {
    var table := PrefixStrip.PrefixTable;
    forall k | k in VectorRelationshipMap
      ensures exists i :: 0 <= i < |table| && VectorRelationshipMap[k] == table[i].0 + k
    {
      VectorKeys();
      if k in {"friendOf", "spouseOf", "parentOf", "childOf", "siblingOf"} {
        RelNamed(k);
      } else if k == "knows" {
        assert VectorRelationshipMap[k] == table[0].0 + k;
      } else {
        CustomNamed(k);
      }
    }
  }

  lemma VectorKeys()
    ensures VectorRelationshipMap.Keys == {"friendOf", "spouseOf", "parentOf", "childOf", "siblingOf", "knows",
                                           "colleagueOf", "neighborOf", "ancestorOf", "descendantOf"}
  {
  }

  lemma RelNamed(k: string)
    requires k in {"friendOf", "spouseOf", "parentOf", "childOf", "siblingOf"}
    ensures VectorRelationshipMap[k] == PrefixStrip.PrefixTable[1].0 + k
  {
  }

  lemma CustomNamed(k: string)
    requires k in {"colleagueOf", "neighborOf", "ancestorOf", "descendantOf"}
    ensures VectorRelationshipMap[k] == PrefixStrip.PrefixTable[3].0 + k
  {
  }

  /** The vector service keeps the graph service's eight names and adds two. */
  lemma VectorMapExtendsGraphMap()
    ensures VectorRelationshipMap.Keys == RelationshipMap.Keys + {"ancestorOf", "descendantOf"}
  {
  }
}
