// How the graph agent's query tool finds the kind of a SPARQL query: it removes the
// leading run of PREFIX declarations (the pattern `\s*PREFIX\s+\S+\s+<[^>]+>\s*\.?\s*`,
// case-insensitive, repeated, anchored at the start), strips and upper-cases what is
// left, and looks at how that begins. The pattern is matched here by a scanner that
// takes the same greedy steps.
module PrefixStrip {
  import opened Base
  import opened Strings

  /** The declarations of the `PREFIXES` block, in order. */
  const PrefixTable: seq<(string, string)> := [
    ("foaf:", "http://xmlns.com/foaf/0.1/"),
    ("rel:", "http://purl.org/vocab/relationship/"),
    ("schema:", "http://schema.org/"),
    ("custom:", "http://example.org/foaf-poc/"),
    ("xsd:", "http://www.w3.org/2001/XMLSchema#"),
    ("rdfs:", "http://www.w3.org/2000/01/rdf-schema#"),
    ("rdf:", "http://www.w3.org/1999/02/22-rdf-syntax-ns#"),
    ("owl:", "http://www.w3.org/2002/07/owl#")]

  const DeclKeyword := "PREFIX"

  /** `PREFIX name <iri>` and a line break. */
  function PrefixDecl(name: string, iri: string): string {
    DeclKeyword + [' '] + name + [' ', '<'] + iri + ['>', '\n']
  }

  function PrefixBlock(table: seq<(string, string)>): string {
    if table == [] then "" else PrefixDecl(table[0].0, table[0].1) + PrefixBlock(table[1..])
  }

  // ---------------------------------------------------------------------------
  // The pattern, read one character at a time
  // ---------------------------------------------------------------------------

  /** Where the reader is inside one declaration. */
  datatype Phase =
    | Lead        // leading whitespace, then the keyword
    | GapOne      // the first whitespace character after the keyword
    | Gap         // more whitespace, then the first character of the name
    | Name        // the rest of the name, then whitespace
    | BeforeIri   // whitespace, then `<`
    | IriOne      // the first character of the IRI, which is not `>`
    | Iri         // the rest of the IRI, then `>`
    | Tail        // whitespace, then an optional `.`
    | TailAfterDot  // whitespace after the `.`

  /** `PREFIX` in any casing at the start of `s`. */
  predicate KeywordAhead(s: string) {
    && |s| >= 6
    && UpperChar(s[0]) == 'P' && UpperChar(s[1]) == 'R' && UpperChar(s[2]) == 'E'
    && UpperChar(s[3]) == 'F' && UpperChar(s[4]) == 'I' && UpperChar(s[5]) == 'X'
  }

  function ShiftBy(r: Option<nat>, n: nat): Option<nat> {
    match r
    case None => None
    case Some(k) => Some(n + k)
  }

  /** How many characters of `s` the rest of a declaration takes when the reader is in
      `phase`; `None` when the declaration cannot be completed. Every step is forced:
      each run the pattern repeats is read to its end, and giving characters back
      never lets the next part match. */
  function Scan(s: string, phase: Phase): (r: Option<nat>)
    ensures r.Some? ==> r.value <= |s|
    ensures r.Some? && phase.Lead? ==> r.value >= 6
    decreases |s|
  {
    if s == [] then (if phase.Tail? || phase.TailAfterDot? then Some(0) else None)
    else
      var c := s[0];
      match phase
      case Lead =>
        if IsSpace(c) then ShiftBy(Scan(s[1..], Lead), 1)
        else if KeywordAhead(s) then ShiftBy(Scan(s[6..], GapOne), 6)
        else None
      case GapOne => if IsSpace(c) then ShiftBy(Scan(s[1..], Gap), 1) else None
      case Gap => ShiftBy(Scan(s[1..], if IsSpace(c) then Gap else Name), 1)
      case Name => ShiftBy(Scan(s[1..], if IsSpace(c) then BeforeIri else Name), 1)
      case BeforeIri =>
        if IsSpace(c) then ShiftBy(Scan(s[1..], BeforeIri), 1)
        else if c == '<' then ShiftBy(Scan(s[1..], IriOne), 1)
        else None
      case IriOne => if c == '>' then None else ShiftBy(Scan(s[1..], Iri), 1)
      case Iri => ShiftBy(Scan(s[1..], if c == '>' then Tail else Iri), 1)
      case Tail =>
        if IsSpace(c) then ShiftBy(Scan(s[1..], Tail), 1)
        else if c == '.' then ShiftBy(Scan(s[1..], TailAfterDot), 1)
        else Some(0)
      case TailAfterDot => if IsSpace(c) then ShiftBy(Scan(s[1..], TailAfterDot), 1) else Some(0)
  }

  /** The length of the declaration at the start of `s`, if one is there. */
  function DeclLength(s: string): (r: Option<nat>)
    ensures r.Some? ==> 0 < r.value <= |s|
  {
    Scan(s, Lead)
  }

  /** The length of the run of declarations at the start of the query. */
  function DeclsLength(s: string): (k: nat)
    ensures k <= |s|
    decreases |s|
  {
    match DeclLength(s)
    case None => 0
    case Some(k) => k + DeclsLength(s[k..])
  }

  /** What is left of the query once the declarations are removed, stripped. */
  function Rest(query: string): string {
    Strip(query[DeclsLength(query)..])
  }

  /** The upper-cased body the tool dispatches on. */
  function QueryBody(query: string): (body: string)
    ensures |body| <= |query|
  {
    Upper(Rest(query))
  }

  datatype QueryKind = SelectQuery | AskQuery | UpdateQuery | Unsupported

  function KindOf(body: string): QueryKind {
    if StartsWith(body, "SELECT") then SelectQuery
    else if StartsWith(body, "ASK") then AskQuery
    else if StartsWith(body, "INSERT") || StartsWith(body, "DELETE") then UpdateQuery
    else Unsupported
  }

  // ---------------------------------------------------------------------------
  // Runs the reader passes over
  // ---------------------------------------------------------------------------

  /** The phases in which whitespace is skipped. */
  predicate SkipsSpace(phase: Phase) {
    phase.Lead? || phase.Gap? || phase.BeforeIri? || phase.Tail? || phase.TailAfterDot?
  }

  /** A run of whitespace read in a phase that skips it only moves the reader on. */
  lemma {:induction false} SpaceRun(s: string, i: nat, j: nat, phase: Phase)
    requires i <= j <= |s| && forall k :: i <= k < j ==> IsSpace(s[k])
    requires SkipsSpace(phase)
    ensures Scan(s[i..], phase) == ShiftBy(Scan(s[j..], phase), j - i)
    decreases j - i
  {
    if i < j {
      SpaceStep(s, i, phase);
      SpaceRun(s, i + 1, j, phase);
    }
  }

  lemma SpaceStep(s: string, i: nat, phase: Phase)
    requires i < |s| && IsSpace(s[i]) && SkipsSpace(phase)
    ensures Scan(s[i..], phase) == ShiftBy(Scan(s[i + 1..], phase), 1)
  {
    assert s[i..][0] == s[i] && s[i..][1..] == s[i + 1..];
  }

  lemma {:induction false} NameRun(s: string, i: nat, j: nat, v: nat)
    requires i <= j <= |s| && forall k :: i <= k < j ==> !IsSpace(s[k])
    requires Scan(s[j..], Name) == Some(v)
    ensures Scan(s[i..], Name) == Some(v + j - i)
    decreases j - i
  {
    if i < j {
      assert s[i..][1..] == s[i + 1..];
      NameRun(s, i + 1, j, v);
    }
  }

  lemma {:induction false} IriRun(s: string, i: nat, j: nat, v: nat)
    requires i <= j <= |s| && forall k :: i <= k < j ==> s[k] != '>'
    requires Scan(s[j..], Iri) == Some(v)
    ensures Scan(s[i..], Iri) == Some(v + j - i)
    decreases j - i
  {
    if i < j {
      assert s[i..][1..] == s[i + 1..];
      IriRun(s, i + 1, j, v);
    }
  }

  /** One character read in `phase`, moving to `next`. */
  lemma Step(s: string, i: nat, phase: Phase, next: Phase, v: nat)
    requires i < |s|
    requires || (phase.Lead? && KeywordAhead(s[i..]) && next.GapOne?)
             || (phase.GapOne? && IsSpace(s[i]) && next.Gap?)
             || (phase.Gap? && !IsSpace(s[i]) && next.Name?)
             || (phase.Name? && IsSpace(s[i]) && next.BeforeIri?)
             || (phase.BeforeIri? && s[i] == '<' && next.IriOne?)
             || (phase.IriOne? && s[i] != '>' && next.Iri?)
             || (phase.Iri? && s[i] == '>' && next.Tail?)
             || (phase.Tail? && IsSpace(s[i]) && next.Tail?)
    requires var w := if phase.Lead? then 6 else 1; i + w <= |s| && Scan(s[i + w..], next) == Some(v)
    ensures Scan(s[i..], phase) == Some(v + (if phase.Lead? then 6 else 1))
  {
    var w := if phase.Lead? then 6 else 1;
    assert s[i..][0] == s[i] && s[i..][w..] == s[i + w..];
    if phase.Lead? {
      assert UpperChar(s[i]) == 'P';
      assert !IsSpace(s[i]);
    }
  }

  // ---------------------------------------------------------------------------
  // Leading whitespace and declarations do not change the body
  // ---------------------------------------------------------------------------

  lemma {:induction false} LeadingSpacesAfter(s: string, n: nat)
    requires n <= |s| && forall k :: 0 <= k < n ==> IsSpace(s[k])
    ensures LeadingSpaces(s) == n + LeadingSpaces(s[n..])
  {
    if n > 0 {
      assert s[1..][n - 1..] == s[n..];
      LeadingSpacesAfter(s[1..], n - 1);
    }
  }

  lemma DropDrop(s: string, k: nat, e: nat)
    requires k + e <= |s|
    ensures s[k..][e..] == s[k + e..]
  {
  }

  /** The run of declarations that starts with one of length `k`. */
  lemma DeclsAfterDecl(s: string, k: nat)
    requires DeclLength(s) == Some(k)
    ensures DeclsLength(s) == k + DeclsLength(s[k..])
  {
  }

  lemma RestAt(s: string, j: nat)
    requires DeclsLength(s) == j
    ensures Rest(s) == Strip(s[j..])
  {
  }

  /** When the declarations of `s` are `j` characters and then those of `s[j..]`,
      both have the same body. */
  lemma RestShift(s: string, j: nat, e: nat)
    requires j + e <= |s| && DeclsLength(s) == j + e && DeclsLength(s[j..]) == e
    ensures Rest(s) == Rest(s[j..])
  {
    RestAt(s, j + e);
    RestAt(s[j..], e);
    DropDrop(s, j, e);
  }

  /** Removing a declaration of length `k` leaves the body of what follows. */
  lemma RestAfterDecl(s: string, k: nat)
    requires DeclLength(s) == Some(k)
    ensures Rest(s) == Rest(s[k..])
  {
    DeclsAfterDecl(s, k);
    RestShift(s, k, DeclsLength(s[k..]));
  }

  /** Whitespace in front of the declarations is read as part of the first one, and
      without one there is none. */
  lemma SpacesDecls(s: string, n: nat)
    requires n <= |s| && forall k :: 0 <= k < n ==> IsSpace(s[k])
    ensures || (DeclsLength(s) == 0 && DeclsLength(s[n..]) == 0)
            || DeclsLength(s) == n + DeclsLength(s[n..])
  {
    var d := DeclLength(s[n..]);
    if d.Some? {
      SpacesDecl(s, n, d.value);
    } else {
      SpacesNoDecl(s, n);
    }
  }

  lemma SpacesNoDecl(s: string, n: nat)
    requires n <= |s| && forall k :: 0 <= k < n ==> IsSpace(s[k])
    requires DeclLength(s[n..]) == None
    ensures DeclsLength(s) == 0 && DeclsLength(s[n..]) == 0
  {
    SpacesLead(s, n);
  }

  /** Leading whitespace is read as part of the declaration after it. */
  lemma SpacesLead(s: string, n: nat)
    requires n <= |s| && forall k :: 0 <= k < n ==> IsSpace(s[k])
    ensures DeclLength(s) == ShiftBy(DeclLength(s[n..]), n)
  {
    SpaceRun(s, 0, n, Lead);
    assert s[0..] == s;
  }

  lemma SpacesDecl(s: string, n: nat, k: nat)
    requires n <= |s| && forall k :: 0 <= k < n ==> IsSpace(s[k])
    requires DeclLength(s[n..]) == Some(k)
    ensures DeclsLength(s) == n + DeclsLength(s[n..])
  {
    SpacesLead(s, n);
    DeclsAfterDecl(s, n + k);
    DeclsAfterDecl(s[n..], k);
    DropDrop(s, n, k);
  }

  lemma StripSpaces(s: string, n: nat)
    requires n <= |s| && forall k :: 0 <= k < n ==> IsSpace(s[k])
    ensures Strip(s) == Strip(s[n..])
  {
    LeadingSpacesAfter(s, n);
    DropDrop(s, n, LeadingSpaces(s[n..]));
    assert LStrip(s) == LStrip(s[n..]);
  }

  /** Whitespace in front of a query does not change its body. */
  lemma SpacesInvisible(s: string, n: nat)
    requires n <= |s| && forall k :: 0 <= k < n ==> IsSpace(s[k])
    ensures Rest(s) == Rest(s[n..])
  {
    SpacesDecls(s, n);
    if DeclsLength(s) == 0 && DeclsLength(s[n..]) == 0 {
      RestAt(s, 0);
      RestAt(s[n..], 0);
      assert s[0..] == s && s[n..][0..] == s[n..];
      StripSpaces(s, n);
    } else {
      RestShift(s, n, DeclsLength(s[n..]));
    }
  }

  /** The first character that is not whitespace, if any, is not a `.`. */
  predicate NoDotAhead(q: string) {
    LeadingSpaces(q) == |q| || q[LeadingSpaces(q)] != '.'
  }

  predicate WellFormedDecl(name: string, iri: string) {
    && name != [] && (forall i :: 0 <= i < |name| ==> !IsSpace(name[i]))
    && iri != [] && '>' !in iri
  }

  /** After the `>`, the reader takes the whitespace and stops before anything that is
      not a `.`. */
  lemma TailMatch(q: string)
    requires NoDotAhead(q)
    ensures Scan(q, Tail) == Some(LeadingSpaces(q))
  {
    var ls := LeadingSpaces(q);
    SpaceRun(q, 0, ls, Tail);
    assert q[0..] == q;
  }

  /** The name and the IRI sit after the keyword, each after its whitespace, the IRI
      after its `<`. */
  predicate BodyLaidOut(s: string, name: string, iri: string) {
    var n, m := |name|, |iri|;
    && |s| >= 9 + n + m && s[6] == ' '
    && (forall k :: 0 <= k < n ==> s[7 + k] == name[k])
    && s[7 + n] == ' ' && s[8 + n] == '<'
    && (forall k :: 0 <= k < m ==> s[9 + n + k] == iri[k])
  }

  /** Where each part of a declaration sits. */
  lemma DeclLayout(name: string, iri: string, q: string)
    ensures var s, n, m := PrefixDecl(name, iri) + q, |name|, |iri|;
      && |s| == 11 + n + m + |q| && KeywordAhead(s) && BodyLaidOut(s, name, iri)
      && s[9 + n + m] == '>' && s[10 + n + m] == '\n' && s[11 + n + m..] == q
  {
    assert |DeclKeyword| == 6;
    var s := PrefixDecl(name, iri) + q;
    assert s[..6] == DeclKeyword;
  }

  /** From the `>` that closes the IRI to the end. */
  lemma TailPart(s: string, e: nat, q: string)
    requires e + 2 <= |s| && s[e] == '>' && s[e + 1] == '\n' && s[e + 2..] == q && NoDotAhead(q)
    ensures Scan(s[e..], Iri) == Some(LeadingSpaces(q) + 2)
  {
    var ls := LeadingSpaces(q);
    TailMatch(q);
    Step(s, e + 1, Tail, Tail, ls);
    Step(s, e, Iri, Tail, ls + 1);
  }

  /** From the whitespace before `<` to the `>`, the IRI starting at `b`. */
  lemma IriPart(s: string, b: nat, iri: string, v: nat)
    requires iri != [] && '>' !in iri && 2 <= b && b + |iri| <= |s|
    requires s[b - 2] == ' ' && s[b - 1] == '<' && forall k :: 0 <= k < |iri| ==> s[b + k] == iri[k]
    requires Scan(s[b + |iri|..], Iri) == Some(v)
    ensures Scan(s[b - 2..], Name) == Some(v + 2 + |iri|)
  {
    IriText(s, b, iri, v);
    IriOpen(s, b, v + |iri|);
  }

  /** The whitespace and the `<` before the IRI. */
  lemma IriOpen(s: string, b: nat, w: nat)
    requires 2 <= b <= |s| && s[b - 2] == ' ' && s[b - 1] == '<'
    requires Scan(s[b..], IriOne) == Some(w)
    ensures Scan(s[b - 2..], Name) == Some(w + 2)
  {
    Step(s, b - 1, BeforeIri, IriOne, w);
    Step(s, b - 2, Name, BeforeIri, w + 1);
  }

  /** The IRI text itself, from its first character to the `>`. */
  lemma IriText(s: string, b: nat, iri: string, v: nat)
    requires iri != [] && '>' !in iri && b + |iri| <= |s|
    requires forall k :: 0 <= k < |iri| ==> s[b + k] == iri[k]
    requires Scan(s[b + |iri|..], Iri) == Some(v)
    ensures Scan(s[b..], IriOne) == Some(v + |iri|)
  {
    var m := |iri|;
    forall k | b + 1 <= k < b + m ensures s[k] != '>' {
      assert s[k] == iri[k - b];
    }
    IriRun(s, b + 1, b + m, v);
    assert s[b] == iri[0];
    Step(s, b, IriOne, Iri, v + m - 1);
  }

  /** From the whitespace after the keyword to the end of the name, the name starting
      at `a`. */
  lemma NamePart(s: string, a: nat, name: string, v: nat)
    requires name != [] && (forall i :: 0 <= i < |name| ==> !IsSpace(name[i]))
    requires 1 <= a && a + |name| <= |s|
    requires s[a - 1] == ' ' && forall k :: 0 <= k < |name| ==> s[a + k] == name[k]
    requires Scan(s[a + |name|..], Name) == Some(v)
    ensures Scan(s[a - 1..], GapOne) == Some(v + 1 + |name|)
  {
    var n := |name|;
    forall k | a + 1 <= k < a + n ensures !IsSpace(s[k]) {
      assert s[k] == name[k - a];
    }
    NameRun(s, a + 1, a + n, v);
    assert s[a] == name[0];
    Step(s, a, Gap, Name, v + n - 1);
    Step(s, a - 1, GapOne, Gap, v + n);
  }

  /** From the whitespace after the keyword to the `>` that closes the IRI. */
  lemma DeclBody(s: string, name: string, iri: string, v: nat)
    requires WellFormedDecl(name, iri) && BodyLaidOut(s, name, iri)
    requires Scan(s[9 + |name| + |iri|..], Iri) == Some(v)
    ensures Scan(s[6..], GapOne) == Some(v + 3 + |name| + |iri|)
  {
    var n, m := |name|, |iri|;
    IriPart(s, 9 + n, iri, v);
    NamePart(s, 7, name, v + 2 + m);
  }

  /** A declaration laid out in `s` is read from its keyword to its `>` and on to
      where the reader stops after it. */
  lemma DeclScan(s: string, name: string, iri: string, v: nat)
    requires WellFormedDecl(name, iri) && KeywordAhead(s) && BodyLaidOut(s, name, iri)
    requires Scan(s[9 + |name| + |iri|..], Iri) == Some(v)
    ensures DeclLength(s) == Some(9 + |name| + |iri| + v)
  {
    DeclBody(s, name, iri, v);
    KeywordPart(s, v + 3 + |name| + |iri|);
  }

  /** From the keyword on, once the rest of the declaration is read. */
  lemma KeywordPart(s: string, v: nat)
    requires 6 <= |s| && KeywordAhead(s) && Scan(s[6..], GapOne) == Some(v)
    ensures DeclLength(s) == Some(v + 6)
  {
    assert s[0..] == s;
    Step(s, 0, Lead, GapOne, v);
  }

  /** One well-formed declaration is read up to the first character after the
      whitespace that follows it. */
  lemma DeclMatch(name: string, iri: string, q: string)
    requires WellFormedDecl(name, iri) && NoDotAhead(q)
    ensures var d := PrefixDecl(name, iri);
      DeclLength(d + q) == Some(|d| + LeadingSpaces(q))
  {
    var s := PrefixDecl(name, iri) + q;
    var e := 9 + |name| + |iri|;
    DeclLayout(name, iri, q);
    TailPart(s, e, q);
    DeclScan(s, name, iri, LeadingSpaces(q) + 2);
  }

  /** A well-formed declaration in front of a query does not change its body, unless
      the query itself starts with a `.`, which the pattern's optional dot would take. */
  lemma DeclInvisible(name: string, iri: string, q: string)
    requires WellFormedDecl(name, iri) && NoDotAhead(q)
    ensures Rest(PrefixDecl(name, iri) + q) == Rest(q)
  {
    var d := PrefixDecl(name, iri);
    DeclMatch(name, iri, q);
    assert (d + q)[|d|..] == q;
    RestAfterMatch(d + q, |d|, q, LeadingSpaces(q));
  }

  /** When the declarations end after the first `m` characters and the `ls` whitespace
      characters that follow them, what is left is the rest of the text after those `m`
      characters. */
  lemma RestAfterMatch(s: string, m: nat, q: string, ls: nat)
    requires m <= |s| && s[m..] == q && ls <= |q| && forall k :: 0 <= k < ls ==> IsSpace(q[k])
    requires DeclLength(s) == Some(m + ls)
    ensures Rest(s) == Rest(q)
  {
    RestAfterDecl(s, m + ls);
    assert s[m + ls..] == q[ls..];
    SpacesInvisible(q, ls);
  }

  predicate WellFormedTable(table: seq<(string, string)>) {
    forall i :: 0 <= i < |table| ==> WellFormedDecl(table[i].0, table[i].1)
  }

  /** A query that starts with a declaration has no `.` ahead. */
  lemma BlockAhead(table: seq<(string, string)>, q: string)
    requires table != []
    ensures NoDotAhead(PrefixBlock(table) + q)
  {
    var t := PrefixBlock(table) + q;
    assert PrefixBlock(table) == PrefixDecl(table[0].0, table[0].1) + PrefixBlock(table[1..]);
    assert t[0] == 'P';
  }

  lemma WellFormedTail(table: seq<(string, string)>)
    requires table != [] && WellFormedTable(table)
    ensures WellFormedTable(table[1..]) && WellFormedDecl(table[0].0, table[0].1)
  {
    forall i | 0 <= i < |table| - 1 ensures WellFormedDecl(table[1..][i].0, table[1..][i].1) {
      assert table[1..][i] == table[i + 1];
    }
  }

  /** A whole block of well-formed declarations is removed. */
  lemma {:induction false} BlockInvisible(table: seq<(string, string)>, q: string)
    requires WellFormedTable(table) && NoDotAhead(q)
    ensures Rest(PrefixBlock(table) + q) == Rest(q)
  {
    if table == [] {
      assert PrefixBlock(table) + q == q;
    } else {
      var d := PrefixDecl(table[0].0, table[0].1);
      var t := PrefixBlock(table[1..]) + q;
      WellFormedTail(table);
      BlockInvisible(table[1..], q);
      assert PrefixBlock(table) + q == d + t;
      if table[1..] != [] {
        BlockAhead(table[1..], q);
      } else {
        assert t == q;
      }
      DeclInvisible(table[0].0, table[0].1, t);
    }
  }

  // ---------------------------------------------------------------------------
  // The kind the tool sees
  // ---------------------------------------------------------------------------

  /** The service's own declarations are well formed. */
  lemma PrefixTableHead()
    ensures forall i :: 0 <= i < 4 ==> WellFormedDecl(PrefixTable[i].0, PrefixTable[i].1)
  {
  }

  lemma PrefixTableTail()
    ensures forall i :: 4 <= i < 8 ==> WellFormedDecl(PrefixTable[i].0, PrefixTable[i].1)
  {
  }

  lemma PrefixTableWellFormed()
    ensures WellFormedTable(PrefixTable)
  {
    PrefixTableHead();
    PrefixTableTail();
  }

  /** An upper-case word whose first character is neither whitespace nor the start of
      `PREFIX`. */
  predicate PlainWord(word: string) {
    && word != [] && !IsSpace(word[0]) && word[0] != 'P' && !IsSpace(word[|word| - 1])
    && forall k :: 0 <= k < |word| ==> UpperChar(word[k]) == word[k]
  }

  /** Text after `n` whitespace characters that begins with a word is its stripped
      form's start. */
  lemma StripStart(t: string, n: nat, word: string)
    requires PlainWord(word) && n + |word| <= |t|
    requires forall k :: 0 <= k < n ==> IsSpace(t[k])
    requires forall k :: 0 <= k < |word| ==> t[n + k] == word[k]
    ensures StartsWith(Strip(t), word)
  {
    LeadingSpacesAfter(t, n);
    assert t[n] == word[0];
    assert LeadingSpaces(t[n..]) == 0;
    var u := LStrip(t);
    assert u == t[n..];
    var k := TrailingSpaces(u);
    assert u[|word| - 1] == word[|word| - 1];
    assert |word| <= |u| - k;
    var r := Strip(t);
    assert r == u[..|u| - k];
    assert r[..|word|] == word;
  }

  lemma UpperStart(r: string, word: string)
    requires StartsWith(r, word) && forall k :: 0 <= k < |word| ==> UpperChar(word[k]) == word[k]
    ensures StartsWith(Upper(r), word)
  {
    var u := Upper(r);
    forall k | 0 <= k < |word| ensures u[k] == word[k] {
      assert r[k] == r[..|word|][k];
    }
  }

  /** A query with no declaration, whose first word is `word` once whitespace is
      skipped, has a body starting with that word. */
  lemma PlainBody(t: string, n: nat, word: string)
    requires PlainWord(word) && n + |word| <= |t|
    requires forall k :: 0 <= k < n ==> IsSpace(t[k])
    requires forall k :: 0 <= k < |word| ==> t[n + k] == word[k]
    ensures StartsWith(QueryBody(t), word)
  {
    assert t[n..][0] == word[0];
    assert UpperChar(word[0]) != 'P';
    assert Scan(t[n..], Lead) == None;
    SpaceRun(t, 0, n, Lead);
    assert t[0..] == t;
    RestAt(t, 0);
    StripStart(t, n, word);
    UpperStart(Strip(t), word);
  }

  /** Well-formed declarations in front of a query do not change the kind the tool
      reads off it. */
  lemma DeclaredKind(table: seq<(string, string)>, t: string)
    requires WellFormedTable(table) && NoDotAhead(t)
    ensures QueryBody(PrefixBlock(table) + t) == QueryBody(t)
  {
    BlockInvisible(table, t);
  }

  const SelectWord := "SELECT"
  const InsertWord := "INSERT"

  lemma SelectKind(body: string)
    requires StartsWith(body, SelectWord)
    ensures KindOf(body) == SelectQuery
  {
  }

  lemma InsertKind(body: string)
    requires StartsWith(body, InsertWord)
    ensures KindOf(body) == UpdateQuery
  {
    assert body[0] == body[..6][0] == 'I';
  }

  /** A block of well-formed declarations (the service's own among them, by
      `PrefixTableWellFormed`), whitespace and a SELECT query is dispatched as a SELECT. */
  lemma SelectQueryKind(table: seq<(string, string)>, t: string, n: nat)
    requires WellFormedTable(table)
    requires n + 6 <= |t| && 0 < n && forall k :: 0 <= k < n ==> IsSpace(t[k])
    requires forall k :: 0 <= k < 6 ==> t[n + k] == SelectWord[k]
    ensures KindOf(QueryBody(PrefixBlock(table) + t)) == SelectQuery
  {
    assert PlainWord(SelectWord);
    PlainBody(t, n, SelectWord);
    LeadingSpacesAfter(t, n);
    assert t[n..][0] == 'S';
    DeclaredKind(table, t);
    SelectKind(QueryBody(t));
  }

  /** ... and an INSERT as an update. */
  lemma InsertQueryKind(table: seq<(string, string)>, t: string, n: nat)
    requires WellFormedTable(table)
    requires n + 6 <= |t| && 0 < n && forall k :: 0 <= k < n ==> IsSpace(t[k])
    requires forall k :: 0 <= k < 6 ==> t[n + k] == InsertWord[k]
    ensures KindOf(QueryBody(PrefixBlock(table) + t)) == UpdateQuery
  {
    assert PlainWord(InsertWord);
    PlainBody(t, n, InsertWord);
    LeadingSpacesAfter(t, n);
    assert t[n..][0] == 'I';
    DeclaredKind(table, t);
    InsertKind(QueryBody(t));
  }
}
