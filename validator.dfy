// Checks the graph service runs before it writes a person or a relationship, and the
// escaping it applies to every string it splices into a SPARQL literal.
module Validator {
  import opened Base
  import opened Strings
  import opened Seqs

  /** `VALID_RELATIONSHIPS`, as a set and in the order the source lists them. */
  const RelationshipNames: seq<string> :=
    ["friendOf", "spouseOf", "parentOf", "childOf", "siblingOf", "colleagueOf", "neighborOf", "knows"]

  const ValidRelationships: set<string> :=
    {"friendOf", "spouseOf", "parentOf", "childOf", "siblingOf", "colleagueOf", "neighborOf", "knows"}

  const Genders: seq<string> := ["male", "female", "other", "non-binary"]

  const NameRequired := "Name is required"
  const AgeOutOfRange := "Age must be between 0 and 150"
  const AgeNotInteger := "Age must be a valid integer"
  const GenderInvalid := "Gender must be male, female, other, or non-binary"

  /** The `(is_valid, error)` pair both validators return. */
  datatype Verdict = Verdict(ok: bool, error: Option<string>)

  const Accepted := Verdict(true, None)

  function Rejected(message: string): Verdict {
    Verdict(false, Some(message))
  }

  /** An `age` as the caller may pass it: a number, or text that `int()` must parse. */
  datatype AgeValue = AgeNumber(n: int) | AgeText(text: string)

  /** The `name`, `age` and `gender` entries of the dict; `None` is a missing key or a
      `None` value. */
  datatype PersonData = PersonData(name: Option<string>, age: Option<AgeValue>, gender: Option<string>)

  /** `int(data["age"])`, or `None` where it raises `ValueError`. */
  function AgeOf(a: AgeValue): Option<int> {
    match a
    case AgeNumber(n) => Some(n)
    case AgeText(t) => ParseInt(t)
  }

  predicate NamePresent(d: PersonData) {
    d.name.Some? && d.name.value != ""
  }

  predicate AgeAcceptable(d: PersonData) {
    d.age.None? || (AgeOf(d.age.value).Some? && 0 <= AgeOf(d.age.value).value <= 150)
  }

  predicate GenderAcceptable(d: PersonData) {
    d.gender.None? || d.gender.value == "" || Lower(d.gender.value) in Genders
  }

  /** `validate_person_data`: the name is checked first, then the age, then the gender,
      and the first failure is the one reported. */
  function ValidatePerson(d: PersonData): (v: Verdict)
    ensures v.ok <==> NamePresent(d) && AgeAcceptable(d) && GenderAcceptable(d)
    ensures v.ok <==> v.error.None?
    ensures !NamePresent(d) ==> v == Rejected(NameRequired)
    ensures NamePresent(d) && !AgeAcceptable(d) ==>
              v == Rejected(if AgeOf(d.age.value).None? then AgeNotInteger else AgeOutOfRange)
    ensures NamePresent(d) && AgeAcceptable(d) && !GenderAcceptable(d) ==> v == Rejected(GenderInvalid)
  {
    if d.name.None? || d.name.value == "" then Rejected(NameRequired)
    else if d.age.Some? && AgeOf(d.age.value).None? then Rejected(AgeNotInteger)
    else if d.age.Some? && (AgeOf(d.age.value).value < 0 || AgeOf(d.age.value).value > 150) then
      Rejected(AgeOutOfRange)
    else if d.gender.Some? && d.gender.value != "" && Lower(d.gender.value) !in Genders then
      Rejected(GenderInvalid)
    else Accepted
  }

  /** Gender is compared after lower-casing, so any casing of an accepted value passes. */
  lemma GenderIgnoresCase(d: PersonData, g: string)
    requires NamePresent(d) && AgeAcceptable(d)
    requires Lower(g) in Genders
    ensures ValidatePerson(d.(gender := Some(g))).ok
    ensures ValidatePerson(d.(gender := Some(Upper(g)))).ok
  {
    assert Lower(Upper(g)) == Lower(g) by {
      forall i | 0 <= i < |g| ensures Lower(Upper(g))[i] == Lower(g)[i] {
        var c := g[i];
        assert UpperChar(c) == c || ('a' <= c <= 'z' && UpperChar(c) == c - 'a' + 'A');
      }
    }
  }

  /** The age bound is inclusive at both ends. */
  lemma AgeBounds(name: string, n: int)
    requires name != ""
    ensures ValidatePerson(PersonData(Some(name), Some(AgeNumber(n)), None)).ok <==> 0 <= n <= 150
    ensures ValidatePerson(PersonData(Some(name), Some(AgeText(IntToString(n))), None)).ok <==> 0 <= n <= 150
  {
    ParseIntRoundTrip(n);
  }

  /** The error names every accepted relationship once, in sorted order: `sorted` of
      the set, joined by `", "`. */
  function RelationshipError(name: string): (r: string)
    ensures exists names: seq<string> ::
      && r == "Invalid relationship type '" + name + "'. Valid types: " + Join(names, ", ")
      && SortedStrings(names) && NoDuplicates(names)
      && (forall n :: n in names <==> n in ValidRelationships)
  {
    var names := SortedSet(RelationshipNames);
    "Invalid relationship type '" + name + "'. Valid types: " + Join(names, ", ")
  }

  /** `validate_relationship`: exactly the eight names pass; any other is reported. */
  function ValidateRelationship(name: string): (v: Verdict)
    ensures v.ok <==> name in ValidRelationships
    ensures v.ok <==> v.error.None?
    ensures !v.ok ==> v.error == Some(RelationshipError(name))
  {
    if name !in ValidRelationships then Rejected(RelationshipError(name)) else Accepted
  }

  // ---------------------------------------------------------------------------
  // `sanitize_sparql_string`
  // ---------------------------------------------------------------------------

  predicate NeedsEscape(c: char) {
    c == '\\' || c == '"' || c == '\''
  }

  /** `s` with every `c` replaced by `repl`, one character at a time. */
  function ReplaceChar(s: string, c: char, repl: string): string {
    if s == [] then [] else (if s[0] == c then repl else [s[0]]) + ReplaceChar(s[1..], c, repl)
  }

  lemma {:induction false} ReplaceAllChar(s: string, c: char, repl: string)
    ensures ReplaceAll(s, [c], repl) == ReplaceChar(s, c, repl)
  {
    if s != [] {
      ReplaceAllChar(s[1..], c, repl);
      assert s[..1] == [s[0]];
    }
  }

  lemma {:induction false} ReplaceCharAppend(a: string, b: string, c: char, repl: string)
    ensures ReplaceChar(a + b, c, repl) == ReplaceChar(a, c, repl) + ReplaceChar(b, c, repl)
  {
    if a == [] {
      assert a + b == b;
    } else {
      assert (a + b)[1..] == a[1..] + b;
      ReplaceCharAppend(a[1..], b, c, repl);
    }
  }

  /** The three chained `replace` calls of the source. */
  function Sanitize(s: string): string {
    ReplaceAll(ReplaceAll(ReplaceAll(s, "\\", "\\\\"), "\"", "\\\""), "'", "\\'")
  }

  /** The escape each character gets: a backslash before `\`, `"` and `'`. */
  function EscapeChar(c: char): string {
    if NeedsEscape(c) then ['\\', c] else [c]
  }

  function Escape(s: string): string {
    if s == [] then [] else EscapeChar(s[0]) + Escape(s[1..])
  }

  function ReplaceChain(s: string): string {
    ReplaceChar(ReplaceChar(ReplaceChar(s, '\\', "\\\\"), '"', "\\\""), '\'', "\\'")
  }

  lemma {:induction false} ChainEscapes(s: string)
    ensures ReplaceChain(s) == Escape(s)
  {
    if s != [] {
      assert s == [s[0]] + s[1..];
      ChainAppend([s[0]], s[1..]);
      ChainChar(s[0]);
      ChainEscapes(s[1..]);
    }
  }

  lemma ChainAppend(a: string, b: string)
    ensures ReplaceChain(a + b) == ReplaceChain(a) + ReplaceChain(b)
  {
    var a1, b1 := ReplaceChar(a, '\\', "\\\\"), ReplaceChar(b, '\\', "\\\\");
    var a2, b2 := ReplaceChar(a1, '"', "\\\""), ReplaceChar(b1, '"', "\\\"");
    ReplaceCharAppend(a, b, '\\', "\\\\");
    ReplaceCharAppend(a1, b1, '"', "\\\"");
    ReplaceCharAppend(a2, b2, '\'', "\\'");
  }

  /** One character goes through the chain as its escape. */
  lemma ChainChar(x: char)
    ensures ReplaceChain([x]) == EscapeChar(x)
  {
    var one := if x == '\\' then "\\\\" else [x];
    assert ReplaceChar([x], '\\', "\\\\") == one;
    ReplaceCharAppend(one[..1], one[1..], '"', "\\\"");
    assert one[..1] + one[1..] == one;
    var two := ReplaceChar(one, '"', "\\\"");
    ReplaceCharAppend(two[..1], two[1..], '\'', "\\'");
    assert two[..1] + two[1..] == two;
  }

  /** Replacing the backslashes first is what makes the chain escape every special
      character exactly once: the backslashes the later steps add are not doubled. */
  lemma SanitizeEscapes(s: string)
    ensures Sanitize(s) == Escape(s)
  {
    ReplaceAllChar(s, '\\', "\\\\");
    ReplaceAllChar(ReplaceChar(s, '\\', "\\\\"), '"', "\\\"");
    ReplaceAllChar(ReplaceChar(ReplaceChar(s, '\\', "\\\\"), '"', "\\\""), '\'', "\\'");
    ChainEscapes(s);
  }

  function SpecialCount(s: string): nat {
    if s == [] then 0 else (if NeedsEscape(s[0]) then 1 else 0) + SpecialCount(s[1..])
  }

  lemma {:induction false} EscapeLength(s: string)
    ensures |Escape(s)| == |s| + SpecialCount(s)
  {
    if s != [] {
      EscapeLength(s[1..]);
    }
  }

  lemma {:induction false} EscapeIdentity(s: string)
    requires forall i :: 0 <= i < |s| ==> !NeedsEscape(s[i])
    ensures Escape(s) == s
  {
    if s != [] {
      EscapeIdentity(s[1..]);
      assert s == [s[0]] + s[1..];
    }
  }

  /** Reading an escaped literal back: a backslash stands for the character after it. */
  function Unescape(s: string): string
    decreases |s|
  {
    if s == [] then []
    else if s[0] == '\\' && |s| >= 2 then [s[1]] + Unescape(s[2..])
    else [s[0]] + Unescape(s[1..])
  }

  lemma {:induction false} UnescapeEscape(s: string)
    ensures Unescape(Escape(s)) == s
  {
    if s != [] {
      var e := Escape(s);
      assert e == EscapeChar(s[0]) + Escape(s[1..]);
      if NeedsEscape(s[0]) {
        assert e[2..] == Escape(s[1..]);
      } else {
        assert e[1..] == Escape(s[1..]);
      }
      UnescapeEscape(s[1..]);
      assert s == [s[0]] + s[1..];
    }
  }

  /** Every quote in the escaped text is preceded by a backslash, so a sanitized value
      cannot close the literal it is placed in. */
  lemma {:induction false} EscapedQuotes(s: string)
    ensures var e := Escape(s);
      forall i :: 0 <= i < |e| && (e[i] == '"' || e[i] == '\'') ==> i > 0 && e[i - 1] == '\\'
  {
    if s != [] {
      EscapedQuotes(s[1..]);
      var head, e := EscapeChar(s[0]), Escape(s);
      assert e == head + Escape(s[1..]);
      forall i | 0 <= i < |e| && (e[i] == '"' || e[i] == '\'')
        ensures i > 0 && e[i - 1] == '\\'
      {
        if i >= |head| {
          assert e[i] == Escape(s[1..])[i - |head|];
          if i - |head| > 0 {
            assert e[i - 1] == Escape(s[1..])[i - |head| - 1];
          }
        }
      }
    }
  }

  /** `sanitize_sparql_string`: the escaping is undone by reading it back, adds one
      character per special character, and leaves text without them unchanged. */
  lemma SanitizeSpec(s: string)
    ensures Unescape(Sanitize(s)) == s
    ensures |Sanitize(s)| == |s| + SpecialCount(s)
    ensures (forall i :: 0 <= i < |s| ==> !NeedsEscape(s[i])) ==> Sanitize(s) == s
  {
    SanitizeEscapes(s);
    UnescapeEscape(s);
    EscapeLength(s);
    if forall i :: 0 <= i < |s| ==> !NeedsEscape(s[i]) {
      EscapeIdentity(s);
    }
  }
}
