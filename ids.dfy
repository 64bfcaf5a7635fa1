/**
 * Identifier utilities: the task-definition name taken from an ARN, and the
 * rewrite of an arbitrary string into a legal CloudWatch GetMetricData query
 * id (lower-case ASCII letters, digits and `_`, starting with a letter).
 */
module Ids {

  predicate IsLower(c: char) { 'a' <= c <= 'z' }
  predicate IsUpper(c: char) { 'A' <= c <= 'Z' }
  predicate IsDigit(c: char) { '0' <= c <= '9' }

  /** Python's `str.isalpha()` on the characters a sanitized id can hold. */
  predicate IsAsciiLetter(c: char) { IsLower(c) || IsUpper(c) }

  /** A character a CloudWatch query id may contain. */
  predicate IdChar(c: char) { IsLower(c) || IsDigit(c) || c == '_' }

  /** Every character of `s` may appear in a query id. */
  predicate IdAlphabet(s: string) {
    forall i :: 0 <= i < |s| ==> IdChar(s[i])
  }

  /** A legal query id: empty (the source lets "" through) or a letter followed by id characters. */
  predicate IsMetricId(s: string) {
    IdAlphabet(s) && (s != [] ==> IsLower(s[0]))
  }

  /**
   * The text after the last `/` of `s` (all of `s` when it has none): the
   * element `s.split("/")[-1]` picks.
   */
  function LastSegment(s: string): (r: string)
    ensures '/' !in r
    ensures |r| <= |s| && s[|s| - |r|..] == r
    ensures |r| < |s| ==> s[|s| - |r| - 1] == '/'
  {
    if s == [] then ""
    else if s[|s| - 1] == '/' then ""
    else
      var r' := LastSegment(s[..|s| - 1]);
      assert s[..|s| - 1][|s| - 1 - |r'|..] == s[|s| - 1 - |r'|..|s| - 1];
      r' + [s[|s| - 1]]
  }

  /** A string without `/` is its own last segment. */
  lemma {:induction false} LastSegmentOfPlain(s: string)
    requires '/' !in s
    ensures LastSegment(s) == s
  {
    if s != [] {
      assert '/' !in s[..|s| - 1];
      LastSegmentOfPlain(s[..|s| - 1]);
      assert s[..|s| - 1] + [s[|s| - 1]] == s;
    }
  }

  /** `extract_task_definition_name`: the "name:revision" part of a task-definition ARN. */
  function ExtractTaskDefinitionName(arn: string): (r: string)
    ensures '/' !in arn ==> r == arn
    ensures '/' in arn ==>
      '/' !in r && |r| < |arn| && arn == arn[..|arn| - |r|] + r && arn[|arn| - |r| - 1] == '/'
  {
    if '/' in arn then
      var r := LastSegment(arn);
      assert arn == arn[..|arn| - |r|] + arn[|arn| - |r|..];
      r
    else
      arn
  }

  /** One character of `re.sub(r"[^a-zA-Z0-9]", "_", s).lower()`. */
  function RewriteChar(c: char): (r: char)
    ensures IdChar(r)
    ensures IsUpper(c) ==> r as int == c as int + 32
    ensures IsLower(c) || IsDigit(c) ==> r == c
    ensures !IsAsciiLetter(c) && !IsDigit(c) ==> r == '_'
    ensures IsLower(r) <==> IsAsciiLetter(c)
  {
    if IsUpper(c) then (c as int + 32) as char
    else if IsLower(c) || IsDigit(c) then c
    else '_'
  }

  /** The substitution and lower-casing, character by character. */
  function Rewrite(s: string): (r: string)
    ensures |r| == |s| && IdAlphabet(r)
    ensures forall i :: 0 <= i < |s| ==> r[i] == RewriteChar(s[i])
  {
    seq(|s|, i requires 0 <= i < |s| => RewriteChar(s[i]))
  }

  /** `sanitize_metric_id`. */
  function SanitizeMetricId(s: string): string
  {
    var rewritten := Rewrite(s);
    if rewritten != [] && !IsAsciiLetter(rewritten[0]) then "m_" + rewritten else rewritten
  }

  /** The `m_` prefix is added exactly when the input is non-empty and does not start with an ASCII letter. */
  predicate NeedsPrefix(s: string) {
    s != [] && !IsAsciiLetter(s[0])
  }

  /**
   * The sanitized id is a legal query id, is empty exactly when the input
   * is, maps the input positionally after an optional `m_` prefix, and is
   * two characters longer exactly when that prefix was added.
   */
  lemma SanitizeMetricIdSpec(s: string)
    ensures IsMetricId(SanitizeMetricId(s))
    ensures SanitizeMetricId(s) == [] <==> s == []
    ensures |SanitizeMetricId(s)| == |s| + (if NeedsPrefix(s) then 2 else 0)
    ensures NeedsPrefix(s) ==> SanitizeMetricId(s)[..2] == "m_"
    ensures forall i :: 0 <= i < |s| ==>
      SanitizeMetricId(s)[|SanitizeMetricId(s)| - |s| + i] == RewriteChar(s[i])
  {
    var r := SanitizeMetricId(s);
    if NeedsPrefix(s) {
      assert !IsLower(Rewrite(s)[0]);
      assert r == "m_" + Rewrite(s);
      forall i | 0 <= i < |r| ensures IdChar(r[i]) {
        if i >= 2 { assert r[i] == Rewrite(s)[i - 2]; }
      }
    } else if s != [] {
      assert IsLower(Rewrite(s)[0]);
    }
  }

  /** A string that already is an id rewrites to itself. */
  lemma RewriteOfIdAlphabet(s: string)
    requires IdAlphabet(s)
    ensures Rewrite(s) == s
  {
  }

  /** Sanitizing a sanitized id changes nothing. */
  lemma SanitizeMetricIdIdempotent(s: string)
    ensures SanitizeMetricId(SanitizeMetricId(s)) == SanitizeMetricId(s)
  {
    var r := SanitizeMetricId(s);
    SanitizeMetricIdSpec(s);
    RewriteOfIdAlphabet(r);
    assert r != [] ==> IsAsciiLetter(Rewrite(r)[0]);
  }

  /** The vectors of the repository's tests, one lemma each. */
  lemma SanitizeMetricIdExamplePlain()
    ensures SanitizeMetricId("myservice") == "myservice"
  {
    assert Rewrite("myservice") == "myservice";
  }

  lemma SanitizeMetricIdExampleHyphens()
    ensures SanitizeMetricId("my-service") == "my_service"
  {
    assert Rewrite("my-service") == "my_service";
  }

  lemma SanitizeMetricIdExampleDots()
    ensures SanitizeMetricId("my.service") == "my_service"
  {
    assert Rewrite("my.service") == "my_service";
  }

  lemma SanitizeMetricIdExampleUppercase()
    ensures SanitizeMetricId("MyService") == "myservice"
  {
    assert Rewrite("MyService") == "myservice";
  }

  lemma SanitizeMetricIdExampleLeadingDigit()
    ensures SanitizeMetricId("123service") == "m_123service"
  {
    assert Rewrite("123service") == "123service";
  }

  lemma SanitizeMetricIdExampleComplex()
    ensures SanitizeMetricId("My-Service.Name:v1") == "my_service_name_v1"
  {
    assert Rewrite("My-Service.Name:v1") == "my_service_name_v1";
  }

  lemma SanitizeMetricIdExampleAllSpecial()
    ensures SanitizeMetricId("!@#$%") == "m______"
  {
    assert Rewrite("!@#$%") == "_____";
  }

  lemma SanitizeMetricIdExampleEmpty()
    ensures SanitizeMetricId("") == ""
  {
  }

  /** The name is what follows the `/` at position `k` when no later `/` occurs. */
  lemma ExtractTaskDefinitionNameAt(arn: string, k: nat)
    requires k < |arn| && arn[k] == '/' && '/' !in arn[k + 1..]
    ensures ExtractTaskDefinitionName(arn) == arn[k + 1..]
  {
    var r := ExtractTaskDefinitionName(arn);
    assert |arn| - |r| - 1 == k;
    assert arn[k + 1..] == arn[|arn| - |r|..];
  }

  /** The name is whatever follows a prefix ending in `/`, when it holds no `/` itself. */
  lemma ExtractTaskDefinitionNameAfter(prefix: string, name: string)
    requires prefix != [] && prefix[|prefix| - 1] == '/' && '/' !in name
    ensures ExtractTaskDefinitionName(prefix + name) == name
  {
    var arn := prefix + name;
    assert arn[|prefix| - 1 + 1..] == name;
    ExtractTaskDefinitionNameAt(arn, |prefix| - 1);
  }

  /** The ARN prefix of a task definition in the test account, up to and including its `/`. */
  const ExampleArnPrefix: string := "arn:aws:ecs:us-east-1:123456789:task-definition/"

  lemma ExtractTaskDefinitionNameExampleFullArn()
    ensures ExtractTaskDefinitionName(ExampleArnPrefix + "my-task:5") == "my-task:5"
  {
    var name := "my-task:5";
    assert forall i :: 0 <= i < |name| ==> name[i] != '/';
    ExtractTaskDefinitionNameAfter(ExampleArnPrefix, name);
  }

  lemma ExtractTaskDefinitionNameExampleNoRevision()
    ensures ExtractTaskDefinitionName(ExampleArnPrefix + "my-task") == "my-task"
  {
    var name := "my-task";
    assert forall i :: 0 <= i < |name| ==> name[i] != '/';
    ExtractTaskDefinitionNameAfter(ExampleArnPrefix, name);
  }

  lemma ExtractTaskDefinitionNameExampleHyphens()
    ensures ExtractTaskDefinitionName(ExampleArnPrefix + "my-complex-task-name:123") == "my-complex-task-name:123"
  {
    var name := "my-complex-task-name:123";
    assert forall i :: 0 <= i < |name| ==> name[i] != '/';
    ExtractTaskDefinitionNameAfter(ExampleArnPrefix, name);
  }

  lemma ExtractTaskDefinitionNameExamplePlain()
    ensures ExtractTaskDefinitionName("my-task:5") == "my-task:5"
    ensures ExtractTaskDefinitionName("") == ""
  {
    var a := "my-task:5";
    assert forall i :: 0 <= i < |a| ==> a[i] != '/';
  }
}
