/**
 * Lenient extraction of the JSON payload from a model's free-text reply:
 * the handlers run the regular expression `/\{[\s\S]*\}/` over the reply
 * and hand the match, or the whole reply when nothing matches, to
 * `JSON.parse`.  `JSON.parse` itself is a parameter here: an arbitrary
 * partial function from text to a parsed task set.
 */
module Extraction {
  import opened Common
  import opened Tasks

  /** `s[i..j+1]` is a candidate match: it opens with `{` and closes with `}`. */
  ghost predicate BracePair(s: string, i: int, j: int)
  {
    0 <= i < j < |s| && s[i] == '{' && s[j] == '}'
  }

  /**
   * The match a backtracking regex engine returns for `\{[\s\S]*\}`: the
   * candidate that starts leftmost and, among those, extends furthest
   * (the `*` is greedy).
   */
  ghost predicate LeftmostLongest(s: string, i: int, j: int)
  {
    BracePair(s, i, j) &&
    forall i', j' :: BracePair(s, i', j') ==> i < i' || (i == i' && j' <= j)
  }

  function FirstIndexOf(s: string, c: char): (r: Option<nat>)
    ensures r.None? ==> forall k :: 0 <= k < |s| ==> s[k] != c
    ensures r.Some? ==> r.value < |s| && s[r.value] == c
    ensures r.Some? ==> forall k :: 0 <= k < r.value ==> s[k] != c
  {
    if s == [] then None
    else if s[0] == c then Some(0)
    else match FirstIndexOf(s[1..], c)
      case None => None
      case Some(k) => Some(k + 1)
  }

  function LastIndexOf(s: string, c: char): (r: Option<nat>)
    ensures r.None? ==> forall k :: 0 <= k < |s| ==> s[k] != c
    ensures r.Some? ==> r.value < |s| && s[r.value] == c
    ensures r.Some? ==> forall k :: r.value < k < |s| ==> s[k] != c
  {
    if s == [] then None
    else if s[|s| - 1] == c then Some(|s| - 1)
    else LastIndexOf(s[..|s| - 1], c)
  }

  /**
   * `s.match(/\{[\s\S]*\}/)`: from the first `{` to the last `}`, when that
   * `}` comes after the `{`; no match otherwise.
   */
  function BraceMatch(s: string): (r: Option<string>)
    ensures r.None? <==> forall i, j :: !BracePair(s, i, j)
    ensures r.Some? ==> exists i, j :: LeftmostLongest(s, i, j) && r.value == s[i..j + 1]
  {
    match FirstIndexOf(s, '{')
    case None => None
    case Some(i) =>
      match LastIndexOf(s, '}')
      case None => None
      case Some(j) =>
        if i < j then
          assert LeftmostLongest(s, i, j);
          Some(s[i..j + 1])
        else None
  }

  /** The text handed to `JSON.parse`: the match, or the whole reply when there is none. */
  function ParseTarget(content: string): (r: string)
    ensures (forall i, j :: !BracePair(content, i, j)) ==> r == content
    ensures (exists i, j :: BracePair(content, i, j)) ==>
              exists i, j :: LeftmostLongest(content, i, j) && r == content[i..j + 1]
  {
    match BraceMatch(content)
    case Some(m) => m
    case None => content
  }

  /** Lines 64-77 of either route: extract, then parse; `None` is the parse failure. */
  function Extract(content: string, parse: string -> Option<TaskSet>): Option<TaskSet>
  {
    parse(ParseTarget(content))
  }

  /** Two leftmost-longest matches of the same text are the same match. */
  lemma LeftmostLongestUnique(s: string, i: int, j: int, i2: int, j2: int)
    requires LeftmostLongest(s, i, j) && LeftmostLongest(s, i2, j2)
    ensures i == i2 && j == j2
  {
  }

  /**
   * A JSON object surrounded by prose is found exactly: when the text
   * before it holds no `{` and the text after it no `}`, the match is the
   * object itself, whatever braces the object holds inside.
   */
  lemma EmbeddedObjectIsSelected(pre: string, obj: string, post: string)
    requires |obj| >= 2 && obj[0] == '{' && obj[|obj| - 1] == '}'
    requires forall k :: 0 <= k < |pre| ==> pre[k] != '{'
    requires forall k :: 0 <= k < |post| ==> post[k] != '}'
    ensures ParseTarget(pre + obj + post) == obj
  {
    var s := pre + obj + post;
    var a, b := |pre|, |pre| + |obj| - 1;
    assert s[a] == obj[0] && s[b] == obj[|obj| - 1];
    assert BracePair(s, a, b);
    var m := BraceMatch(s);
    assert m.Some?;
    var i, j :| LeftmostLongest(s, i, j) && m.value == s[i..j + 1];
    assert i == a;
    assert j == b;
    assert s[a..b + 1] == obj;
  }
}
