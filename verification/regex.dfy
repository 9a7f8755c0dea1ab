/** The regular expressions of the bot, as data.

    A pattern made only of literal alternatives under `(?i)` / `re.IGNORECASE` is matched
    here as case-insensitive substring containment. Every other pattern (one with `\s+`,
    `\d`, optional groups, anchors) is `Opaque`: what it matches is decided by the regex
    engine, which the model takes as a parameter. */
module Regex {
  import opened Text

  /** Python's `re.findall(pattern, text)` (or the `group(0)` texts of `re.finditer`),
      keyed by the pattern's source text as written in the bot. */
  type Engine = (string, string) -> seq<string>

  datatype Pattern =
    | Literal(source: string, alternatives: seq<string>)  // alternatives in lower case
    | Opaque(source: string)

  /** `re.search(p, text)` is not None. */
  predicate Search(engine: Engine, p: Pattern, text: string)
  {
    match p
    case Literal(_, alts) => exists k | 0 <= k < |alts| :: Contains(Lower(text), alts[k])
    case Opaque(src) => engine(src, text) != []
  }

  /** How many patterns of `ps` occur in `text` (each counted once, however often it occurs). */
  function MatchCount(engine: Engine, ps: seq<Pattern>, text: string): (n: nat)
    ensures n <= |ps|
  {
    if ps == [] then 0
    else MatchCount(engine, ps[..|ps| - 1], text) + (if Search(engine, ps[|ps| - 1], text) then 1 else 0)
  }

  /** How many of `terms` are substrings of `s`. */
  function TermCount(terms: seq<string>, s: string): (n: nat)
    ensures n <= |terms|
  {
    if terms == [] then 0
    else TermCount(terms[..|terms| - 1], s) + (if Contains(s, terms[|terms| - 1]) then 1 else 0)
  }

  /** The counts depend only on WHICH patterns occur, never on how often: two texts in
      which the same patterns occur get the same count. */
  lemma {:induction false} MatchCountDependsOnlyOnWhichMatch(engine: Engine, ps: seq<Pattern>, t1: string, t2: string)
    requires forall k :: 0 <= k < |ps| ==> (Search(engine, ps[k], t1) <==> Search(engine, ps[k], t2))
    ensures MatchCount(engine, ps, t1) == MatchCount(engine, ps, t2)
  {
    if ps != [] {
      MatchCountDependsOnlyOnWhichMatch(engine, ps[..|ps| - 1], t1, t2);
    }
  }

  lemma {:induction false} MatchCountZero(engine: Engine, ps: seq<Pattern>, text: string)
    ensures MatchCount(engine, ps, text) == 0 <==> forall k :: 0 <= k < |ps| ==> !Search(engine, ps[k], text)
  {
    if ps != [] {
      MatchCountZero(engine, ps[..|ps| - 1], text);
      assert forall k :: 0 <= k < |ps| - 1 ==> ps[..|ps| - 1][k] == ps[k];
    }
  }

  /** `TermCount` is the number of DISTINCT listed terms present. */
  lemma {:induction false} TermCountIsSetSize(terms: seq<string>, s: string)
    ensures TermCount(terms, s) == |set k | 0 <= k < |terms| && Contains(s, terms[k])|
  {
    if terms != [] {
      TermCountIsSetSize(terms[..|terms| - 1], s);
      TermSetSnoc(terms, s);
    }
  }

  /** The set of present terms grows by the last index exactly when the last term is present. */
  lemma TermSetSnoc(terms: seq<string>, s: string)
    requires terms != []
    ensures var n := |terms| - 1;
            |set k | 0 <= k < |terms| && Contains(s, terms[k])|
            == |set k | 0 <= k < n && Contains(s, terms[..n][k])| + (if Contains(s, terms[n]) then 1 else 0)
  {
    var n := |terms| - 1;
    var a := set k | 0 <= k < n && Contains(s, terms[..n][k]);
    var b := set k | 0 <= k < |terms| && Contains(s, terms[k]);
    assert a == set k | 0 <= k < n && Contains(s, terms[k]);
    if Contains(s, terms[n]) {
      assert b == a + {n};
    } else {
      assert b == a;
    }
  }

  /** `MatchCount` is the number of DISTINCT patterns that occur. */
  lemma {:induction false} MatchCountIsSetSize(engine: Engine, ps: seq<Pattern>, text: string)
    ensures MatchCount(engine, ps, text) == |set k | 0 <= k < |ps| && Search(engine, ps[k], text)|
  {
    if ps != [] {
      MatchCountIsSetSize(engine, ps[..|ps| - 1], text);
      MatchSetSnoc(engine, ps, text);
    }
  }

  /** The set of occurring patterns grows by the last index exactly when the last pattern occurs. */
  lemma MatchSetSnoc(engine: Engine, ps: seq<Pattern>, text: string)
    requires ps != []
    ensures var n := |ps| - 1;
            |set k | 0 <= k < |ps| && Search(engine, ps[k], text)|
            == |set k | 0 <= k < n && Search(engine, ps[..n][k], text)| + (if Search(engine, ps[n], text) then 1 else 0)
  {
    var n := |ps| - 1;
    var a := set k | 0 <= k < n && Search(engine, ps[..n][k], text);
    var b := set k | 0 <= k < |ps| && Search(engine, ps[k], text);
    assert a == set k | 0 <= k < n && Search(engine, ps[k], text);
    if Search(engine, ps[n], text) {
      assert b == a + {n};
    } else {
      assert b == a;
    }
  }
}
