/** The handbook page of the two-subject dashboard: the knowledge-unit
    search and the knowledge map. */
module HandbookSearch {
  import opened Wrappers
  import opened Text
  import opened Lists
  import opened Arith

  /** A handbook entry; the worked example, standard steps and pitfalls are
      display text the search does not read. */
  datatype KnowledgeUnit = KnowledgeUnit(
    id: string,
    topic: string,
    kind: string,
    tags: Option<seq<string>>,
    definition: Option<string>)

  /** `(k.tags || []).some(t => t.toLowerCase().includes(key))`. */
  predicate SomeTagContains(tags: seq<string>, key: string) {
    exists i :: 0 <= i < |tags| && Contains(Lower(tags[i]), key)
  }

  /** A unit matches when the key occurs in its topic, its kind, one of its
      tags or its definition (all lowercased); missing tags and definition
      count as none and as "". */
  predicate UnitMatches(key: string, k: KnowledgeUnit) {
    Contains(Lower(k.topic), key)
    || Contains(Lower(k.kind), key)
    || SomeTagContains(k.tags.GetOr([]), key)
    || Contains(Lower(k.definition.GetOr([])), key)
  }

  function MatchesKey(key: string): KnowledgeUnit -> bool {
    (k: KnowledgeUnit) => UnitMatches(key, k)
  }

  /** The `list` memo: a blank query shows the subject's units as they are;
      otherwise the query, lowercased but not trimmed, is the key. */
  function Search(base: seq<KnowledgeUnit>, q: string): seq<KnowledgeUnit> {
    if IsBlank(q) then base else Filter(base, MatchesKey(Lower(q)))
  }

  /** A blank or whitespace-only query gives back the list unchanged. */
  lemma BlankQueryKeepsAll(base: seq<KnowledgeUnit>, q: string)
    requires forall i :: 0 <= i < |q| ==> IsSpace(q[i])
    ensures Search(base, q) == base
  {
    BlankIffAllSpace(q);
  }

  /** The result is always drawn from the list in its order, and for a
      non-blank query holds exactly the matching units. */
  lemma SearchSpec(base: seq<KnowledgeUnit>, q: string)
    ensures IsSubsequence(Search(base, q), base)
    ensures !IsBlank(q) ==> forall k :: k in Search(base, q) <==> k in base && UnitMatches(Lower(q), k)
  {
    if IsBlank(q) {
      SubsequenceRefl(base);
    } else {
      var p := MatchesKey(Lower(q));
      FilterIsSubsequence(base, p);
      forall k ensures k in Search(base, q) <==> k in base && UnitMatches(Lower(q), k) {
        if k in base && UnitMatches(Lower(q), k) {
          var i :| 0 <= i < |base| && base[i] == k;
          assert p(base[i]);
        }
        if k in Search(base, q) {
          var i :| 0 <= i < |Search(base, q)| && Search(base, q)[i] == k;
          assert p(k);
        }
      }
    }
  }

  /** The key keeps the query's surrounding spaces: "ab" finds a unit whose
      topic is "ab" while "ab " does not. */
  lemma UntrimmedKeyMatters()
    ensures var u := KnowledgeUnit("u", "ab", "", None, None);
      Search([u], "ab") == [u] && Search([u], "ab ") == []
  {
    var u := KnowledgeUnit("u", "ab", "", None, None);
    NotBlank("ab");
    NotBlank("ab ");
    ExampleMatches();
    FilterOne(u, MatchesKey("ab"));
    FilterOne(u, MatchesKey("ab "));
    assert Search([u], "ab") == Filter([u], MatchesKey("ab"));
    assert Search([u], "ab ") == Filter([u], MatchesKey("ab "));
  }

  lemma ExampleMatches()
    ensures UnitMatches("ab", KnowledgeUnit("u", "ab", "", None, None))
    ensures !UnitMatches("ab ", KnowledgeUnit("u", "ab", "", None, None))
    ensures Lower("ab") == "ab" && Lower("ab ") == "ab "
  {
    LowerAb();
    assert "ab" <= "ab";
    ContainsNoLonger("ab", "ab ");
    ContainsNoLonger("", "ab ");
  }

  lemma NotBlank(q: string)
    requires q != [] && q[0] == 'a'
    ensures !IsBlank(q)
  {
    BlankIffAllSpace(q);
    assert !IsSpace(q[0]);
  }

  lemma LowerAb()
    ensures Lower("ab") == "ab" && Lower("ab ") == "ab " && Lower("") == ""
  {
    assert Lower("ab")[0] == 'a' && Lower("ab")[1] == 'b';
    assert Lower("ab ")[0] == 'a' && Lower("ab ")[1] == 'b' && Lower("ab ")[2] == ' ';
  }

  /** One tile of the knowledge map: topic, kind and at most two tags. */
  datatype MapTile = MapTile(topic: string, kind: string, tags: seq<string>)

  /** The knowledge map lists every unit of the subject, whatever the query,
      each with its first two tags. */
  function KnowledgeMap(base: seq<KnowledgeUnit>): (m: seq<MapTile>)
    ensures |m| == |base|
    ensures forall i :: 0 <= i < |base| ==>
      m[i].topic == base[i].topic && m[i].kind == base[i].kind
      && |m[i].tags| == Min(2, |base[i].tags.GetOr([])|) && m[i].tags == base[i].tags.GetOr([])[..|m[i].tags|]
  {
    if base == [] then []
    else [MapTile(base[0].topic, base[0].kind, Take(base[0].tags.GetOr([]), 2))] + KnowledgeMap(base[1..])
  }
}
