/**
 * The citation suffix the retrieval page appends to an answer: the `source`
 * of every retrieved context document, each once, in the order of first
 * appearance, joined with ", " after a "Source" marker.
 */
module Citations {
  import opened Common
  import opened Strings

  /** The text placed between the answer and the list of sources. */
  const SourceMarker: string := "\n\n\U{1F4CC} Source: "

  /** The separator of the list of sources. */
  const SourceSeparator: string := ", "

  /** The `metadata['source']` of each context document, in context order. */
  function SourcesOf(context: seq<Document>): seq<string>
  {
    seq(|context|, i requires 0 <= i < |context| => context[i].source)
  }

  /** No element occurs twice. */
  predicate NoDuplicates(s: seq<string>)
  {
    forall i, j :: 0 <= i < j < |s| ==> s[i] != s[j]
  }

  /** The elements of `s`, each kept at its first occurrence only. */
  function Dedup(s: seq<string>): (r: seq<string>)
    ensures NoDuplicates(r)
    ensures forall x :: x in r <==> x in s
    decreases |s|
  {
    if s == [] then []
    else
      var kept := Dedup(s[..|s| - 1]);
      var last := s[|s| - 1];
      if last in kept then kept else kept + [last]
  }

  /** The position of the first occurrence of `x` in `s`. */
  function FirstIndex(s: seq<string>, x: string): (k: nat)
    requires x in s
    ensures k < |s| && s[k] == x && x !in s[..k]
    decreases |s|
  {
    if s[0] == x then 0 else 1 + FirstIndex(s[1..], x)
  }

  /** Extending a sequence does not move the first occurrence of an element it already had. */
  lemma FirstIndexInPrefix(s: seq<string>, n: nat, x: string)
    requires n <= |s| && x in s[..n]
    ensures FirstIndex(s, x) == FirstIndex(s[..n], x)
  {
  }

  /** The kept elements appear in the order of their first occurrence. */
  lemma {:induction false} DedupKeepsFirstOccurrenceOrder(s: seq<string>)
    ensures forall i, j :: 0 <= i < j < |Dedup(s)| ==>
              FirstIndex(s, Dedup(s)[i]) < FirstIndex(s, Dedup(s)[j])
    decreases |s|
  {
    if s != [] {
      var n := |s| - 1;
      var p := s[..n];
      DedupKeepsFirstOccurrenceOrder(p);
      assert forall x :: x in p ==> x in s;
      forall i | 0 <= i < |Dedup(p)|
        ensures FirstIndex(s, Dedup(p)[i]) == FirstIndex(p, Dedup(p)[i])
      {
        FirstIndexInPrefix(s, n, Dedup(p)[i]);
      }
      if s[n] !in Dedup(p) {
        assert s[n] !in p;
        assert FirstIndex(s, s[n]) == n;
      }
    }
  }

  /**
   * The loop of the retrieval page that collects the sources of the context
   * documents, skipping a source already collected.
   */
  method CollectSources(context: seq<Document>) returns (sources: seq<string>)
    ensures sources == Dedup(SourcesOf(context))
    ensures NoDuplicates(sources)
    ensures forall d :: d in context ==> d.source in sources
    ensures forall x :: x in sources ==> exists d :: d in context && d.source == x
  {
    ghost var all := SourcesOf(context);
    sources := [];
    var i := 0;
    while i < |context|
      invariant 0 <= i <= |context|
      invariant sources == Dedup(all[..i])
    {
      assert all[..i + 1][..i] == all[..i];
      if context[i].source !in sources {
        sources := sources + [context[i].source];
      }
      i := i + 1;
    }
    assert all[..|context|] == all;
    forall d | d in context ensures d.source in sources {
      var k :| 0 <= k < |context| && context[k] == d;
      assert all[k] == d.source;
    }
    forall x | x in sources ensures exists d :: d in context && d.source == x {
      var k :| 0 <= k < |all| && all[k] == x;
      assert context[k] in context;
    }
  }

  /**
   * The recorded answer: the model's answer, unchanged, followed by the
   * marker and the joined sources and nothing else; with no sources the text
   * ends in the marker.
   */
  function CitedAnswer(answer: string, sources: seq<string>): (r: string)
    ensures |r| >= |answer| + |SourceMarker|
    ensures r[..|answer|] == answer
    ensures r[|answer|..|answer| + |SourceMarker|] == SourceMarker
    ensures r[|answer| + |SourceMarker|..] == Join(SourceSeparator, sources)
    ensures sources == [] ==> r == answer + SourceMarker
  {
    answer + SourceMarker + Join(SourceSeparator, sources)
  }

  /** `x` occurs in `text` as a contiguous piece. */
  ghost predicate Occurs(x: string, text: string)
  {
    exists k :: OccursAt(x, text, k)
  }

  /** `x` occurs in `text` starting at position `k`. */
  ghost predicate OccursAt(x: string, text: string, k: int)
  {
    0 <= k <= |text| - |x| && text[k..k + |x|] == x
  }

  /** Every joined item occurs in the joined text. */
  lemma {:induction false} JoinedItemOccurs(sep: string, items: seq<string>, i: nat)
    requires i < |items|
    ensures Occurs(items[i], Join(sep, items))
    decreases |items|
  {
    var j := Join(sep, items);
    var x := items[i];
    if |items| == 1 {
      assert OccursAt(x, j, 0);
    } else {
      var init := items[..|items| - 1];
      var ji := Join(sep, init);
      assert j == ji + sep + items[|items| - 1];
      if i == |items| - 1 {
        var k := |ji| + |sep|;
        assert OccursAt(x, j, k);
      } else {
        JoinedItemOccurs(sep, init, i);
        var k :| OccursAt(init[i], ji, k);
        assert j[k..k + |x|] == ji[k..k + |x|];
        assert OccursAt(x, j, k);
      }
    }
  }

  /** Every source named by the context appears in the citation suffix. */
  lemma EverySourceIsCited(answer: string, context: seq<Document>, d: Document)
    requires d in context
    ensures Occurs(d.source, CitedAnswer(answer, Dedup(SourcesOf(context)))[|answer| + |SourceMarker|..])
  {
    var sources := Dedup(SourcesOf(context));
    var k :| 0 <= k < |context| && context[k] == d;
    assert SourcesOf(context)[k] == d.source;
    assert d.source in sources;
    var i :| 0 <= i < |sources| && sources[i] == d.source;
    JoinedItemOccurs(SourceSeparator, sources, i);
    assert CitedAnswer(answer, sources)[|answer| + |SourceMarker|..] == Join(SourceSeparator, sources);
  }
}
