/** The "Document Sources" summary appended to a grounded answer: one line per
    distinct `source` among the retrieved contexts, in order of first
    appearance, built by a loop that keeps a `seen_sources` set. */
module Sources {
  import opened Documents

  /** `"\n\n### 📚 Document Sources:\n"` with the emoji's code points as the
      source file holds them. */
  const SourcesHeader := "\n\n### \U{F0}\U{178}\U{201C}\U{161} Document Sources:\n"

  /** The sources occurring in a list of contexts. */
  function SourceSet(cs: seq<Context>): (r: set<MetaValue>)
    ensures forall i :: 0 <= i < |cs| ==> cs[i].source in r
    decreases |cs|
  {
    if |cs| == 0 then {} else SourceSet(cs[..|cs| - 1]) + {cs[|cs| - 1].source}
  }

  /** Every source in the set is carried by some context. */
  lemma {:induction false} SourceSetWitness(cs: seq<Context>, v: MetaValue) returns (i: nat)
    requires v in SourceSet(cs)
    ensures i < |cs| && cs[i].source == v
    decreases |cs|
  {
    var p := cs[..|cs| - 1];
    if v in SourceSet(p) {
      i := SourceSetWitness(p, v);
    } else {
      i := |cs| - 1;
    }
  }

  /** Position of the first context carrying source `v`. */
  function FirstIndexOf(cs: seq<Context>, v: MetaValue): (i: nat)
    requires v in SourceSet(cs)
    ensures i < |cs| && cs[i].source == v
    ensures forall j :: 0 <= j < i ==> cs[j].source != v
    decreases |cs|
  {
    var p := cs[..|cs| - 1];
    if v in SourceSet(p) then FirstIndexOf(p, v) else |cs| - 1
  }

  /** The contexts that the summary loop reports: each one whose source was not
      seen earlier in the list. */
  function FirstPerSource(cs: seq<Context>): (r: seq<Context>)
    ensures |r| <= |cs|
    decreases |cs|
  {
    if |cs| == 0 then []
    else
      var p := cs[..|cs| - 1];
      FirstPerSource(p) + (if cs[|cs| - 1].source in SourceSet(p) then [] else [cs[|cs| - 1]])
  }

  /** The summary names every source of the contexts and no other. */
  lemma {:induction false} FirstPerSourceCoversSources(cs: seq<Context>)
    ensures SourceSet(FirstPerSource(cs)) == SourceSet(cs)
    decreases |cs|
  {
    if |cs| > 0 {
      var p := cs[..|cs| - 1];
      FirstPerSourceCoversSources(p);
      SourceSetAppend(FirstPerSource(p), if cs[|cs| - 1].source in SourceSet(p) then [] else [cs[|cs| - 1]]);
    }
  }

  lemma SourceSetAppend(a: seq<Context>, b: seq<Context>)
    ensures SourceSet(a + b) == SourceSet(a) + SourceSet(b)
  {
    var ab := a + b;
    forall v | v in SourceSet(ab) ensures v in SourceSet(a) + SourceSet(b) {
      var i := SourceSetWitness(ab, v);
      if i >= |a| { assert b[i - |a|] == ab[i]; }
    }
    forall v | v in SourceSet(a) + SourceSet(b) ensures v in SourceSet(ab) {
      if v in SourceSet(a) {
        var i := SourceSetWitness(a, v);
        assert ab[i] == a[i];
      } else {
        var i := SourceSetWitness(b, v);
        assert ab[|a| + i] == b[i];
      }
    }
  }

  /** No source is reported twice. */
  lemma {:induction false} FirstPerSourceDistinct(cs: seq<Context>)
    ensures forall m, n :: 0 <= m < n < |FirstPerSource(cs)| ==>
      FirstPerSource(cs)[m].source != FirstPerSource(cs)[n].source
    decreases |cs|
  {
    if |cs| > 0 {
      var p := cs[..|cs| - 1];
      FirstPerSourceDistinct(p);
      FirstPerSourceCoversSources(p);
      var r, rp := FirstPerSource(cs), FirstPerSource(p);
      forall m, n | 0 <= m < n < |r| ensures r[m].source != r[n].source {
        if n >= |rp| {
          assert r[n] == cs[|cs| - 1] && cs[|cs| - 1].source !in SourceSet(p);
          assert r[m] == rp[m] && rp[m].source in SourceSet(rp);
        } else {
          assert r[m] == rp[m] && r[n] == rp[n];
        }
      }
    }
  }

  /** Each reported context is the first one carrying its source. */
  lemma {:induction false} FirstPerSourceIsFirst(cs: seq<Context>)
    ensures forall m :: 0 <= m < |FirstPerSource(cs)| ==>
      FirstPerSource(cs)[m].source in SourceSet(cs) &&
      FirstPerSource(cs)[m] == cs[FirstIndexOf(cs, FirstPerSource(cs)[m].source)]
    decreases |cs|
  {
    if |cs| > 0 {
      var p := cs[..|cs| - 1];
      FirstPerSourceIsFirst(p);
      FirstPerSourceCoversSources(p);
      FirstPerSourceCoversSources(cs);
      var r, rp := FirstPerSource(cs), FirstPerSource(p);
      forall m | 0 <= m < |r|
        ensures r[m].source in SourceSet(cs) && r[m] == cs[FirstIndexOf(cs, r[m].source)]
      {
        assert r[m].source in SourceSet(r);
        if m < |rp| {
          assert r[m] == rp[m];
          assert rp[m].source in SourceSet(rp);
          assert FirstIndexOf(cs, r[m].source) == FirstIndexOf(p, r[m].source);
        } else {
          assert r[m] == cs[|cs| - 1];
        }
      }
    }
  }

  /** The reports follow the order in which the sources first appear. */
  lemma {:induction false} FirstPerSourceOrdered(cs: seq<Context>)
    ensures forall m, n :: 0 <= m < n < |FirstPerSource(cs)| ==>
      FirstPerSource(cs)[m].source in SourceSet(cs) && FirstPerSource(cs)[n].source in SourceSet(cs) &&
      FirstIndexOf(cs, FirstPerSource(cs)[m].source) < FirstIndexOf(cs, FirstPerSource(cs)[n].source)
    decreases |cs|
  {
    if |cs| > 0 {
      var p := cs[..|cs| - 1];
      FirstPerSourceOrdered(p);
      FirstPerSourceCoversSources(p);
      FirstPerSourceCoversSources(cs);
      var r, rp := FirstPerSource(cs), FirstPerSource(p);
      forall m, n | 0 <= m < n < |r|
        ensures r[m].source in SourceSet(cs) && r[n].source in SourceSet(cs)
        ensures FirstIndexOf(cs, r[m].source) < FirstIndexOf(cs, r[n].source)
      {
        assert r[m].source in SourceSet(r) && r[n].source in SourceSet(r);
        assert r[m] == rp[m] && rp[m].source in SourceSet(rp);
        assert FirstIndexOf(cs, r[m].source) == FirstIndexOf(p, r[m].source);
        if n < |rp| {
          assert r[n] == rp[n] && rp[n].source in SourceSet(rp);
          assert FirstIndexOf(cs, r[n].source) == FirstIndexOf(p, r[n].source);
        } else {
          assert r[n] == cs[|cs| - 1] && r[n].source !in SourceSet(p);
          assert FirstIndexOf(cs, r[n].source) == |cs| - 1;
          assert FirstIndexOf(p, r[m].source) < |p|;
        }
      }
    } else {
      assert |FirstPerSource(cs)| == 0;
    }
  }

  /** A list of contexts with pairwise different sources has as many sources as
      entries. */
  lemma {:induction false} DistinctSourcesCount(cs: seq<Context>)
    requires forall m, n :: 0 <= m < n < |cs| ==> cs[m].source != cs[n].source
    ensures |SourceSet(cs)| == |cs|
    decreases |cs|
  {
    if |cs| > 0 {
      var p := cs[..|cs| - 1];
      DistinctSourcesCount(p);
      if cs[|cs| - 1].source in SourceSet(p) {
        var i := SourceSetWitness(p, cs[|cs| - 1].source);
        assert false;
      }
    }
  }

  /** The summary has exactly one line per distinct source. */
  lemma FirstPerSourceCount(cs: seq<Context>)
    ensures |FirstPerSource(cs)| == |SourceSet(cs)|
  {
    FirstPerSourceDistinct(cs);
    FirstPerSourceCoversSources(cs);
    DistinctSourcesCount(FirstPerSource(cs));
  }

  /** `round((1 - score) * 100, 2)` before rounding. */
  function RelevancePercent(score: real): real
  {
    (1.0 - score) * 100.0
  }

  /** One summary line; `render` stands for rounding to two places and
      printing the float. */
  function SourceLine(c: Context, render: real -> string): (line: string)
    ensures |line| > 0
  {
    "- " + Show(c.source) + " (Relevance: " + render(RelevancePercent(c.relevanceScore)) + "%)\n"
  }

  function SummaryLines(cs: seq<Context>, render: real -> string): (lines: string)
    ensures |lines| == 0 <==> |cs| == 0
    decreases |cs|
  {
    if |cs| == 0 then "" else SummaryLines(cs[..|cs| - 1], render) + SourceLine(cs[|cs| - 1], render)
  }

  /** Extending the contexts by one: the summary gains that context's line
      exactly when its source is new. */
  lemma SummaryPrefix(cs: seq<Context>, i: nat, render: real -> string)
    requires i < |cs|
    ensures SummaryLines(FirstPerSource(cs[..i + 1]), render) ==
      SummaryLines(FirstPerSource(cs[..i]), render) +
      (if cs[i].source in SourceSet(cs[..i]) then "" else SourceLine(cs[i], render))
  {
    var p := cs[..i + 1];
    assert p[..|p| - 1] == cs[..i] && p[|p| - 1] == cs[i];
    if cs[i].source !in SourceSet(cs[..i]) {
      var r := FirstPerSource(cs[..i]);
      assert FirstPerSource(p) == r + [cs[i]];
      assert (r + [cs[i]])[..|r|] == r;
    } else {
      assert FirstPerSource(p) == FirstPerSource(cs[..i]);
    }
  }

  /** The whole summary text for a list of contexts. */
  function SourceSummary(cs: seq<Context>, render: real -> string): (summary: string)
    ensures |summary| >= |SourcesHeader| && summary[..|SourcesHeader|] == SourcesHeader
  {
    SourcesHeader + SummaryLines(FirstPerSource(cs), render)
  }

  /** One iteration of the summary loop: the summary grows by the context's
      line exactly when its source is new. */
  lemma SummaryStep(cs: seq<Context>, i: nat, render: real -> string)
    requires i < |cs|
    ensures SourceSet(cs[..i + 1]) == SourceSet(cs[..i]) + {cs[i].source}
    ensures SourceSummary(cs[..i + 1], render) ==
      SourceSummary(cs[..i], render) +
      (if cs[i].source in SourceSet(cs[..i]) then "" else SourceLine(cs[i], render))
  {
    var p := cs[..i + 1];
    assert p[..|p| - 1] == cs[..i] && p[|p| - 1] == cs[i];
    SummaryPrefix(cs, i, render);
    var lines := SummaryLines(FirstPerSource(cs[..i]), render);
    var extra := if cs[i].source in SourceSet(cs[..i]) then "" else SourceLine(cs[i], render);
    assert SourcesHeader + (lines + extra) == (SourcesHeader + lines) + extra;
  }

  /** The summary loop of `query`, with its `seen_sources` set. */
  method BuildSourceSummary(contexts: seq<Context>, render: real -> string) returns (summary: string)
    ensures summary == SourceSummary(contexts, render)
  {
    summary := SourcesHeader;
    var seen: set<MetaValue> := {};
    for i := 0 to |contexts|
      invariant seen == SourceSet(contexts[..i])
      invariant summary == SourceSummary(contexts[..i], render)
    {
      var source := contexts[i].source;
      SummaryStep(contexts, i, render);
      if source !in seen {
        summary := summary + SourceLine(contexts[i], render);
        seen := seen + {source};
      }
    }
    assert contexts[..|contexts|] == contexts;
  }
}
