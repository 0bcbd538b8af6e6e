/** The decision logic of `query` and `_query_without_context`: which path a
    question takes (out-of-domain refusal, fallback answer, grounded answer or
    error text) and how each answer string is put together.

    Every call into the language model or the vector store is an oracle: its
    outcome is a field of `QueryOracle`, one per call site, so the two
    classification calls of the fallback path may disagree. The `steps` of a
    result record which external calls were reached, in order. */
module Answers {
  import opened Wrappers
  import opened Text
  import opened Documents
  import opened TopicGate
  import opened Sources

  /** The warning sign that opens two fixed messages, with the code points the
      source file holds (the UTF-8 bytes of the emoji read as Windows-1252). */
  const WarningSign := "\U{E2}\U{161}\U{A0}\U{EF}\U{B8}"

  const OutOfContextMessage := WarningSign + " **Out of Context**: This question appears to be unrelated to medicine, healthcare, "
    + "or medical science. Please ask medical or health-related questions only."

  const NoLiteratureNote := "\n\n" + WarningSign
    + " **Note**: No medical literature loaded. Response based on general medical knowledge only."

  const GenerationErrorPrefix := "Error generating response: "

  const QueryErrorPrefix := "Error processing query: "

  /** The prompts sent for generation; their template text is not modelled. */
  datatype Prompt =
    | FallbackPrompt(question: string)
    | GroundedPrompt(question: string, contextText: string, k: int)

  /** An external call made while answering. */
  datatype Step =
    | Classify(question: string)
    | CountEntries
    | Search(question: string, k: int)
    | Generate(prompt: Prompt)

  /** What each external call of one `query` returns; `Err` means it raised. */
  datatype QueryOracle = QueryOracle(
    gate: Reply,                // first `_is_medical_question` call
    countError: Option<string>, // `_collection.count()`
    search: Result<seq<Hit>>,   // `similarity_search_with_score`
    chain: Reply,               // the `RetrievalQA` chain's `result`
    fallbackGate: Reply,        // the classification repeated by the fallback
    fallback: Reply)            // the fallback generation

  datatype QueryResult = QueryResult(answer: string, steps: seq<Step>)

  predicate IsGrounded(s: Step)
  {
    s.Generate? && s.prompt.GroundedPrompt?
  }

  function Blocks(cs: seq<Context>): (r: seq<string>)
    ensures |r| == |cs|
  {
    seq(|cs|, i requires 0 <= i < |cs| => ContextBlock(cs[i]))
  }

  /** One entry of the `context_text` comprehension. */
  function ContextBlock(c: Context): (block: string)
    ensures IsInfix(Show(c.source), block) && IsInfix(c.content, block)
  {
    var head := "Source: " + Show(c.source) + "\nContent: ";
    assert OccursAt(Show(c.source), head + c.content, 8);
    assert OccursAt(c.content, head + c.content, |head|);
    head + c.content
  }

  /** `context_text`: the blocks joined by blank lines. */
  function ContextText(cs: seq<Context>): (text: string)
    ensures |cs| == 0 ==> text == ""
    ensures |cs| == 1 ==> text == ContextBlock(cs[0])
  {
    Join(Blocks(cs), "\n\n")
  }

  /** The grounded prompt carries every retrieved context in full. */
  lemma ContextTextHasEveryContext(cs: seq<Context>, i: nat)
    requires i < |cs|
    ensures IsInfix(ContextBlock(cs[i]), ContextText(cs))
  {
    JoinKeepsPart(Blocks(cs), "\n\n", i);
  }

  /** Prefix `before` to the steps of `r`. */
  function After(before: seq<Step>, r: QueryResult): QueryResult
  {
    QueryResult(r.answer, before + r.steps)
  }

  /** `_query_without_context`. */
  function QueryWithoutContext(question: string, o: QueryOracle): (r: QueryResult)
    ensures 1 <= |r.steps| <= 2 && r.steps[0] == Classify(question)
    ensures |r.steps| == 2 ==> r.steps[1] == Generate(FallbackPrompt(question))
  {
    if !IsMedicalQuestion(o.fallbackGate) then
      QueryResult(OutOfContextMessage, [Classify(question)])
    else
      var steps := [Classify(question), Generate(FallbackPrompt(question))];
      match o.fallback
      case Ok(content) => QueryResult(content + NoLiteratureNote, steps)
      case Err(e) => QueryResult(GenerationErrorPrefix + e, steps)
  }

  /** `query` on a store holding `store` (`None`: no vector store). */
  function QueryOutcome(question: string, k: int, store: Option<seq<Doc>>, o: QueryOracle,
                        render: real -> string): (r: QueryResult)
    ensures |r.steps| >= 1 && r.steps[0] == Classify(question)
  {
    var gated := [Classify(question)];
    if !IsMedicalQuestion(o.gate) then
      QueryResult(OutOfContextMessage, gated)
    else if store.None? then
      After(gated, QueryWithoutContext(question, o))
    else
      var counted := gated + [CountEntries];
      match o.countError
      case Some(e) => QueryResult(QueryErrorPrefix + e, counted)
      case None =>
        if |store.value| == 0 then
          After(counted, QueryWithoutContext(question, o))
        else
          var searched := counted + [Search(question, k)];
          match o.search
          case Err(e) => QueryResult(QueryErrorPrefix + e, searched)
          case Ok(hits) =>
            var contexts := ToContexts(hits);
            if |contexts| == 0 then
              After(searched, QueryWithoutContext(question, o))
            else
              var generated := searched + [Generate(GroundedPrompt(question, ContextText(contexts), k))];
              match o.chain
              case Err(e) => QueryResult(QueryErrorPrefix + e, generated)
              case Ok(response) => QueryResult(response + SourceSummary(contexts, render), generated)
  }

  /** The fallback's answer: the out-of-context message when the repeated
      classification refuses, else the generated text followed by the fixed
      note, or the generation error behind its prefix. */
  lemma FallbackFormat(question: string, o: QueryOracle)
    ensures var r := QueryWithoutContext(question, o);
      && (!IsMedicalQuestion(o.fallbackGate) ==> r.answer == OutOfContextMessage && r.steps == [Classify(question)])
      && (IsMedicalQuestion(o.fallbackGate) && o.fallback.Ok? ==>
            r.answer == o.fallback.value + NoLiteratureNote &&
            r.steps == [Classify(question), Generate(FallbackPrompt(question))])
      && (IsMedicalQuestion(o.fallbackGate) && o.fallback.Err? ==>
            r.answer == GenerationErrorPrefix + o.fallback.message &&
            r.steps == [Classify(question), Generate(FallbackPrompt(question))])
  {
  }

  /** An out-of-domain verdict stops `query` after the classification: no count,
      search or generation is reached and the fixed refusal is returned. */
  lemma OutOfDomainShortCircuit(question: string, k: int, store: Option<seq<Doc>>, o: QueryOracle,
                                render: real -> string)
    requires !IsMedicalQuestion(o.gate)
    ensures QueryOutcome(question, k, store, o, render) == QueryResult(OutOfContextMessage, [Classify(question)])
  {
  }

  /** With no store, or an empty one, `query` answers through the fallback after
      classifying (and counting, when a store exists); it never searches or asks
      for a grounded answer. */
  lemma FallbackWhenStoreEmpty(question: string, k: int, store: Option<seq<Doc>>, o: QueryOracle,
                               render: real -> string)
    requires IsMedicalQuestion(o.gate)
    requires store.None? || (o.countError.None? && |store.value| == 0)
    ensures var r := QueryOutcome(question, k, store, o, render);
      && r.answer == QueryWithoutContext(question, o).answer
      && r.steps == (if store.None? then [Classify(question)] else [Classify(question), CountEntries])
                    + QueryWithoutContext(question, o).steps
      && forall i :: 0 <= i < |r.steps| ==> !r.steps[i].Search? && !IsGrounded(r.steps[i])
  {
  }

  /** A search that returns nothing also sends `query` to the fallback. */
  lemma FallbackWhenNothingRetrieved(question: string, k: int, store: Option<seq<Doc>>, o: QueryOracle,
                                     render: real -> string)
    requires IsMedicalQuestion(o.gate) && store.Some? && |store.value| > 0 && o.countError.None?
    requires o.search == Ok([])
    ensures var r := QueryOutcome(question, k, store, o, render);
      && r.answer == QueryWithoutContext(question, o).answer
      && r.steps == [Classify(question), CountEntries, Search(question, k)] + QueryWithoutContext(question, o).steps
      && forall i :: 0 <= i < |r.steps| ==> !IsGrounded(r.steps[i])
  {
  }

  /** The second classification of the fallback path is consulted on its own:
      a question the first call admitted can still be refused there. */
  lemma SecondGateCanRefuse(question: string, k: int, o: QueryOracle, render: real -> string)
    requires IsMedicalQuestion(o.gate) && !IsMedicalQuestion(o.fallbackGate)
    ensures QueryOutcome(question, k, None, o, render) ==
      QueryResult(OutOfContextMessage, [Classify(question), Classify(question)])
  {
  }

  /** On the grounded path the answer is the chain's response followed by the
      sources summary of the retrieved contexts. */
  lemma GroundedAnswerText(question: string, k: int, store: Option<seq<Doc>>, o: QueryOracle,
                           render: real -> string)
    requires IsMedicalQuestion(o.gate) && store.Some? && |store.value| > 0 && o.countError.None?
    requires o.search.Ok? && |o.search.value| > 0 && o.chain.Ok?
    ensures QueryOutcome(question, k, store, o, render).answer ==
      o.chain.value + SourceSummary(ToContexts(o.search.value), render)
  {
  }

  /** A grounded answer is the chain's response followed by the sources
      summary, which names each distinct source of the retrieved contexts exactly
      once, in order of first appearance. */
  lemma GroundedAnswer(question: string, k: int, store: Option<seq<Doc>>, o: QueryOracle,
                       render: real -> string)
    requires IsMedicalQuestion(o.gate) && store.Some? && |store.value| > 0 && o.countError.None?
    requires o.search.Ok? && |o.search.value| > 0 && o.chain.Ok?
    ensures var r := QueryOutcome(question, k, store, o, render);
      var contexts := ToContexts(o.search.value);
      var reported := FirstPerSource(contexts);
      && r.answer == o.chain.value + SourcesHeader + SummaryLines(reported, render)
      && |reported| == |SourceSet(contexts)|
      && SourceSet(reported) == SourceSet(contexts)
      && (forall m, n :: 0 <= m < n < |reported| ==> reported[m].source != reported[n].source)
      && (forall m :: 0 <= m < |reported| ==>
            reported[m].source in SourceSet(contexts) &&
            reported[m] == contexts[FirstIndexOf(contexts, reported[m].source)])
      && (forall m, n :: 0 <= m < n < |reported| ==>
            reported[m].source in SourceSet(contexts) && reported[n].source in SourceSet(contexts) &&
            FirstIndexOf(contexts, reported[m].source) < FirstIndexOf(contexts, reported[n].source))
  {
    GroundedAnswerText(question, k, store, o, render);
    var contexts := ToContexts(o.search.value);
    var lines := SummaryLines(FirstPerSource(contexts), render);
    assert o.chain.value + (SourcesHeader + lines) == o.chain.value + SourcesHeader + lines;
    FirstPerSourceCount(contexts);
    FirstPerSourceCoversSources(contexts);
    FirstPerSourceDistinct(contexts);
    FirstPerSourceIsFirst(contexts);
    FirstPerSourceOrdered(contexts);
  }

  /** The grounded request is the last step, and its context text carries the
      block of every search result. */
  lemma GroundedPromptHoldsEveryContext(question: string, k: int, store: Option<seq<Doc>>, o: QueryOracle,
                                        render: real -> string)
    requires IsMedicalQuestion(o.gate) && store.Some? && |store.value| > 0 && o.countError.None?
    requires o.search.Ok? && |o.search.value| > 0
    ensures var r := QueryOutcome(question, k, store, o, render);
      var hits := o.search.value;
      && r.steps == [Classify(question), CountEntries, Search(question, k),
                     Generate(GroundedPrompt(question, ContextText(ToContexts(hits)), k))]
      && forall i :: 0 <= i < |hits| ==> IsInfix(ContextBlock(ToContext(hits[i])), ContextText(ToContexts(hits)))
  {
    var cs := ToContexts(o.search.value);
    forall i | 0 <= i < |o.search.value|
      ensures IsInfix(ContextBlock(ToContext(o.search.value[i])), ContextText(cs))
    {
      ContextTextHasEveryContext(cs, i);
    }
  }

  /** A failure of the count, the search or the chain comes back as the
      exception text behind `Error processing query: `. */
  lemma QueryErrorsArePrefixed(question: string, k: int, store: Option<seq<Doc>>, o: QueryOracle,
                               render: real -> string)
    requires IsMedicalQuestion(o.gate) && store.Some?
    ensures var r := QueryOutcome(question, k, store, o, render);
      && (o.countError.Some? ==> r.answer == QueryErrorPrefix + o.countError.value)
      && (o.countError.None? && |store.value| > 0 && o.search.Err? ==> r.answer == QueryErrorPrefix + o.search.message)
      && (o.countError.None? && |store.value| > 0 && o.search.Ok? && |o.search.value| > 0 && o.chain.Err? ==>
            r.answer == QueryErrorPrefix + o.chain.message)
  {
  }

  /** Number of generation requests among the steps. */
  function Generations(steps: seq<Step>): nat
    decreases |steps|
  {
    if |steps| == 0 then 0 else Generations(steps[..|steps| - 1]) + (if steps[|steps| - 1].Generate? then 1 else 0)
  }

  function Classifications(steps: seq<Step>): nat
    decreases |steps|
  {
    if |steps| == 0 then 0 else Classifications(steps[..|steps| - 1]) + (if steps[|steps| - 1].Classify? then 1 else 0)
  }

  lemma {:induction false} CountsAppend(a: seq<Step>, b: seq<Step>)
    ensures Generations(a + b) == Generations(a) + Generations(b)
    ensures Classifications(a + b) == Classifications(a) + Classifications(b)
    decreases |b|
  {
    if |b| == 0 {
      assert a + b == a;
    } else {
      assert (a + b)[..|a + b| - 1] == a + b[..|b| - 1];
      CountsAppend(a, b[..|b| - 1]);
    }
  }

  /** Every call of `query` classifies first, asks the classifier at most twice
      and requests at most one generation. */
  lemma {:induction false} QueryCallBudget(question: string, k: int, store: Option<seq<Doc>>, o: QueryOracle,
                                           render: real -> string)
    ensures var r := QueryOutcome(question, k, store, o, render);
      && |r.steps| > 0 && r.steps[0] == Classify(question)
      && Classifications(r.steps) <= 2
      && Generations(r.steps) <= 1
  {
    var f := QueryWithoutContext(question, o).steps;
    FallbackCallBudget(question, o);
    var gated := [Classify(question)];
    var counted := gated + [CountEntries];
    var searched := counted + [Search(question, k)];
    assert gated[..0] == [] && counted[..1] == gated && searched[..2] == counted;
    if !IsMedicalQuestion(o.gate) {
    } else if store.None? {
      CountsAppend(gated, f);
    } else if o.countError.Some? {
    } else if |store.value| == 0 {
      CountsAppend(counted, f);
    } else if o.search.Err? {
    } else if |ToContexts(o.search.value)| == 0 {
      CountsAppend(searched, f);
    } else {
      var g := [Generate(GroundedPrompt(question, ContextText(ToContexts(o.search.value)), k))];
      assert g[..0] == [];
      CountsAppend(searched, g);
    }
  }

  lemma FallbackCallBudget(question: string, o: QueryOracle)
    ensures var f := QueryWithoutContext(question, o).steps;
      |f| > 0 && f[0] == Classify(question) && Classifications(f) == 1 && Generations(f) <= 1
  {
    var one := [Classify(question)];
    var two := one + [Generate(FallbackPrompt(question))];
    assert one[..0] == [] && two[..1] == one;
    assert Classifications(one) == 1 && Generations(one) == 0;
    assert Classifications(two) == 1 && Generations(two) == 1;
  }
}
