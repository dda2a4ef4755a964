/**
  The translation workflow: three nodes that each make one call to the
  completion service and return a one-key update, run along a fixed chain of
  edges START -> initial_translation -> reflect_on_translation ->
  improve_translation -> END, with each update merged into the state.

  The completion service is an uninterpreted function from a request to the
  generated text. The gateway also keeps the log of the requests it has
  received, in the order they were made, so that properties can speak about
  how many calls a run makes and with which prompts.
 */
module Pipeline {
  import opened Wrappers
  import opened Text
  import opened States
  import opened Prompts

  datatype Gateway = Gateway(complete: Request -> string, log: seq<Request>)

  /** One call to the completion service: the reply, and the gateway with the
      request appended to its log */
  function GetCompletion(g: Gateway, req: Request): (string, Gateway) {
    (g.complete(req), Gateway(g.complete, g.log + [req]))
  }

  // ---------------------------------------------------------------------
  // The three nodes
  // ---------------------------------------------------------------------

  /** Drafts a translation; the update carries `translation_1` only. */
  function InitialTranslation(s: State, g: Gateway): (r: (Update, Gateway))
    ensures r.0.Keys == {Translation1}
    ensures r.0[Translation1] == g.complete(DraftRequest(s))
    ensures r.1 == Gateway(g.complete, g.log + [DraftRequest(s)])
  {
    var (translation, g') := GetCompletion(g, DraftRequest(s));
    (map[Translation1 := translation], g')
  }

  /** Critiques the draft; the update carries `reflection` only. */
  function ReflectOnTranslation(s: State, g: Gateway): (r: (Update, Gateway))
    ensures r.0.Keys == {Reflection}
    ensures r.0[Reflection] == g.complete(CritiqueRequest(s))
    ensures r.1 == Gateway(g.complete, g.log + [CritiqueRequest(s)])
  {
    var (reflection, g') := GetCompletion(g, CritiqueRequest(s));
    (map[Reflection := reflection], g')
  }

  /** Rewrites the draft following the critique; the update carries
      `translation_2` only. */
  function ImproveTranslation(s: State, g: Gateway): (r: (Update, Gateway))
    ensures r.0.Keys == {Translation2}
    ensures r.0[Translation2] == g.complete(RefineRequest(s))
    ensures r.1 == Gateway(g.complete, g.log + [RefineRequest(s)])
  {
    var (translation2, g') := GetCompletion(g, RefineRequest(s));
    (map[Translation2 := translation2], g')
  }

  // ---------------------------------------------------------------------
  // Nodes, edges and the executor
  // ---------------------------------------------------------------------

  /** The registered nodes: initial_translation, reflect_on_translation,
      improve_translation */
  datatype Node = Initial | Reflect | Improve

  /** The key each node writes */
  function Output(n: Node): Key {
    match n
    case Initial => Translation1
    case Reflect => Reflection
    case Improve => Translation2
  }

  /** The request each node sends for a given state */
  function RequestFor(n: Node, s: State): Request {
    match n
    case Initial => DraftRequest(s)
    case Reflect => CritiqueRequest(s)
    case Improve => RefineRequest(s)
  }

  function RunNode(n: Node, s: State, g: Gateway): (Update, Gateway) {
    match n
    case Initial => InitialTranslation(s, g)
    case Reflect => ReflectOnTranslation(s, g)
    case Improve => ImproveTranslation(s, g)
  }

  /** Every node makes exactly one call, with its own request, and its update
      writes exactly its own key; merged into the state, that key is set to
      the reply and every other key, the four inputs among them, keeps its
      value. */
  lemma NodeWritesOnlyItsOutput(n: Node, s: State, g: Gateway)
    ensures RunNode(n, s, g).0.Keys == {Output(n)}
    ensures RunNode(n, s, g).1 == Gateway(g.complete, g.log + [RequestFor(n, s)])
    ensures Get(Merge(s, RunNode(n, s, g).0), Output(n)) == Some(g.complete(RequestFor(n, s)))
    ensures forall k :: k != Output(n) ==> Get(Merge(s, RunNode(n, s, g).0), k) == Get(s, k)
    ensures SameInputs(Merge(s, RunNode(n, s, g).0), s)
  {
    var u := RunNode(n, s, g).0;
    assert u.Keys == {Output(n)} && u[Output(n)] == g.complete(RequestFor(n, s));
    MergeOneOutput(s, u, Output(n));
  }

  datatype Vertex = Start | End | At(node: Node)

  /** The edges registered for the graph, in registration order */
  const Edges: seq<(Vertex, Vertex)> := [
    (Start, At(Initial)),
    (At(Initial), At(Reflect)),
    (At(Reflect), At(Improve)),
    (At(Improve), End)
  ]

  /** The target of the edge that leaves `v`, if any. LangGraph runs every
      target of a node's outgoing edges; taking the first one is the same
      thing here because the registered edges leave each vertex at most once
      (`EdgesOnePerSource`). */
  function Next(edges: seq<(Vertex, Vertex)>, v: Vertex): (r: Option<Vertex>)
    ensures r.Some? <==> exists i :: 0 <= i < |edges| && edges[i].0 == v
    ensures r.Some? ==> (v, r.value) in edges
  {
    if |edges| == 0 then None
    else if edges[0].0 == v then Some(edges[0].1)
    else Next(edges[1..], v)
  }

  /** Each vertex is the source of at most one registered edge. */
  lemma EdgesOnePerSource()
    ensures forall i, j :: 0 <= i < j < |Edges| ==> Edges[i].0 != Edges[j].0
  {
  }

  /** The nodes met when following the edges from `v` until END, taking at
      most `fuel` edges; None when the walk leads nowhere, returns to START,
      or runs out of its bound before END. A walk that reaches END meets
      fewer nodes than its bound, starts with an edge from `v`, and each node
      it meets is joined by an edge to the next. */
  function Walk(edges: seq<(Vertex, Vertex)>, v: Vertex, fuel: nat): (r: Option<seq<Node>>)
    ensures r.Some? ==> |r.value| < fuel
    ensures r.Some? && |r.value| > 0 ==> (v, At(r.value[0])) in edges
    ensures r.Some? ==> forall i :: 0 <= i < |r.value| - 1 ==> (At(r.value[i]), At(r.value[i + 1])) in edges
    ensures r.Some? && |r.value| > 0 ==> (At(r.value[|r.value| - 1]), End) in edges
    ensures r.Some? && |r.value| == 0 ==> (v, End) in edges
    decreases fuel
  {
    if fuel == 0 then None
    else match Next(edges, v)
      case None => None
      case Some(End) => Some([])
      case Some(Start) => None
      case Some(At(n)) =>
        match Walk(edges, At(n), fuel - 1)
        case None => None
        case Some(rest) => Some([n] + rest)
  }

  /** The order in which the nodes run */
  const Workflow: seq<Node> := [Initial, Reflect, Improve]

  /** Following the registered edges from START reaches END through the three
      nodes, each once, in the order draft, critique, refine. */
  lemma EdgesGiveWorkflow()
    ensures Walk(Edges, Start, |Edges|) == Some(Workflow)
  {
    assert Next(Edges, Start) == Some(At(Initial));
    assert Next(Edges, At(Initial)) == Some(At(Reflect));
    assert Next(Edges, At(Reflect)) == Some(At(Improve));
    assert Next(Edges, At(Improve)) == Some(End);
    assert Walk(Edges, At(Improve), 1) == Some([]);
    assert [Improve] + [] == [Improve];
    assert Walk(Edges, At(Reflect), 2) == Some([Improve]);
    assert [Reflect] + [Improve] == [Reflect, Improve];
    assert Walk(Edges, At(Initial), 3) == Some([Reflect, Improve]);
    assert [Initial] + [Reflect, Improve] == Workflow;
  }

  /** The output keys written by a sequence of nodes */
  function Outputs(nodes: seq<Node>): set<Key> {
    set n | n in nodes :: Output(n)
  }

  lemma OutputsFirst(nodes: seq<Node>)
    requires |nodes| > 0
    ensures Outputs(nodes) == {Output(nodes[0])} + Outputs(nodes[1..])
  {
    assert forall n :: n in nodes <==> n == nodes[0] || n in nodes[1..];
  }

  /** One step of the executor: the gateway keeps its service and grows its
      log by one request; the merged state keeps the inputs and adds the
      node's output to what has been produced. */
  lemma StepKeepsInputs(n: Node, s: State, g: Gateway)
    ensures RunNode(n, s, g).1.complete == g.complete
    ensures RunNode(n, s, g).1.log == g.log + [RequestFor(n, s)]
    ensures SameInputs(Merge(s, RunNode(n, s, g).0), s)
    ensures Produced(Merge(s, RunNode(n, s, g).0)) == Produced(s) + {Output(n)}
  {
    NodeWritesOnlyItsOutput(n, s, g);
    MergeOneOutput(s, RunNode(n, s, g).0, Output(n));
  }

  /** Runs the nodes one after the other, merging each update into the state
      before the next node reads it. Every node makes one call; earlier
      entries of the log are kept. */
  function Execute(nodes: seq<Node>, s: State, g: Gateway): (r: (State, Gateway))
    ensures r.1.complete == g.complete
    ensures |r.1.log| == |g.log| + |nodes| && r.1.log[..|g.log|] == g.log
    decreases |nodes|
  {
    if |nodes| == 0 then
      (s, g)
    else
      var (u, g') := RunNode(nodes[0], s, g);
      var r := Execute(nodes[1..], Merge(s, u), g');
      assert r.1.log[..|g.log|] == r.1.log[..|g'.log|][..|g.log|];
      r
  }

  /** Running nodes never changes the four inputs, and afterwards exactly the
      outputs of the nodes that ran have been added to what was produced. */
  lemma {:induction false} ExecuteKeepsInputs(nodes: seq<Node>, s: State, g: Gateway)
    ensures SameInputs(Execute(nodes, s, g).0, s)
    ensures Produced(Execute(nodes, s, g).0) == Produced(s) + Outputs(nodes)
    decreases |nodes|
  {
    if |nodes| > 0 {
      var (u, g') := RunNode(nodes[0], s, g);
      StepKeepsInputs(nodes[0], s, g);
      OutputsFirst(nodes);
      ExecuteKeepsInputs(nodes[1..], Merge(s, u), g');
    }
  }

  /** The workflow's nodes write the three output keys between them. */
  lemma WorkflowOutputs()
    ensures Outputs(Workflow) == {Translation1, Reflection, Translation2}
  {
    assert Output(Workflow[0]) in Outputs(Workflow) && Output(Workflow[1]) in Outputs(Workflow);
    assert Output(Workflow[2]) in Outputs(Workflow);
    forall k | k in Outputs(Workflow)
      ensures k in {Translation1, Reflection, Translation2}
    {
      var n :| n in Workflow && Output(n) == k;
    }
  }

  /** The whole run on the caller's state */
  function Invoke(input: State, g: Gateway): (State, Gateway) {
    Execute(Workflow, input, g)
  }

  /** After a full run the inputs are those the caller gave, all three
      outputs hold a value, whatever the state held before, and exactly three
      calls were made, after the ones already logged. */
  lemma InvokeProducesAll(input: State, g: Gateway)
    ensures SameInputs(Invoke(input, g).0, input)
    ensures Produced(Invoke(input, g).0) == {Translation1, Reflection, Translation2}
    ensures Invoke(input, g).1.complete == g.complete
    ensures |Invoke(input, g).1.log| == |g.log| + 3 && Invoke(input, g).1.log[..|g.log|] == g.log
  {
    ExecuteKeepsInputs(Workflow, input, g);
    WorkflowOutputs();
  }

  /** A run started from the caller's four inputs alone keeps them and fills
      in all three outputs, none of which was present before. */
  lemma RunFromCallerInputs(sourceLang: string, targetLang: string, sourceText: string, country: string,
                            g: Gateway)
    ensures
      var input := Fresh(sourceLang, targetLang, sourceText, country);
      var r := Invoke(input, g).0;
      && Produced(input) == {}
      && r.sourceLang == sourceLang && r.targetLang == targetLang
      && r.sourceText == sourceText && r.country == country
      && r.translation1.Some? && r.reflection.Some? && r.translation2.Some?
  {
    var input := Fresh(sourceLang, targetLang, sourceText, country);
    InvokeProducesAll(input, g);
    assert Translation1 in Produced(Invoke(input, g).0);
    assert Reflection in Produced(Invoke(input, g).0);
    assert Translation2 in Produced(Invoke(input, g).0);
  }

  /** Running a non-empty sequence of nodes runs the first one, merges its
      update, and runs the rest on the merged state. */
  lemma ExecuteFirst(nodes: seq<Node>, s: State, g: Gateway)
    requires |nodes| > 0
    ensures Execute(nodes, s, g) ==
            Execute(nodes[1..], Merge(s, RunNode(nodes[0], s, g).0), RunNode(nodes[0], s, g).1)
  {
  }

  /** Running a node first sends its request and stores the reply under its
      output key, before the remaining nodes run. */
  lemma ExecuteNode(n: Node, rest: seq<Node>, s: State, g: Gateway, reply: string)
    requires reply == g.complete(RequestFor(n, s))
    ensures Execute([n] + rest, s, g) ==
            Execute(rest, Stored(s, n, reply), Gateway(g.complete, g.log + [RequestFor(n, s)]))
  {
    ExecuteFirst([n] + rest, s, g);
    assert ([n] + rest)[1..] == rest;
    NodeWritesOnlyItsOutput(n, s, g);
    var u := RunNode(n, s, g).0;
    assert u == map[Output(n) := reply];
    assert Merge(s, u) == Stored(s, n, reply);
  }

  /** The state with the reply of node `n` stored under its output key */
  function Stored(s: State, n: Node, reply: string): State {
    match n
    case Initial => s.(translation1 := Some(reply))
    case Reflect => s.(reflection := Some(reply))
    case Improve => s.(translation2 := Some(reply))
  }

  lemma ExecuteOne(c: Node, s: State, g: Gateway)
    ensures Execute([c], s, g) ==
            (Stored(s, c, g.complete(RequestFor(c, s))), Gateway(g.complete, g.log + [RequestFor(c, s)]))
  {
    assert [c] == [c] + [];
    ExecuteNode(c, [], s, g, g.complete(RequestFor(c, s)));
  }

  lemma ExecuteTwo(b: Node, c: Node, s: State, g: Gateway)
    ensures
      var s1 := Stored(s, b, g.complete(RequestFor(b, s)));
      Execute([b, c], s, g) ==
        (Stored(s1, c, g.complete(RequestFor(c, s1))),
         Gateway(g.complete, g.log + [RequestFor(b, s), RequestFor(c, s1)]))
  {
    var s1 := Stored(s, b, g.complete(RequestFor(b, s)));
    var g1 := Gateway(g.complete, g.log + [RequestFor(b, s)]);
    assert [b, c] == [b] + [c];
    ExecuteNode(b, [c], s, g, g.complete(RequestFor(b, s)));
    ExecuteOne(c, s1, g1);
    assert g1.log + [RequestFor(c, s1)] == g.log + [RequestFor(b, s), RequestFor(c, s1)];
  }

  /** A full run makes exactly three calls, in node order: the draft request
      built from the input, the critique request built from the input and the
      draft reply, the refine request built from those and the critique reply.
      The final state keeps the inputs and holds the three replies. */
  lemma InvokeRunsThreeStages(input: State, g: Gateway)
    ensures
      var t1 := g.complete(DraftRequest(input));
      var s1 := input.(translation1 := Some(t1));
      var refl := g.complete(CritiqueRequest(s1));
      var s2 := s1.(reflection := Some(refl));
      var t2 := g.complete(RefineRequest(s2));
      Invoke(input, g) == (s2.(translation2 := Some(t2)),
                           Gateway(g.complete, g.log + [DraftRequest(input), CritiqueRequest(s1), RefineRequest(s2)]))
  {
    var t1 := g.complete(DraftRequest(input));
    var s1 := input.(translation1 := Some(t1));
    var g1 := Gateway(g.complete, g.log + [DraftRequest(input)]);
    InvokeFirst(input, g);
    ExecuteTwo(Reflect, Improve, s1, g1);
    var refl := g.complete(CritiqueRequest(s1));
    var s2 := s1.(reflection := Some(refl));
    assert g1.log + [CritiqueRequest(s1), RefineRequest(s2)]
        == g.log + [DraftRequest(input), CritiqueRequest(s1), RefineRequest(s2)];
  }

  lemma InvokeFirst(input: State, g: Gateway)
    ensures Invoke(input, g) ==
            Execute([Reflect, Improve], input.(translation1 := Some(g.complete(DraftRequest(input)))),
                    Gateway(g.complete, g.log + [DraftRequest(input)]))
  {
    assert Workflow == [Initial] + [Reflect, Improve];
    ExecuteNode(Initial, [Reflect, Improve], input, g, g.complete(DraftRequest(input)));
  }

  /** The localisation clause reaches the critique prompt: when the state
      names a country, the prompt contains the clause and the country; when
      it does not, the clause is empty. */
  lemma CritiqueRequestLocalises(s: State)
    ensures Contains(CritiqueRequest(s).prompt, AdditionalRule(s.country))
    ensures s.country != "" ==> Contains(CritiqueRequest(s).prompt, s.country)
    ensures s.country == "" <==> AdditionalRule(s.country) == ""
  {
    var rule := AdditionalRule(s.country);
    CritiquePromptOrder(s.sourceLang, s.targetLang, s.sourceText, rule, Show(s.translation1));
    var parts := [s.sourceLang, s.targetLang, rule, Tagged(SourceTextTag, s.sourceText),
                  Tagged(TranslationTag, Show(s.translation1)), Criteria(s.targetLang)];
    InOrderContains(CritiqueRequest(s).prompt, parts, 2);
    if s.country != "" {
      ContainsTrans(CritiqueRequest(s).prompt, rule, s.country);
    }
  }

  /** The critique request carries the source text and then the draft, each
      inside its tags. */
  lemma CritiqueCarriesDraft(s: State)
    ensures InOrder(CritiqueRequest(s).prompt,
                    [Tagged(SourceTextTag, s.sourceText), Tagged(TranslationTag, Show(s.translation1))])
  {
    var rule, src, draft := AdditionalRule(s.country), Tagged(SourceTextTag, s.sourceText),
                            Tagged(TranslationTag, Show(s.translation1));
    CritiquePromptOrder(s.sourceLang, s.targetLang, s.sourceText, rule, Show(s.translation1));
    assert [s.sourceLang, s.targetLang, rule, src, draft, Criteria(s.targetLang)]
        == [s.sourceLang, s.targetLang, rule] + [src, draft] + [Criteria(s.targetLang)];
    InOrderSkip(CritiqueRequest(s).prompt, [s.sourceLang, s.targetLang, rule], [src, draft], [Criteria(s.targetLang)]);
  }

  /** The refine request carries the source text, the draft and the critique,
      each inside its tags, in that order. */
  lemma RefineCarriesDraftAndCritique(s: State)
    ensures InOrder(RefineRequest(s).prompt,
                    [Tagged(SourceTextTag, s.sourceText), Tagged(TranslationTag, Show(s.translation1)),
                     Tagged(SuggestionsTag, Show(s.reflection))])
  {
    var src, draft, hints := Tagged(SourceTextTag, s.sourceText), Tagged(TranslationTag, Show(s.translation1)),
                             Tagged(SuggestionsTag, Show(s.reflection));
    RefinePromptOrder(s.sourceLang, s.targetLang, s.sourceText, Show(s.translation1), Show(s.reflection));
    assert [s.sourceLang, s.targetLang, src, draft, hints, Criteria(s.targetLang)]
        == [s.sourceLang, s.targetLang] + [src, draft, hints] + [Criteria(s.targetLang)];
    InOrderSkip(RefineRequest(s).prompt, [s.sourceLang, s.targetLang], [src, draft, hints], [Criteria(s.targetLang)]);
  }

  /** In a full run each stage is handed what the earlier stages produced:
      the draft request carries the source text; the critique request
      carries the source text and then the draft reply, each in its tags; the
      refine request carries the source text, the draft reply and the critique
      reply, each in its tags, in that order. The final state holds exactly
      those replies. */
  lemma InvokeFeedsEachStage(input: State, g: Gateway)
    ensures
      var (r, g') := Invoke(input, g);
      && r.translation1.Some? && r.reflection.Some? && r.translation2.Some?
      && |g'.log| == |g.log| + 3
      && Contains(g'.log[|g.log|].prompt, input.sourceText)
      && InOrder(g'.log[|g.log| + 1].prompt,
                 [Tagged(SourceTextTag, input.sourceText), Tagged(TranslationTag, r.translation1.value)])
      && InOrder(g'.log[|g.log| + 2].prompt,
                 [Tagged(SourceTextTag, input.sourceText), Tagged(TranslationTag, r.translation1.value),
                  Tagged(SuggestionsTag, r.reflection.value)])
      && r.translation1.value == g.complete(g'.log[|g.log|])
      && r.reflection.value == g.complete(g'.log[|g.log| + 1])
      && r.translation2.value == g.complete(g'.log[|g.log| + 2])
  {
    InvokeRunsThreeStages(input, g);
    var t1 := g.complete(DraftRequest(input));
    var s1 := input.(translation1 := Some(t1));
    var refl := g.complete(CritiqueRequest(s1));
    var s2 := s1.(reflection := Some(refl));
    DraftPromptOrder(input.sourceLang, input.targetLang, input.sourceText);
    CritiqueCarriesDraft(s1);
    RefineCarriesDraftAndCritique(s2);
  }
}
