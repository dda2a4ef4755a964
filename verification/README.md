# Reflective translation workflow, modelled in Dafny

`translate.py` runs a three-stage translation workflow on a LangGraph state
graph. A shared state record carries four caller inputs (source language,
target language, source text, country) and three outputs that start absent.
The three nodes run in a fixed order. `initial_translation` drafts a
translation. `reflect_on_translation` asks a reviewer for suggestions.
`improve_translation` rewrites the draft following those suggestions. Each
node renders a system message and a user prompt from the state, makes one
call to a chat-completion service, and returns an update holding one key.

The model has five modules:

- `Wrappers`: `Option`.
- `Text`: `Join` renders a template given as a sequence of pieces. Three
  predicates describe what a rendered text carries: `OccursAt`, `Contains`,
  and `InOrder`, which finds the given parts one after another without
  overlap.
- `States`: the state record, the keys, the partial update, and `Merge`.
  `Merge` assigns every key the update carries.
- `Prompts`: the three prompt builders and the localisation clause. The
  fixed text of the templates is kept character for character, including
  their line breaks and four-space indentation.
- `Pipeline`: the three nodes, the registered edges, and the sequential
  executor.

The completion service is an uninterpreted function
`complete: Request -> string` inside a `Gateway`. The gateway also keeps the
log of the requests it receives, in order. Every reply is taken to be text,
as `get_completion` declares (translate.py:27); nothing else is assumed about
its content. The properties say which request each stage sends, how many
calls a run makes, and that each reply lands in its own key.

Each node reads a state value with `state.get` and interpolates it into an
f-string. An output that is still absent therefore renders as the text
`None`. `Prompts.Show` models this for the three outputs. The four inputs
are always present, as the state record declares them plain strings.

## Model

| member | source | states |
|---|---|---|
| States.Fresh | translate.py:178-182 | A state built from the caller's four inputs holds exactly those four values as its inputs, has every input key present, and has no output produced. |
| States.Merge | translate.py:40-47 | Merging an update assigns every key the update carries and leaves every other key of the state record as it was. |
| States.MergeOneOutput | translate.py:40-47 | An update that writes exactly one output key keeps the four inputs, sets that key to the update's value, leaves every other key alone, and adds exactly that key to the set of produced outputs. |
| Prompts.AdditionalRule | translate.py:86-88 | The localisation clause is empty exactly when the country is empty; when a country is given, the clause contains it. |
| Prompts.DraftSystemOrder | translate.py:57 | The draft system message names the source language and then the target language. |
| Prompts.DraftPromptOrder | translate.py:60-66 | The draft prompt names the source and then the target language, and then carries the source text verbatim, labelled with the source language. It contains the source text. |
| Prompts.ReviewerSystemOrder | translate.py:82-126 | The critique and refine system messages both name the target language before the source language, the reverse of the draft's order. |
| Prompts.CritiquePromptOrder | translate.py:90-112 | The critique prompt carries, in this order: the source language, the target language, the localisation clause, the source text in SOURCE_TEXT tags, the draft in TRANSLATION tags, and the review criteria naming the target language. |
| Prompts.RefinePromptOrder | translate.py:128-152 | The refine prompt carries, in this order: the source language, the target language, the source text, the draft and the suggestions (each in its own tags), and the review criteria. |
| Prompts.DraftRequestShape | translate.py:57-66 | The draft request built from a state: its system message names the source then the target language; its prompt names them in that order and then the source text labelled with the source language, and contains the source text. |
| Prompts.CritiqueRequestShape | translate.py:82-112 | The critique request built from a state: its system message names the target before the source language; its prompt carries the languages, the localisation clause for the state's country, the source text and the draft (or "None") in their tags, and the criteria, in that order. |
| Prompts.RefineRequestShape | translate.py:126-152 | The refine request built from a state: its system message names the target before the source language; its prompt carries the languages, the source text, the draft and the suggestions in their tags, and the criteria, in that order. |
| Pipeline.InitialTranslation | translate.py:52-72 | The draft node's update writes only `translation_1`, with the reply to the draft request. The gateway's log grows by exactly that request. |
| Pipeline.ReflectOnTranslation | translate.py:75-117 | The critique node's update writes only `reflection`, with the reply to the critique request. The log grows by exactly that request. |
| Pipeline.ImproveTranslation | translate.py:119-158 | The refine node's update writes only `translation_2`, with the reply to the refine request. The log grows by exactly that request. |
| Pipeline.NodeWritesOnlyItsOutput | translate.py:68-158 | Each node makes one call with its own request. After merging, its output key holds the reply, and every other key, the four inputs included, keeps its value. |
| Pipeline.Next | translate.py:166-169 | An edge leaves a vertex exactly when one is registered from it. The target returned is that of a registered edge. |
| Pipeline.EdgesOnePerSource | translate.py:166-169 | No vertex is the source of two registered edges, so following "the" edge out of a vertex is well defined. |
| Pipeline.Walk | translate.py:166-169 | A walk that reaches END meets fewer nodes than its bound (it takes at most that many edges), starts with a registered edge from its start vertex, joins each node to the next by a registered edge, and leaves the last node (or the start) by a registered edge to END. |
| Pipeline.EdgesGiveWorkflow | translate.py:162-169 | Following the registered edges from START reaches END through initial_translation, reflect_on_translation and improve_translation, each once, in that order. |
| Pipeline.Execute | translate.py:166-172 | Running a sequence of nodes keeps the service and makes exactly one call per node. The caller's earlier log entries are kept. |
| Pipeline.ExecuteKeepsInputs | translate.py:166-172 | Running any sequence of nodes never changes the four inputs. Afterwards, exactly the keys of the nodes that ran have been added to the produced outputs. |
| Pipeline.WorkflowOutputs | translate.py:162-164 | The three workflow nodes write `translation_1`, `reflection` and `translation_2` between them. |
| Pipeline.InvokeProducesAll | translate.py:207 | The whole run on any state keeps the four inputs, leaves all three outputs set, keeps the service, and appends exactly three requests to the log after the earlier ones. |
| Pipeline.RunFromCallerInputs | translate.py:178-207 | A run started from the caller's four inputs alone, with no output present, ends with the same four inputs and all three outputs present. |
| Pipeline.InvokeRunsThreeStages | translate.py:166-169 | A full run makes exactly three calls in stage order. The draft request is built from the input. The critique request is built from the input and the draft reply. The refine request is built from both replies. The final state is the input plus those three replies. |
| Pipeline.CritiqueRequestLocalises | translate.py:86-91 | The critique prompt contains the localisation clause and, when a country is given, the country itself. The clause is empty exactly when no country is given. |
| Pipeline.CritiqueCarriesDraft | translate.py:94-100 | The critique prompt carries the source text and then the draft, each inside its tags. |
| Pipeline.RefineCarriesDraftAndCritique | translate.py:132-142 | The refine prompt carries the source text, the draft and the suggestions, each inside its tags, in that order. |
| Pipeline.InvokeFeedsEachStage | translate.py:60-169 | In a full run, the draft request contains the source text. The critique request carries the source text and the actual draft reply in their tags. The refine request carries the source text and both actual replies in their tags. Each stored output is the service's reply to the logged request. |

## Left out

- `get_completion` and the OpenAI client (translate.py:16-37) perform an HTTP call. They are reduced to the uninterpreted `complete` function of the gateway. The model name and `temperature` are constant arguments, and `top_p` is fixed at 1; these floats are passed through to the foreign call and are not modelled.
- The chat client types a reply's `message.content` as optional, so a reply can be `None` even though `get_completion` is annotated `->str` (translate.py:27, 37). Python would then store `None` under the node's key, and the later prompts would render it as "None". The model's service always answers with text.
- Pipeline.InvokeProducesAll, Pipeline.RunFromCallerInputs, Pipeline.InvokeFeedsEachStage: they promise that all three outputs hold a value after a run. This holds only for a service that always answers with text; a `None` reply would leave that output absent.
- When the service call raises, the Python exception propagates out of the run and no state is returned. The model has no failing gateway, so this path is not modelled.
- The `print` calls after each reply (translate.py:70, 115, 156) are console output only.
- Drawing the graph with pygraphviz (translate.py:175) is a file side effect.
- The API key, base URL and model constants and the sample `data` record (translate.py:11-13, 178-204) are configuration, not logic.
- LangGraph's `StateGraph`, `compile` and `invoke` (translate.py:49, 172, 207) are library code. They are replaced by the explicit `Execute` over the node order that the registered edges give. The state reducer is modelled as plain assignment of the returned keys. This is LangGraph's default for a `TypedDict` state without annotated reducers.
- The source raises no error for an absent output: `state.get` yields `None`, and the f-string renders it as the text `None`. The model follows the code for the three outputs (`Prompts.Show`). It does not add a precondition error that the code does not raise.
- A caller dict that omits one of the four inputs is not modelled. The state record declares them `str` (translate.py:41-44), so the model's inputs are plain strings and always present. In Python a missing input would be read as `None` (translate.py:53-55, 76-79, 120-122) and rendered as "None". A missing `country` would compare unequal to "" and yield a clause naming "None" (translate.py:86-88). Prompts.AdditionalRule therefore speaks only of a country that is present.
- Pipeline.Walk takes an explicit step bound (`fuel`) so that it terminates on any edge list. The registered chain is walked with a bound equal to its number of edges, which is enough.
