# KimiK2GUI facade: a Dafny model

This project models the `KimiK2GUI` class of the Kimi K2 web interface, in
`KimiK2Thinking/app_kimi.py` (English) and `KimiK2Thinking/app_kimi_zh.py`
(Chinese). The two files have the same logic line for line and differ only in
their display strings. So there is one model, parameterised by a `Strings`
value, with one constant for each language (`Gui.English`, `Gui.Chinese`).
The tree renderers' words sit in a `Labels` value (`ConceptTree.EnglishLabels`,
`ConceptTree.ChineseLabels`).

Modules:

- `Base`: `Option` and `Result`.
- `Text`: Python string helpers used by the facade, each stated as a Dafny function:
  - `split('\n')` and `'\n'.join`, with their round trips;
  - `str.isspace`, used for the `strip()` emptiness tests;
  - decimal rendering of a natural number.
- `Latex`: `format_latex`.
  - `FormatLatexSpec` is a function that states what it returns.
  - `FormatLatex` and `ExpandLine` are the source's two nested loops as methods, each proved equal to the function.
- `ConceptTree`: the concept node and the two renderers.
  - `format_tree_display` and `format_enriched_tree_display` are pure recursive functions (`Render`, `EnrichedRender`).
  - `FormatTreeDisplay` and `FormatEnrichedTreeDisplay` are recursive methods with the source's loop over children, proved equal to those functions.
  - They are proved against an independent pre-order list of placed nodes (`PreOrder`). When no concept name or prefix contains a newline, splitting the rendered text at newlines gives exactly one line per placed node.
- `Chat`: the history-to-messages loop of `chat_with_kimi`, as a method (`BuildMessages`) proved against a function (`RequestMessages`).
- `Gui`: the class `KimiK2GUI` holds the state the facade keeps between actions:
  - whether the agents were built, and with which settings;
  - the current tree.

  Each action is a method. What a collaborator answers (the chat client, the prerequisite explorer, the enrichment pipeline, the file system) is a parameter. Each method returns the list of collaborator calls it made, so "rejected before any collaborator call" is the statement `calls == []`.

## Model

Each row cites one of the two files. The other file holds the same code at an
offset of about one line, and each statement holds for it too.

| member | source | states |
|---|---|---|
| Latex.FormatLatex | KimiK2Thinking/app_kimi.py:112-135 | the loop over the lines returns exactly `FormatLatexSpec(text)`: lines holding `$$` are kept, the others go through the character loop, and the results are joined with newlines |
| Latex.ExpandLine | KimiK2Thinking/app_kimi.py:124-133 | the character loop, with its toggled `in_math` flag, writes the same text whichever way the flag stands: every unescaped `$` becomes `$$` and every other character is copied |
| Latex.FormatLatexLines | KimiK2Thinking/app_kimi_zh.py:116-136 | the output splits into exactly as many lines as the input, and output line k is input line k formatted on its own |
| Latex.DisplayMathLineUnchanged | KimiK2Thinking/app_kimi.py:120-122 | an input line that contains `$$` appears unchanged as the same line of the output |
| Latex.NoDollarUnchanged | KimiK2Thinking/app_kimi.py:124-135 | text with no `$` at all is returned unchanged |
| Latex.FormatLineLength | KimiK2Thinking/app_kimi.py:127-132 | on a line without `$$`, the output is longer than the input by exactly the number of unescaped dollar signs |
| Latex.FormatLineAt | KimiK2Thinking/app_kimi_zh.py:128-133 | on a line without `$$`, input character i lands at position i plus the number of unescaped dollars before it; an unescaped `$` is followed by a second `$`; an escaped `$` (or any other character) is followed directly by the next input character |
| Latex.FormatLineRoundTrip | KimiK2Thinking/app_kimi.py:127-132 | reading `$$` back as `$` recovers a line without `$$` from its formatted form |
| Latex.FormatLineUnchangedIff | KimiK2Thinking/app_kimi_zh.py:119-134 | a line is left unchanged if and only if it contains `$$` or has no unescaped dollar sign |
| Latex.FormatLineNoNewline | KimiK2Thinking/app_kimi.py:124-133 | formatting a line never introduces a newline |
| Latex.InlineMathDoubled | KimiK2Thinking/app_kimi.py:112-135 | `format_latex("a $x$")` is `"a $$x$$"` |
| Text.JoinSplit | KimiK2Thinking/app_kimi.py:115 | joining the pieces of `split('\n')` with newlines gives the text back |
| Text.SplitJoin | KimiK2Thinking/app_kimi.py:135 | splitting a non-empty, newline-free list of lines after joining it gives the lines back |
| Text.DecimalString | KimiK2Thinking/app_kimi.py:198 | the decimal form of a depth or count is a non-empty string of digits with no leading zero |
| Text.DecimalStringValue | KimiK2Thinking/app_kimi.py:229 | the digits of `str(n)` read back as `n` |
| Text.BlankIffStripEmpty | KimiK2Thinking/app_kimi.py:142 | `not s.strip()` holds exactly when every character of `s` is white space, the empty string included; the guards are written with `IsBlank` |
| ConceptTree.FormatTreeDisplay | KimiK2Thinking/app_kimi.py:194-206 | the recursive method with its loop over the prerequisites returns exactly `Render(n, prefix, isLast, labels)` |
| ConceptTree.FormatEnrichedTreeDisplay | KimiK2Thinking/app_kimi.py:221-241 | the enriched method returns exactly `EnrichedRender(n, prefix, isLast, labels)` |
| ConceptTree.AppendCountLines | KimiK2Thinking/app_kimi.py:227-233 | appends the equations line only when there are equations, then the visual-elements line only when there is a visual specification |
| ConceptTree.RenderOutline | KimiK2Thinking/app_kimi_zh.py:195-207 | the plain rendering is the pre-order list of placed nodes, one newline-terminated header line each |
| ConceptTree.TreeDisplayLines | KimiK2Thinking/app_kimi.py:194-206 | when no concept name or prefix contains a newline: split at newlines, the tree text is exactly one header line per node in pre-order (parent before its descendants, children in stored order), then the empty piece after the final newline; so it has `Size(n) + 1` pieces |
| ConceptTree.PreOrderSize | KimiK2Thinking/app_kimi.py:201-204 | the traversal visits every node exactly once |
| ConceptTree.ChildPlacement | KimiK2Thinking/app_kimi.py:196-203 | child k of a node is placed right after the node and the subtrees of its first k children; its prefix is the parent's prefix plus `   ` below a last node and `│  ` otherwise; it is marked last exactly when it is the final child |
| ConceptTree.PreOrderIndented | KimiK2Thinking/app_kimi.py:200-204 | every line of a subtree starts with the subtree's prefix, and every line below its root with the extended prefix |
| ConceptTree.HeaderShape | KimiK2Thinking/app_kimi.py:196-198 | a node's line starts with its prefix and `└─ ` (last) or `├─ ` (not last), and ends with the foundation marker if and only if the node is a foundation |
| ConceptTree.EnglishFoundationMarker | KimiK2Thinking/app_kimi.py:197-198 | a node's line ends with ` [FOUNDATION]` if and only if it is a foundation concept |
| ConceptTree.ChineseFoundationMarker | KimiK2Thinking/app_kimi_zh.py:198-199 | a node's line ends with ` [基础概念]` if and only if it is a foundation concept |
| ConceptTree.OutlineNoNewline | KimiK2Thinking/app_kimi.py:198 | when concepts, prefix and labels hold no newline, no outline line does either |
| ConceptTree.EnrichedOutline | KimiK2Thinking/app_kimi.py:221-241 | the enriched rendering is the same pre-order list, with each node's count lines right below its own line and before its children |
| ConceptTree.EnrichedDisplayLines | KimiK2Thinking/app_kimi.py:221-241 | when no concept name or prefix contains a newline: split at newlines, the enriched text is, per node in pre-order, its header line, then `Equations: n` only for a non-empty equation list, then `Visual elements: n` only with a visual specification |
| ConceptTree.ChineseEnrichedLines | KimiK2Thinking/app_kimi_zh.py:222-242 | when no concept name or prefix contains a newline, the same line structure with the Chinese labels `方程` and `视觉元素` |
| ConceptTree.EnrichedMatchesPlain | KimiK2Thinking/app_kimi.py:227-233 | on a tree with no equations and no visual specifications, the two renderers write the same text |
| Chat.BuildMessages | KimiK2Thinking/app_kimi.py:68-74 | the loop builds exactly `RequestMessages(history, message)` |
| Chat.HistoryUsers | KimiK2Thinking/app_kimi.py:69-70 | the user messages built from the history are the human texts, in order |
| Chat.HistoryAssistants | KimiK2Thinking/app_kimi.py:71-72 | the assistant messages are exactly the present, non-empty replies, in order |
| Chat.RequestContents | KimiK2Thinking/app_kimi.py:68-74 | the user contents of the request are the human texts followed by the new message, and the assistant contents are the non-empty replies |
| Chat.HistoryAlternates | KimiK2Thinking/app_kimi.py:69-72 | the history messages start with a user message; every assistant message directly follows a user message and is non-empty; there is one message per turn plus one per reply |
| Chat.RequestShape | KimiK2Thinking/app_kimi_zh.py:69-75 | the request alternates in that way, ends with the new user message, and has one message per turn, one per reply, and one more |
| Chat.TurnPlacement | KimiK2Thinking/app_kimi.py:69-73 | turn k's user message sits at position k plus the number of truthy replies before it, and its reply, when truthy, directly after it; the next turn starts one place further on, or two with a reply |
| Gui.KimiK2GUI.constructor | KimiK2Thinking/app_kimi.py:37-43 | a new interface has no agents and no tree |
| Gui.KimiK2GUI.InitializeAgents | KimiK2Thinking/app_kimi.py:45-57 | builds the agents with the given settings and reports success, or keeps the old ones and reports the failure text; the tree is untouched |
| Gui.KimiK2GUI.Answer | KimiK2Thinking/app_kimi.py:103-106 | a reply is answered by `format_latex` of its text; a failure by `Error: ` followed by the failure text |
| Gui.KimiK2GUI.ChatWithKimi | KimiK2Thinking/app_kimi.py:63-106 | sends the built messages with the expert system prompt and `max_tokens` 4000; answers with the reply after `format_latex`, or `Error: ` and the failure; without agents, answers with the AttributeError text and makes no call |
| Gui.KimiK2GUI.ProcessSimplePrompt | KimiK2Thinking/app_kimi.py:137-167 | a blank prompt is answered with the enter-a-prompt text and no call; otherwise it sends one user message that wraps the prompt, and formats the reply or reports the error |
| Gui.KimiK2GUI.ExploreConcept | KimiK2Thinking/app_kimi.py:173-192 | a blank concept returns the error with no call and no change to agents or tree; otherwise it rebuilds the agents and explores; the tree is stored and rendered only when exploration returns one; on failure the tree is unchanged |
| Gui.KimiK2GUI.RunEnrichment | KimiK2Thinking/app_kimi_zh.py:209-220 | with no tree, returns the error with no call; otherwise it runs the pipeline on the stored tree; it renders the tree as the pipeline left it, with the narrative or `No narrative generated`, or reports the failure |
| Gui.KimiK2GUI.GenerateManimPrompt | KimiK2Thinking/app_kimi.py:243-252 | with no tree, or a root without a `narrative` attribute, it returns the no-enriched-tree error; a `None` narrative gives the AttributeError text; otherwise it returns the verbose prompt |
| Gui.KimiK2GUI.SaveNarrative | KimiK2Thinking/app_kimi_zh.py:255-266 | a blank narrative is refused before any write; otherwise it writes the narrative to the path and reports the path or the failure |

## Left out

- Remote API calls (`chat_completion`, `get_text_content`) and the explorer, enrichment pipeline and client classes are not part of this model. Their answers are parameters (`Result` values), and the model records each call in `calls`.
- `asyncio.run` and the asynchronous collaborators are reduced to the value they return or the failure they raise.
- The file write and `mkdir` in `save_narrative` are I/O. The model records the intended write as a `WriteFile` call; any failure is a parameter.
- Exception texts (`str(e)`) are parameters, except the AttributeError raised on a collaborator that was never built: that one is written out as `'NoneType' object has no attribute '…'`.
- The two long system prompts are named by the `SystemPrompt` enumeration, not spelled out.
- Gui.KimiK2GUI.InitializeAgents: a failure part-way through construction replaces some collaborators and not others. The model keeps all of them unchanged. This also affects two other methods:
  - ExploreConcept: on a fresh interface where building the pipeline or a client fails, the source still explores with the explorer it has just built. The model reports the `explore_async` AttributeError instead.
  - ProcessSimplePrompt: on a fresh interface where building the manim client succeeds and building the chat client fails, the source still sends the prompt through the manim client. The model has no agents then and answers with the `chat_completion` AttributeError.
  - RunEnrichment: `Valid()` rules out a stored tree with no pipeline. The source can reach that state the same way, and would then report the `run_async` AttributeError.
- `if not self.current_tree`: a stored node is assumed to be truthy. `visual_spec` is assumed truthy exactly when it is not None; its class is not part of this model.
- A visual specification is represented by the number of its elements, and an equation list by its entries. The other node fields are not read by the core.
- Gradio history pairs are `Turn(human, Option<reply>)`. A missing reply and an empty reply are both skipped, as Python's `if assistant:` does.
- The enrichment pipeline changes the tree in place, even when it fails part-way. The model takes the tree as the pipeline leaves it (`EnrichmentRun.treeAfter`) and stores it in both outcomes. It does not model the aliasing itself.
- Video review, the Gradio interface built in `create_interface`, and the program entry point are not part of this model. `RevisedBenamou-Brenier/benamou_brenier_full.py` is not part of this model either: it is an animation script with no logic of the facade.
