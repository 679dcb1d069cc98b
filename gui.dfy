/**
 * The `KimiK2GUI` facade: its guards, the state it keeps between actions, the
 * collaborator calls each action makes and the text each action returns. The
 * collaborators (the chat client, the prerequisite explorer, the enrichment
 * pipeline, the file system) are not modelled; what they answer is a parameter,
 * and each action returns the list of calls it made, so that "no collaborator is
 * called" is the statement `calls == []`.
 */
module Gui {
  import opened Base
  import opened Text
  import Latex
  import opened ConceptTree
  import opened Chat

  /** The texts of one language version of the interface. */
  datatype Strings = Strings(
    labels: Labels,
    initOk: string,
    initError: string,
    chatError: string,
    enterPrompt: string,
    expandRequest: string,
    blankConcept: string,
    exploredOpen: string,
    exploredClose: string,
    exploreError: string,
    noTree: string,
    noNarrativeGenerated: string,
    enrichOk: string,
    enrichError: string,
    noEnrichedTree: string,
    promptOk: string,
    promptError: string,
    nothingToSave: string,
    savedTo: string,
    saveError: string)

  const English: Strings := Strings(
    EnglishLabels,
    "✅ Kimi K2 agents initialized successfully!",
    "❌ Error initializing agents: ",
    "Error: ",
    "Please enter a prompt to expand.",
    "Create a detailed Manim animation prompt for: ",
    "❌ Please enter a concept to explore",
    "✅ Successfully explored '",
    "'",
    "❌ Error exploring concept: ",
    "❌ No knowledge tree to enrich. Please explore a concept first.",
    "No narrative generated",
    "✅ Enrichment completed!",
    "❌ Error during enrichment: ",
    "❌ No enriched tree available. Please run enrichment first.",
    "✅ Manim prompt generated!",
    "❌ Error: ",
    "❌ No narrative to save",
    "✅ Narrative saved to ",
    "❌ Error saving: ")

  const Chinese: Strings := Strings(
    ChineseLabels,
    "✅ Kimi K2 代理初始化成功！",
    "❌ 初始化代理时出错: ",
    "错误: ",
    "请输入要扩展的提示词。",
    "为以下内容创建详细的Manim动画提示词: ",
    "❌ 请输入要探索的概念",
    "✅ 成功探索'",
    "'",
    "❌ 探索概念时出错: ",
    "❌ 没有知识树可以丰富化。请先探索一个概念。",
    "未生成叙事",
    "✅ 丰富化完成！",
    "❌ 丰富化过程中出错: ",
    "❌ 没有可用的丰富化树。请先运行丰富化。",
    "✅ Manim提示词已生成！",
    "❌ 错误: ",
    "❌ 没有可保存的叙事",
    "✅ 叙事已保存到 ",
    "❌ 保存错误: ")

  /** The settings the explorer is built with. */
  datatype Settings = Settings(maxDepth: int, useTools: bool)

  /** Which of the two fixed system prompts a completion request carries. */
  datatype SystemPrompt = ManimAssistant | PromptExpander

  /** `max_tokens` of both completion requests. */
  const MaxTokens: nat := 4000

  /** A call into a collaborator. */
  datatype Call =
    | ConstructAgents(settings: Settings)
    | Completion(system: SystemPrompt, messages: seq<Message>, maxTokens: nat)
    | Explore(concept: string)
    | Enrich(tree: Node)
    | WriteFile(path: string, text: string)

  /** The three values `explore_concept` returns, in its order; the interface shows the third in the narrative pane. */
  datatype ExploreView = ExploreView(treeText: string, status: string, narrativePane: string)

  /** The three values `run_enrichment` returns, in its order. */
  datatype EnrichView = EnrichView(treeText: string, narrative: string, status: string)

  /**
   * What the enrichment pipeline did: the tree as it stands afterwards (the
   * pipeline changes it in place, also when it fails part-way) and either the
   * result's narrative (None when it has none) or the failure text.
   */
  datatype EnrichmentRun = EnrichmentRun(treeAfter: Node, outcome: Result<Option<string>>)

  /** The text of Python's AttributeError for an attribute read on None. */
  function NoneAttribute(name: string): string
  {
    "'NoneType' object has no attribute '" + name + "'"
  }

  class KimiK2GUI {
    /** The language version the interface is built for. */
    const strings: Strings
    /** The settings of the explorer, pipeline and two clients, once they have been built. */
    var agents: Option<Settings>
    var currentTree: Option<Node>

    /** A tree is stored only by an exploration, which needs the agents. */
    ghost predicate Valid()
      reads this
    {
      currentTree.Some? ==> agents.Some?
    }

    constructor(strings: Strings)
      ensures Valid()
      ensures this.strings == strings && agents == None && currentTree == None
    {
      this.strings := strings;
      agents := None;
      currentTree := None;
    }

    /** `initialize_agents`: builds all four collaborators; `failure` is the exception text if building fails. */
    method InitializeAgents(useTools: bool, maxDepth: int, failure: Option<string>) returns (status: string, calls: seq<Call>)
      requires Valid()
      modifies this
      ensures Valid()
      ensures calls == [ConstructAgents(Settings(maxDepth, useTools))]
      ensures currentTree == old(currentTree)
      ensures failure.None? ==> agents == Some(Settings(maxDepth, useTools)) && status == strings.initOk
      ensures failure.Some? ==> agents == old(agents) && status == strings.initError + failure.value
    {
      calls := [ConstructAgents(Settings(maxDepth, useTools))];
      if failure.None? {
        agents := Some(Settings(maxDepth, useTools));
        status := strings.initOk;
      } else {
        status := strings.initError + failure.value;
      }
    }

    /** The answer text for a completion: the reply with its dollar signs formatted, or the error text. */
    method Answer(reply: Result<string>) returns (answer: string)
      ensures reply.Ok? ==> answer == Latex.FormatLatexSpec(reply.value)
      ensures reply.Err? ==> answer == strings.chatError + reply.message
    {
      if reply.Ok? {
        answer := Latex.FormatLatex(reply.value);
      } else {
        answer := strings.chatError + reply.message;
      }
    }

    /** `chat_with_kimi`: `reply` is what the chat client answers (text or exception text). */
    method ChatWithKimi(message: string, history: seq<Turn>, reply: Result<string>) returns (answer: string, calls: seq<Call>)
      ensures agents.None? ==> calls == [] && answer == strings.chatError + NoneAttribute("chat_completion")
      ensures agents.Some? ==> calls == [Completion(ManimAssistant, RequestMessages(history, message), MaxTokens)]
      ensures agents.Some? && reply.Ok? ==> answer == Latex.FormatLatexSpec(reply.value)
      ensures agents.Some? && reply.Err? ==> answer == strings.chatError + reply.message
    {
      var messages := BuildMessages(history, message);
      if agents.None? {
        calls := [];
        answer := strings.chatError + NoneAttribute("chat_completion");
      } else {
        calls := [Completion(ManimAssistant, messages, MaxTokens)];
        answer := Answer(reply);
      }
    }

    /** `process_simple_prompt`: a blank prompt is answered at once, without a request. */
    method ProcessSimplePrompt(simplePrompt: string, reply: Result<string>) returns (answer: string, calls: seq<Call>)
      ensures IsBlank(simplePrompt) ==> calls == [] && answer == strings.enterPrompt
      ensures !IsBlank(simplePrompt) && agents.None? ==> calls == [] && answer == strings.chatError + NoneAttribute("chat_completion")
      ensures !IsBlank(simplePrompt) && agents.Some? ==>
        calls == [Completion(PromptExpander, [Message(User, strings.expandRequest + simplePrompt)], MaxTokens)]
      ensures !IsBlank(simplePrompt) && agents.Some? && reply.Ok? ==> answer == Latex.FormatLatexSpec(reply.value)
      ensures !IsBlank(simplePrompt) && agents.Some? && reply.Err? ==> answer == strings.chatError + reply.message
    {
      if IsBlank(simplePrompt) {
        return strings.enterPrompt, [];
      }
      if agents.None? {
        return strings.chatError + NoneAttribute("chat_completion"), [];
      }
      calls := [Completion(PromptExpander, [Message(User, strings.expandRequest + simplePrompt)], MaxTokens)];
      answer := Answer(reply);
    }

    /**
     * `explore_concept`: `initFailure` is the outcome of rebuilding the agents and
     * `explored` what the explorer returns or raises. The tree is stored only when
     * the exploration returns one.
     */
    method ExploreConcept(concept: string, maxDepth: int, useTools: bool, initFailure: Option<string>, explored: Result<Node>)
      returns (view: ExploreView, calls: seq<Call>)
      requires Valid()
      modifies this
      ensures Valid()
      ensures IsBlank(concept) ==>
        view == ExploreView("", "", strings.blankConcept) && calls == []
        && agents == old(agents) && currentTree == old(currentTree)
      ensures !IsBlank(concept) ==>
        agents == (if initFailure.None? then Some(Settings(maxDepth, useTools)) else old(agents))
      ensures !IsBlank(concept) && agents.None? ==>
        calls == [ConstructAgents(Settings(maxDepth, useTools))]
        && view == ExploreView("", strings.exploreError + NoneAttribute("explore_async"), "")
        && currentTree == old(currentTree)
      ensures !IsBlank(concept) && agents.Some? ==>
        calls == [ConstructAgents(Settings(maxDepth, useTools)), Explore(concept)]
      ensures !IsBlank(concept) && agents.Some? && explored.Ok? ==>
        currentTree == Some(explored.value)
        && view == ExploreView(Render(explored.value, "", true, strings.labels), strings.exploredOpen + concept + strings.exploredClose, "")
      ensures !IsBlank(concept) && agents.Some? && explored.Err? ==>
        currentTree == old(currentTree) && view == ExploreView("", strings.exploreError + explored.message, "")
    {
      if IsBlank(concept) {
        return ExploreView("", "", strings.blankConcept), [];
      }
      var _, initCalls := InitializeAgents(useTools, maxDepth, initFailure);
      if agents.None? {
        return ExploreView("", strings.exploreError + NoneAttribute("explore_async"), ""), initCalls;
      }
      calls := initCalls + [Explore(concept)];
      if explored.Ok? {
        var tree := explored.value;
        currentTree := Some(tree);
        var treeText := FormatTreeDisplay(tree, "", true, strings.labels);
        view := ExploreView(treeText, strings.exploredOpen + concept + strings.exploredClose, "");
      } else {
        view := ExploreView("", strings.exploreError + explored.message, "");
      }
    }

    /** `run_enrichment`: without a stored tree nothing is called. */
    method RunEnrichment(run: EnrichmentRun) returns (view: EnrichView, calls: seq<Call>)
      requires Valid()
      modifies this
      ensures Valid()
      ensures agents == old(agents)
      ensures old(currentTree).None? ==>
        view == EnrichView("", "", strings.noTree) && calls == [] && currentTree == None
      ensures old(currentTree).Some? ==>
        calls == [Enrich(old(currentTree).value)] && currentTree == Some(run.treeAfter)
      ensures old(currentTree).Some? && run.outcome.Ok? ==>
        view == EnrichView(
          EnrichedRender(run.treeAfter, "", true, strings.labels),
          if run.outcome.value.Some? then run.outcome.value.value else strings.noNarrativeGenerated,
          strings.enrichOk)
      ensures old(currentTree).Some? && run.outcome.Err? ==>
        view == EnrichView("", "", strings.enrichError + run.outcome.message)
    {
      if currentTree.None? {
        return EnrichView("", "", strings.noTree), [];
      }
      calls := [Enrich(currentTree.value)];
      currentTree := Some(run.treeAfter);
      if run.outcome.Ok? {
        var treeText := FormatEnrichedTreeDisplay(run.treeAfter, "", true, strings.labels);
        var narrative := if run.outcome.value.Some? then run.outcome.value.value else strings.noNarrativeGenerated;
        view := EnrichView(treeText, narrative, strings.enrichOk);
      } else {
        view := EnrichView("", "", strings.enrichError + run.outcome.message);
      }
    }

    /** `generate_manim_prompt`: reads the narrative attribute of the stored tree's root. */
    method GenerateManimPrompt() returns (narrative: string, status: string)
      ensures (currentTree.None? || currentTree.value.narrative.NoAttribute?) ==>
        narrative == "" && status == strings.noEnrichedTree
      ensures currentTree.Some? && currentTree.value.narrative.NoneNarrative? ==>
        narrative == "" && status == strings.promptError + NoneAttribute("verbose_prompt")
      ensures currentTree.Some? && currentTree.value.narrative.Narrative? ==>
        narrative == currentTree.value.narrative.verbosePrompt && status == strings.promptOk
    {
      if currentTree.None? || currentTree.value.narrative.NoAttribute? {
        return "", strings.noEnrichedTree;
      }
      match currentTree.value.narrative
      case NoneNarrative =>
        narrative, status := "", strings.promptError + NoneAttribute("verbose_prompt");
      case Narrative(v) =>
        narrative, status := v, strings.promptOk;
    }

    /** `save_narrative`: a blank narrative is refused before anything is written. */
    method SaveNarrative(narrative: string, filepath: string, writeFailure: Option<string>) returns (status: string, calls: seq<Call>)
      ensures IsBlank(narrative) ==> calls == [] && status == strings.nothingToSave
      ensures !IsBlank(narrative) ==> calls == [WriteFile(filepath, narrative)]
      ensures !IsBlank(narrative) && writeFailure.None? ==> status == strings.savedTo + filepath
      ensures !IsBlank(narrative) && writeFailure.Some? ==> status == strings.saveError + writeFailure.value
    {
      if IsBlank(narrative) {
        return strings.nothingToSave, [];
      }
      calls := [WriteFile(filepath, narrative)];
      if writeFailure.None? {
        status := strings.savedTo + filepath;
      } else {
        status := strings.saveError + writeFailure.value;
      }
    }
  }
}
