/** LLM creation with a one-shot fallback, and the agent factory (src/agents.py).

    Constructing the LLM client is a call into a library this model cannot see: it is a
    parameter, `factory`, that says for each resolved configuration whether construction
    succeeds or raises, and with which message. */
module Agents {
  import opened Wrappers
  import opened Configuration

  /** The client `LLM(model=..., api_key=..., temperature=0.7)` builds. */
  datatype Llm = Llm(model: string, apiKey: Option<string>, temperature: real)

  /** `None` when `LLM(...)` is constructed for the configuration, `Some(message)` when it raises. */
  type LlmFactory = LlmConfig -> Option<string>

  /** The client built from a resolved configuration. */
  function ClientFor(cfg: LlmConfig): Llm
  {
    Llm(cfg.model, cfg.apiKey, 0.7)
  }

  /** One pass through the `try` block of `create_llm`: resolve, then construct. */
  function TryCreateLlm(c: Config, provider: Option<string>, factory: LlmFactory): (r: Result<(Llm, Provider), Error>)
    ensures r.Success? <==> GetLlmConfig(c, provider).Success? && factory(GetLlmConfig(c, provider).value).None?
    ensures r.Success? ==>
              && r.value.1.Name() == ResolveProvider(c, provider)
              && r.value.0 == ClientFor(GetLlmConfig(c, Some(r.value.1.Name())).value)
    ensures GetLlmConfig(c, provider).Failure? ==> r == Failure(GetLlmConfig(c, provider).error)
    ensures GetLlmConfig(c, provider).Success? && factory(GetLlmConfig(c, provider).value).Some? ==>
              r == Failure(LlmError(factory(GetLlmConfig(c, provider).value).value))
  {
    var cfg :- GetLlmConfig(c, provider);
    match factory(cfg)
    case None => Success((ClientFor(cfg), cfg.provider))
    case Some(message) => Failure(LlmError(message))
  }

  /** `create_llm`: on any failure with a provider other than "groq" (an unset or unknown
      name included) it tries "groq" once more; a failure with "groq" is re-raised. */
  function CreateLlm(c: Config, provider: Option<string>, factory: LlmFactory): (r: Result<(Llm, Provider), Error>)
    decreases if provider == Some("groq") then 0 else 1
    ensures TryCreateLlm(c, provider, factory).Success? ==> r == TryCreateLlm(c, provider, factory)
    ensures r.Success? ==>
              && (r.value.1.Name() == ResolveProvider(c, provider) || r.value.1 == Groq)
              && r.value.0 == ClientFor(GetLlmConfig(c, Some(r.value.1.Name())).value)
    ensures r.Failure? ==> r == TryCreateLlm(c, Some("groq"), factory)
  {
    var attempt := TryCreateLlm(c, provider, factory);
    if attempt.Success? then attempt
    else if provider != Some("groq") then CreateLlm(c, Some("groq"), factory)
    else attempt
  }

  /** The arguments `create_llm` is called with during one top-level call, in order. */
  function LlmAttempts(c: Config, provider: Option<string>, factory: LlmFactory): seq<Option<string>>
    decreases if provider == Some("groq") then 0 else 1
  {
    [provider] +
    if TryCreateLlm(c, provider, factory).Failure? && provider != Some("groq")
    then LlmAttempts(c, Some("groq"), factory)
    else []
  }

  /** The recursion is bounded: at most two attempts, the second one with "groq", and the
      result is that of the last attempt. */
  lemma {:induction false} CreateLlmBounded(c: Config, provider: Option<string>, factory: LlmFactory)
    ensures var attempts := LlmAttempts(c, provider, factory);
            && 1 <= |attempts| <= 2
            && attempts[0] == provider
            && (|attempts| == 2 ==> attempts[1] == Some("groq"))
            && CreateLlm(c, provider, factory) == TryCreateLlm(c, attempts[|attempts| - 1], factory)
  {
    if TryCreateLlm(c, provider, factory).Failure? && provider != Some("groq") {
      assert LlmAttempts(c, Some("groq"), factory) == [Some("groq")];
    }
  }

  /** An unknown provider name does not raise: its `ValueError` is swallowed and "groq" is used. */
  lemma UnknownProviderFallsBackToGroq(c: Config, provider: Option<string>, factory: LlmFactory)
    requires ProviderNamed(ResolveProvider(c, provider)).None?
    ensures CreateLlm(c, provider, factory) == TryCreateLlm(c, Some("groq"), factory)
  {
  }

  /** The retry test compares the argument, not the resolved name: with "groq" as the default,
      an unset selector whose construction fails is tried with "groq" a second time. */
  lemma DefaultGroqIsTriedTwice(c: Config, factory: LlmFactory)
    requires c.defaultLlm == "groq"
    requires TryCreateLlm(c, None, factory).Failure?
    ensures LlmAttempts(c, None, factory) == [None, Some("groq")]
  {
    assert LlmAttempts(c, Some("groq"), factory) == [Some("groq")];
  }

  /** The tools an agent may be given; their behaviour is outside this model. */
  datatype Tool = SearchTool | ProjectTool

  /** The fields of a CrewAI `Agent` that the core sets, its backstory prose aside. */
  datatype Agent = Agent(role: string, goal: string, tools: seq<Tool>, llm: Llm, verbose: bool, allowDelegation: bool)

  const CuratorRole: string := "Educational Content Curator"
  const CuratorGoal: string :=
    "Find and curate the highest quality learning resources (videos, articles, exercises) "
    + "for the specified topics and expertise level"
  const DesignerRole: string := "Assessment Designer"
  const DesignerGoal: string :=
    "Create engaging and educational multiple-choice quizzes that test understanding "
    + "of the key concepts from the learning materials"
  const AdvisorRole: string := "Project Advisor and Mentor"
  const AdvisorGoal: string :=
    "Recommend practical, hands-on project ideas that allow learners to apply "
    + "their knowledge and build a portfolio"

  /** `EducationAgents`: the client and the name of the provider that built it, set once when
      the factory is made; the three agents are built around that one client. */
  datatype EducationAgents = EducationAgents(llm: Llm, activeProvider: Provider) {

    /** `learning_material_agent`: the curator, the only agent that can search. */
    function LearningMaterialAgent(): (a: Agent)
      ensures a.llm == llm && a.role == CuratorRole
      ensures SearchTool in a.tools && ProjectTool !in a.tools
      ensures a.verbose && !a.allowDelegation
    {
      Agent(CuratorRole, CuratorGoal, [SearchTool], llm, true, false)
    }

    /** `quiz_creator_agent`: the assessment designer, which has no tools. */
    function QuizCreatorAgent(): (a: Agent)
      ensures a.llm == llm && a.role == DesignerRole
      ensures |a.tools| == 0
      ensures a.verbose && !a.allowDelegation
    {
      Agent(DesignerRole, DesignerGoal, [], llm, true, false)
    }

    /** `project_idea_agent`: the advisor, the only agent with the project-guideline tool. */
    function ProjectIdeaAgent(): (a: Agent)
      ensures a.llm == llm && a.role == AdvisorRole
      ensures ProjectTool in a.tools && SearchTool !in a.tools
      ensures a.verbose && !a.allowDelegation
    {
      Agent(AdvisorRole, AdvisorGoal, [ProjectTool], llm, true, false)
    }
  }

  /** `EducationAgents(llm_provider)`: the factory exists exactly when `create_llm` succeeds and
      stores what it returned; otherwise the error propagates. Asking for "groq" yields a groq
      factory or an error. */
  function CreateEducationAgents(c: Config, llmProvider: Option<string>, factory: LlmFactory): (r: Result<EducationAgents, Error>)
    ensures r.Success? <==> CreateLlm(c, llmProvider, factory).Success?
    ensures r.Success? ==> r.value == EducationAgents(CreateLlm(c, llmProvider, factory).value.0,
                                                      CreateLlm(c, llmProvider, factory).value.1)
                           && r.value.activeProvider.Name() in {ResolveProvider(c, llmProvider), "groq"}
    ensures llmProvider == Some("groq") && r.Success? ==> r.value.activeProvider == Groq
    ensures r.Failure? ==> r.error == TryCreateLlm(c, Some("groq"), factory).error
  {
    var (llm, provider) :- CreateLlm(c, llmProvider, factory);
    Success(EducationAgents(llm, provider))
  }

  /** The three agents share the factory's one client, none may delegate, only the curator can
      search and only the advisor has the project-guideline tool. */
  lemma AgentsShareClientAndTools(f: EducationAgents)
    ensures f.LearningMaterialAgent().llm == f.QuizCreatorAgent().llm == f.ProjectIdeaAgent().llm == f.llm
    ensures !f.LearningMaterialAgent().allowDelegation && !f.QuizCreatorAgent().allowDelegation
            && !f.ProjectIdeaAgent().allowDelegation
    ensures f.LearningMaterialAgent().tools == [SearchTool]
    ensures f.QuizCreatorAgent().tools == []
    ensures f.ProjectIdeaAgent().tools == [ProjectTool]
  {
  }
}
