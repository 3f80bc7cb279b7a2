/** The pipeline run (src/crew.py): validate the expertise level, build the three agents and
    the three stages under the current provider, run them in order, and on a failure under
    openrouter switch the crew to groq for good and run everything again.

    Running the crew (`Crew.kickoff`) is a call into a library this model cannot see. It is a
    parameter, `kickoff`, that for each assembled crew either completes with the three stage
    outputs or fails with a message. Likewise `llms` says whether constructing an LLM client for
    a configuration succeeds. */
module Crew {
  import opened Wrappers
  import opened Text
  import opened Models
  import opened Configuration
  import opened Agents
  import opened Tasks

  const ValidLevels: seq<string> := ["beginner", "intermediate", "advanced"]

  /** The message of the `ValueError` for a bad level. */
  const LevelMessage: string := "Expertise level must be one of: " + Join(", ", ValidLevels)

  /** `expertise_level.lower() in valid_levels` */
  function ValidLevel(level: string): (b: bool)
    ensures b <==> Lower(level) == "beginner" || Lower(level) == "intermediate" || Lower(level) == "advanced"
  {
    Lower(level) in ValidLevels
  }

  datatype Process = Sequential

  /** What `Crew(agents=..., tasks=..., process=Process.sequential, verbose=True)` holds. */
  datatype CrewPlan = CrewPlan(agents: seq<Agent>, tasks: seq<Task>, process: Process, verbose: bool)

  /** What running a crew gives: the raw result and the validated outputs of the first, second
      and third stage, or the message of the exception it raised. */
  datatype KickoffOutcome =
    | Completed(raw: string, learningMaterials: LearningMaterial, quiz: Quiz, projects: ProjectSuggestions)
    | Crashed(message: string)

  type Kickoff = CrewPlan -> KickoffOutcome

  /** The arguments of `run`. */
  datatype Request = Request(topic: string, expertiseLevel: string, resourcesPerCategory: int,
                             numQuestions: int, numProjects: int)

  /** The dictionary `run` returns. */
  datatype Envelope =
    | Succeeded(topic: string, expertiseLevel: string, learningMaterials: LearningMaterial, quiz: Quiz,
                projects: ProjectSuggestions, rawOutput: string)
    | Failed(error: string, topic: string, expertiseLevel: string)
  {
    /** The value stored under "success". */
    function Success(): bool
    {
      Succeeded?
    }

    /** The keys of the dictionary. */
    function Keys(): set<string>
    {
      if Succeeded? then {"success", "topic", "expertise_level", "learning_materials", "quiz", "projects", "raw_output"}
      else {"success", "error", "topic", "expertise_level"}
    }
  }

  /** The agents, the stages and the crew `run` builds from a factory. How they are wired
      together is `BuildCrewWiring`. */
  function BuildCrew(f: EducationAgents, req: Request): (plan: CrewPlan)
    ensures |plan.agents| == 3 && |plan.tasks| == 3 && plan.process == Sequential
  {
    var learningAgent := f.LearningMaterialAgent();
    var quizAgent := f.QuizCreatorAgent();
    var projectAgent := f.ProjectIdeaAgent();
    var task1 := CurateLearningMaterialsTask(learningAgent, req.topic, req.expertiseLevel, req.resourcesPerCategory);
    var task2 := CreateQuizTask(quizAgent, task1, req.numQuestions);
    var task3 := SuggestProjectsTask(projectAgent, task1, req.topic, req.expertiseLevel, req.numProjects);
    CrewPlan([learningAgent, quizAgent, projectAgent], [task1, task2, task3], Sequential, true)
  }

  /** The crew `run` builds holds the factory's three agents, in order, each stage run by its own
      agent on the factory's LLM client; the quiz and the project stages read the curation
      stage's output, and each stage is checked against its schema. */
  lemma BuildCrewWiring(f: EducationAgents, req: Request)
    ensures var plan := BuildCrew(f, req);
      && plan.agents == [f.LearningMaterialAgent(), f.QuizCreatorAgent(), f.ProjectIdeaAgent()]
      && plan.tasks ==
           [ CurateLearningMaterialsTask(plan.agents[0], req.topic, req.expertiseLevel, req.resourcesPerCategory),
             CreateQuizTask(plan.agents[1], plan.tasks[0], req.numQuestions),
             SuggestProjectsTask(plan.agents[2], plan.tasks[0], req.topic, req.expertiseLevel, req.numProjects) ]
      && (forall i :: 0 <= i < 3 ==> plan.tasks[i].agent == plan.agents[i] && plan.agents[i].llm == f.llm)
      && plan.tasks[0].context == [] && plan.tasks[1].context == [plan.tasks[0]]
      && plan.tasks[2].context == [plan.tasks[0]]
      && plan.tasks[0].outputPydantic == LearningMaterialSchema && plan.tasks[1].outputPydantic == QuizSchema
      && plan.tasks[2].outputPydantic == ProjectSuggestionsSchema
  {
  }

  /** What one call of `run` does: its outcome (a dictionary, or the exception raised), the
      factory the crew holds afterwards, and the crews it ran, in order. */
  datatype RunTrace = RunTrace(outcome: Result<Envelope, Error>, factory: EducationAgents, kickoffs: seq<CrewPlan>)

  function RunSpec(f: EducationAgents, c: Config, req: Request, llms: LlmFactory, kickoff: Kickoff): (t: RunTrace)
    decreases if f.activeProvider == OpenRouter then 1 else 0
    ensures ValidLevel(req.expertiseLevel) <==> |t.kickoffs| >= 1
    ensures t.factory != f ==>
              && f.activeProvider == OpenRouter && t.factory.activeProvider == Groq
              && Success(t.factory) == CreateEducationAgents(c, Some("groq"), llms)
  {
    if !ValidLevel(req.expertiseLevel) then RunTrace(Failure(ValueError(LevelMessage)), f, [])
    else
      var plan := BuildCrew(f, req);
      match kickoff(plan)
      case Completed(raw, materials, quiz, projects) =>
        RunTrace(Success(Succeeded(req.topic, req.expertiseLevel, materials, quiz, projects, raw)), f, [plan])
      case Crashed(message) =>
        if f.activeProvider == OpenRouter then
          match CreateEducationAgents(c, Some("groq"), llms)
          case Failure(e) => RunTrace(Failure(e), f, [plan])
          case Success(groq) =>
            var rest := RunSpec(groq, c, req, llms, kickoff);
            RunTrace(rest.outcome, rest.factory, [plan] + rest.kickoffs)
        else
          RunTrace(Success(Failed(message, req.topic, req.expertiseLevel)), f, [plan])
  }

  /** One fallback step of a run: when the first crew fails under openrouter and a groq factory
      can be built, the run is the first crew followed by the run under that factory. */
  lemma RunSpecFallbackStep(f: EducationAgents, c: Config, req: Request, llms: LlmFactory, kickoff: Kickoff)
    requires ValidLevel(req.expertiseLevel) && kickoff(BuildCrew(f, req)).Crashed?
    requires f.activeProvider == OpenRouter && CreateEducationAgents(c, Some("groq"), llms).Success?
    ensures var rest := RunSpec(CreateEducationAgents(c, Some("groq"), llms).value, c, req, llms, kickoff);
            RunSpec(f, c, req, llms, kickoff) == RunTrace(rest.outcome, rest.factory, [BuildCrew(f, req)] + rest.kickoffs)
  {
  }

  /** `EducationCrew`: a configuration and the agent factory, which `run` may replace. */
  class EducationCrew {
    var agentsFactory: EducationAgents
    const config: Config

    constructor (config: Config, agentsFactory: EducationAgents)
      ensures this.config == config && this.agentsFactory == agentsFactory
    {
      this.config := config;
      this.agentsFactory := agentsFactory;
    }

    /** `EducationCrew(llm_provider)`: builds the agent factory for the provider, or raises
        what building it raised. */
    static method Create(config: Config, llmProvider: Option<string>, llms: LlmFactory) returns (r: Result<EducationCrew, Error>)
      ensures r.Success? <==> CreateEducationAgents(config, llmProvider, llms).Success?
      ensures r.Success? ==> fresh(r.value) && r.value.config == config
                             && r.value.agentsFactory == CreateEducationAgents(config, llmProvider, llms).value
      ensures r.Failure? ==> r.error == CreateEducationAgents(config, llmProvider, llms).error
    {
      var factory := CreateEducationAgents(config, llmProvider, llms);
      if factory.Failure? {
        return Failure(factory.error);
      }
      var crew := new EducationCrew(config, factory.value);
      return Success(crew);
    }

    /** `EducationCrew.run` */
    method Run(llms: LlmFactory, kickoff: Kickoff, topic: string, expertiseLevel: string,
               resourcesPerCategory: int := 3, numQuestions: int := 5, numProjects: int := 2)
      returns (r: Result<Envelope, Error>)
      modifies this
      decreases if agentsFactory.activeProvider == OpenRouter then 1 else 0
      ensures var t := RunSpec(old(agentsFactory), config,
                               Request(topic, expertiseLevel, resourcesPerCategory, numQuestions, numProjects),
                               llms, kickoff);
              r == t.outcome && agentsFactory == t.factory
    {
      ghost var req := Request(topic, expertiseLevel, resourcesPerCategory, numQuestions, numProjects);
      if !ValidLevel(expertiseLevel) {
        RunRejectsBadLevel(agentsFactory, config, req, llms, kickoff);
        return Failure(ValueError(LevelMessage));
      }
      var learningAgent := agentsFactory.LearningMaterialAgent();
      var quizAgent := agentsFactory.QuizCreatorAgent();
      var projectAgent := agentsFactory.ProjectIdeaAgent();
      var task1 := CurateLearningMaterialsTask(learningAgent, topic, expertiseLevel, resourcesPerCategory);
      var task2 := CreateQuizTask(quizAgent, task1, numQuestions);
      var task3 := SuggestProjectsTask(projectAgent, task1, topic, expertiseLevel, numProjects);
      var crew := CrewPlan([learningAgent, quizAgent, projectAgent], [task1, task2, task3], Sequential, true);
      assert crew == BuildCrew(agentsFactory, req);
      var result := kickoff(crew);
      if result.Completed? {
        RunCompletedReturnsAtOnce(agentsFactory, config, req, llms, kickoff);
        return Success(Succeeded(topic, expertiseLevel, result.learningMaterials, result.quiz, result.projects, result.raw));
      }
      if agentsFactory.activeProvider == OpenRouter {
        var groq := CreateEducationAgents(config, Some("groq"), llms);
        if groq.Failure? {
          RunFallbackCreationRaises(agentsFactory, config, req, llms, kickoff);
          return Failure(groq.error);
        }
        RunSpecFallbackStep(agentsFactory, config, req, llms, kickoff);
        agentsFactory := groq.value;
        r := Run(llms, kickoff, topic, expertiseLevel, resourcesPerCategory, numQuestions, numProjects);
        return;
      }
      RunCrashUnderGroqReports(agentsFactory, config, req, llms, kickoff, result.message);
      return Success(Failed(result.message, topic, expertiseLevel));
    }
  }

  /** `create_education_crew` */
  method CreateEducationCrew(config: Config, llmProvider: Option<string>, llms: LlmFactory) returns (r: Result<EducationCrew, Error>)
    ensures r.Success? <==> CreateEducationAgents(config, llmProvider, llms).Success?
    ensures r.Success? ==> fresh(r.value) && r.value.config == config
                           && r.value.agentsFactory == CreateEducationAgents(config, llmProvider, llms).value
    ensures r.Failure? ==> r.error == CreateEducationAgents(config, llmProvider, llms).error
  {
    r := EducationCrew.Create(config, llmProvider, llms);
  }

  // ---------------------------------------------------------------------------------------
  // Properties of a run.

  /** The level test ignores ASCII case: "Beginner" and "ADVANCED" pass, "expert" does not. */
  lemma LevelCheckIgnoresCase(level: string)
    ensures ValidLevel(level) <==> ValidLevel(Lower(level))
    ensures ValidLevel("Beginner") && ValidLevel("ADVANCED") && !ValidLevel("expert")
  {
    LowerIdempotent(level);
    assert Lower("Beginner") == "beginner";
    assert Lower("ADVANCED") == "advanced";
    assert |Lower("expert")| == 6;
  }

  /** A bad level raises before anything is built or run, and leaves the crew as it was. */
  lemma RunRejectsBadLevel(f: EducationAgents, c: Config, req: Request, llms: LlmFactory, kickoff: Kickoff)
    requires !ValidLevel(req.expertiseLevel)
    ensures RunSpec(f, c, req, llms, kickoff) == RunTrace(Failure(ValueError(LevelMessage)), f, [])
  {
  }

  /** A run under groq runs the crew at most once; any run at most twice. */
  lemma {:induction false} RunKickoffBound(f: EducationAgents, c: Config, req: Request, llms: LlmFactory, kickoff: Kickoff)
    ensures |RunSpec(f, c, req, llms, kickoff).kickoffs| <= 2
    ensures f.activeProvider == Groq ==> |RunSpec(f, c, req, llms, kickoff).kickoffs| <= 1
    decreases if f.activeProvider == OpenRouter then 1 else 0
  {
    if ValidLevel(req.expertiseLevel) && kickoff(BuildCrew(f, req)).Crashed? && f.activeProvider == OpenRouter {
      var g := CreateEducationAgents(c, Some("groq"), llms);
      if g.Success? {
        RunKickoffBound(g.value, c, req, llms, kickoff);
      }
    }
  }

  /** Every crew a run executes is built entirely from the factory the crew held at that point:
      the first from the original one, a second from the groq factory that replaced it. */
  lemma {:induction false} RunRebuildsEverything(f: EducationAgents, c: Config, req: Request, llms: LlmFactory, kickoff: Kickoff)
    ensures var t := RunSpec(f, c, req, llms, kickoff);
            && (|t.kickoffs| >= 1 ==> t.kickoffs[0] == BuildCrew(f, req))
            && (|t.kickoffs| == 2 ==>
                  && t.kickoffs[1] == BuildCrew(t.factory, req)
                  && t.factory.activeProvider == Groq
                  && Success(t.factory) == CreateEducationAgents(c, Some("groq"), llms))
    decreases if f.activeProvider == OpenRouter then 1 else 0
  {
    var t := RunSpec(f, c, req, llms, kickoff);
    if ValidLevel(req.expertiseLevel) && kickoff(BuildCrew(f, req)).Crashed? && f.activeProvider == OpenRouter {
      var g := CreateEducationAgents(c, Some("groq"), llms);
      if g.Success? {
        RunKickoffBound(g.value, c, req, llms, kickoff);
        RunRebuildsEverything(g.value, c, req, llms, kickoff);
      }
    }
  }

  /** A success dictionary takes the three outputs, in stage order, from the last crew run, and
      the topic and level exactly as the caller spelled them. */
  lemma {:induction false} RunSuccessEnvelope(f: EducationAgents, c: Config, req: Request, llms: LlmFactory, kickoff: Kickoff)
    requires RunSpec(f, c, req, llms, kickoff).outcome.Success?
    requires RunSpec(f, c, req, llms, kickoff).outcome.value.Succeeded?
    ensures var t := RunSpec(f, c, req, llms, kickoff);
            var e := t.outcome.value;
            && |t.kickoffs| >= 1
            && kickoff(t.kickoffs[|t.kickoffs| - 1]) ==
                 Completed(e.rawOutput, e.learningMaterials, e.quiz, e.projects)
            && t.kickoffs[|t.kickoffs| - 1] == BuildCrew(t.factory, req)
            && e.topic == req.topic && e.expertiseLevel == req.expertiseLevel
            && e.Success()
    decreases if f.activeProvider == OpenRouter then 1 else 0
  {
    if kickoff(BuildCrew(f, req)).Crashed? && f.activeProvider == OpenRouter {
      var g := CreateEducationAgents(c, Some("groq"), llms);
      RunSuccessEnvelope(g.value, c, req, llms, kickoff);
    }
  }

  /** A failure dictionary only comes from a run that ended under groq with the crew failing:
      it carries that failure's message and the caller's topic and level, and no stage output. */
  lemma {:induction false} RunFailureEnvelope(f: EducationAgents, c: Config, req: Request, llms: LlmFactory, kickoff: Kickoff)
    requires RunSpec(f, c, req, llms, kickoff).outcome.Success?
    requires RunSpec(f, c, req, llms, kickoff).outcome.value.Failed?
    ensures var t := RunSpec(f, c, req, llms, kickoff);
            var e := t.outcome.value;
            && |t.kickoffs| >= 1
            && kickoff(t.kickoffs[|t.kickoffs| - 1]) == Crashed(e.error)
            && t.factory.activeProvider == Groq
            && e.topic == req.topic && e.expertiseLevel == req.expertiseLevel
            && !e.Success()
            && e.Keys() * {"learning_materials", "quiz", "projects", "raw_output"} == {}
    decreases if f.activeProvider == OpenRouter then 1 else 0
  {
    if kickoff(BuildCrew(f, req)).Crashed? && f.activeProvider == OpenRouter {
      var g := CreateEducationAgents(c, Some("groq"), llms);
      RunFailureEnvelope(g.value, c, req, llms, kickoff);
    } else {
      FailedHasNoOutputs(RunSpec(f, c, req, llms, kickoff).outcome.value);
    }
  }

  /** A failure dictionary reports failure and has none of the keys of the stage outputs. */
  lemma FailedHasNoOutputs(e: Envelope)
    requires e.Failed?
    ensures !e.Success() && e.Keys() * {"learning_materials", "quiz", "projects", "raw_output"} == {}
  {
  }

  /** The prompts of the crew a run assembles carry the request: the curation prompt names the
      topic and level and asks for the count of resources, the quiz prompt for the number of
      questions and the project prompt for the number of projects. */
  lemma CrewPromptsCarryRequest(f: EducationAgents, req: Request)
    ensures var plan := BuildCrew(f, req);
            && Contains(plan.tasks[0].description, TopicPhrase(req.topic))
            && Contains(plan.tasks[0].description, LevelPhrase(req.expertiseLevel))
            && Contains(plan.tasks[0].description, "2. Find " + IntToString(req.resourcesPerCategory) + VideosText)
            && Contains(plan.tasks[1].description, "3. Create " + IntToString(req.numQuestions) + CreateText)
            && Contains(plan.tasks[2].description, "2. Design " + IntToString(req.numProjects) + DesignText)
  {
    var plan := BuildCrew(f, req);
    CurationPromptNamesRequest(plan.agents[0], req.topic, req.expertiseLevel, req.resourcesPerCategory);
    CurationPromptCounts(plan.agents[0], req.topic, req.expertiseLevel, req.resourcesPerCategory);
    QuizPromptInterpolation(plan.agents[1], plan.tasks[0], req.numQuestions);
    ProjectPromptInterpolation(plan.agents[2], plan.tasks[0], req.topic, req.expertiseLevel, req.numProjects);
  }

  /** A valid request whose first crew completes returns its outputs at once: one run of the
      crew, and the factory is kept. */
  lemma RunCompletedReturnsAtOnce(f: EducationAgents, c: Config, req: Request, llms: LlmFactory, kickoff: Kickoff)
    requires ValidLevel(req.expertiseLevel) && kickoff(BuildCrew(f, req)).Completed?
    ensures var k := kickoff(BuildCrew(f, req));
            RunSpec(f, c, req, llms, kickoff) ==
              RunTrace(Success(Succeeded(req.topic, req.expertiseLevel, k.learningMaterials, k.quiz, k.projects, k.raw)),
                       f, [BuildCrew(f, req)])
  {
  }

  /** Under groq a failing crew does not raise: `run` returns the failure dictionary with the
      failure's message and the caller's topic and level. */
  lemma RunCrashUnderGroqReports(f: EducationAgents, c: Config, req: Request, llms: LlmFactory, kickoff: Kickoff, message: string)
    requires ValidLevel(req.expertiseLevel) && f.activeProvider == Groq
    requires kickoff(BuildCrew(f, req)) == Crashed(message)
    ensures RunSpec(f, c, req, llms, kickoff) ==
              RunTrace(Success(Failed(message, req.topic, req.expertiseLevel)), f, [BuildCrew(f, req)])
  {
  }

  /** `run` raises only for a bad level or when the groq factory of the fallback cannot be
      built; every other run returns a dictionary. */
  lemma {:induction false} RunRaisesOnlyForLevelOrFallback(f: EducationAgents, c: Config, req: Request, llms: LlmFactory, kickoff: Kickoff)
    requires RunSpec(f, c, req, llms, kickoff).outcome.Failure?
    ensures !ValidLevel(req.expertiseLevel) || CreateEducationAgents(c, Some("groq"), llms).Failure?
    decreases if f.activeProvider == OpenRouter then 1 else 0
  {
    if ValidLevel(req.expertiseLevel) && kickoff(BuildCrew(f, req)).Crashed? && f.activeProvider == OpenRouter {
      var g := CreateEducationAgents(c, Some("groq"), llms);
      if g.Success? {
        RunRaisesOnlyForLevelOrFallback(g.value, c, req, llms, kickoff);
      }
    }
  }

  /** A failure under openrouter switches the crew to groq for good: the run goes on under groq,
      and the next run on the same crew starts under groq and runs the crew at most once. */
  lemma RunFallbackPersists(f: EducationAgents, c: Config, req: Request, next: Request, llms: LlmFactory, kickoff: Kickoff)
    requires ValidLevel(req.expertiseLevel) && f.activeProvider == OpenRouter
    requires kickoff(BuildCrew(f, req)).Crashed?
    requires CreateEducationAgents(c, Some("groq"), llms).Success?
    ensures var t := RunSpec(f, c, req, llms, kickoff);
            && t.factory.activeProvider == Groq
            && |t.kickoffs| == 2
            && |RunSpec(t.factory, c, next, llms, kickoff).kickoffs| <= 1
  {
    var g := CreateEducationAgents(c, Some("groq"), llms).value;
    RunSpecFallbackStep(f, c, req, llms, kickoff);
    RunKickoffBound(g, c, req, llms, kickoff);
    assert g.activeProvider == Groq;
    assert RunSpec(f, c, req, llms, kickoff).factory == g;
    RunKickoffBound(g, c, next, llms, kickoff);
  }

  /** If the groq factory cannot be built during the fallback, its error escapes `run` instead
      of becoming a failure dictionary, and the crew keeps its openrouter factory. */
  lemma RunFallbackCreationRaises(f: EducationAgents, c: Config, req: Request, llms: LlmFactory, kickoff: Kickoff)
    requires ValidLevel(req.expertiseLevel) && f.activeProvider == OpenRouter
    requires kickoff(BuildCrew(f, req)).Crashed?
    requires CreateEducationAgents(c, Some("groq"), llms).Failure?
    ensures RunSpec(f, c, req, llms, kickoff) ==
              RunTrace(Failure(TryCreateLlm(c, Some("groq"), llms).error), f, [BuildCrew(f, req)])
  {
  }
}
