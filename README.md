# Personalized education assistant: a Dafny model of its core

The assistant takes a topic and an expertise level. It runs three CrewAI agents in sequence:
- a curator collects videos, articles and exercises;
- an assessment designer writes a multiple-choice quiz from that material;
- an advisor suggests hands-on projects.

Each agent's output must validate as a pydantic record.

The reasoning backend is one of two LLM providers, OpenRouter or Groq. If building the client fails, or a run under OpenRouter fails, the assistant switches to Groq.

This project models that core in Dafny:

- `models.dfy` (module `Models`) holds the output records of `src/models.py`, their validation from a JSON payload and their serialisation back to it. It also holds what validation requires, defaults and leaves unchecked.
- `config.dfy` (module `Configuration`) holds `Config` from `src/config.py`:
  - provider resolution;
  - the routing prefix on model names;
  - the provider endpoints;
  - the API-key check.
- `agents.dfy` (module `Agents`) holds `create_llm` with its one-shot Groq fallback and the `EducationAgents` factory of `src/agents.py`.
- `tasks.dfy` (module `Tasks`) holds the three stage definitions of `src/tasks.py`: who runs each stage, which earlier stage it reads, which record it validates as, and where its prompt interpolates the request.
- `crew.dfy` (module `Crew`) holds `EducationCrew` of `src/crew.py`. `run` is a method on a class whose agent factory it replaces when it falls back. It is proved equal to the pure specification `RunSpec`, and the properties of a run are lemmas about `RunSpec`.
- `text.dfy` (module `Text`) and `wrappers.dfy` (module `Wrappers`) hold string helpers (`str.join`, `str.lower`, `str(int)`, substring containment) and the `Option`/`Result` types.

Exceptions are values. `Configuration.Error` is either `ValueError` or an error raised while constructing an LLM client. `Result` carries it.

Two calls into CrewAI are parameters:
- constructing an LLM client, `LlmFactory`, which says per resolved configuration whether construction raises and with which message;
- `Crew.kickoff`, `Kickoff`, which for an assembled crew either completes with the three validated stage outputs or fails with a message.

Every property below holds for every choice of these two functions.

`EducationAgents` is a datatype because its fields are set once, when it is constructed. `EducationCrew` is a class because `run` reassigns its `agents_factory`.

In a few places the source's own text promises more than its code enforces. The model follows the code:
- The field descriptions (src/models.py:35-36) and the quiz prompt (src/tasks.py:87, 96-97) ask for four options per question, with the answer among them. The records check neither.
- The descriptions of `total_questions` and `total_projects` (src/models.py:44, 70) call them totals. Nothing checks them against the list lengths. `Models.SchemaAcceptsInconsistentOutputs` shows violating outputs that validate.
- The docstring of `run` (src/crew.py:41-42) says it returns a dictionary. When the fallback to Groq cannot even build its agents, the exception escapes `run` (`Crew.RunFallbackCreationRaises`).

## Model

| member | source | states |
|---|---|---|
| Models.ParseListItems | src/models.py:20-22 | a list field validates iff every item validates, and then item by item in order |
| Models.ListField | src/models.py:20-22 | an absent list field is `[]` when it has a default factory and a missing-field error when it is required; a present array validates exactly as its items do; any other present value is a wrong-type error |
| Models.StrField | src/models.py:10-13 | a string field validates iff it is present and a string; an absent one is a missing-field error |
| Models.IntField | src/models.py:44-46 | an integer field validates iff it is present and an integer; an absent one is a missing-field error |
| Models.ParseListRoundTrip | src/models.py:20-22 | a list of records, serialised item by item, validates back to the same list |
| Models.ResourceRoundTrip | src/models.py:8-13 | a Resource validates back to itself from its payload |
| Models.LearningMaterialRoundTrip | src/models.py:16-23 | a LearningMaterial validates back to itself from its payload |
| Models.LearningMaterialListFields | src/models.py:20-22 | the three resource lists of a LearningMaterial payload validate back to the record's lists |
| Models.QuizQuestionRoundTrip | src/models.py:26-38 | a QuizQuestion, options included, validates back to itself |
| Models.QuizRoundTrip | src/models.py:41-46 | a Quiz validates back to itself from its payload |
| Models.ProjectIdeaRoundTrip | src/models.py:49-63 | a ProjectIdea, deliverables included, validates back to itself |
| Models.ProjectIdeaScalarFields | src/models.py:57-60 | the four string fields of a ProjectIdea payload validate back to the record's fields |
| Models.ProjectIdeaListFields | src/models.py:61-63 | the concept, deliverable and outcome lists validate back to the record's lists |
| Models.ProjectSuggestionsRoundTrip | src/models.py:66-70 | a ProjectSuggestions validates back to itself from its payload |
| Models.ResourceRequiresAllFields | src/models.py:8-13 | a Resource validates iff title, url, description and resource_type are all present as strings |
| Models.LearningMaterialDefaults | src/models.py:16-23 | topic, expertise_level and summary are required. A payload with those strings validates when each list is absent or a valid array, independently of the other two. An absent list becomes `[]` |
| Models.LearningMaterialWithoutLists | src/models.py:20-22 | removing the three lists from a valid payload gives the same record with empty lists |
| Models.QuizQuestionRequiresAllFields | src/models.py:32-38 | a quiz question missing any of its five fields, options included, is rejected |
| Models.ProjectIdeaRequiresLists | src/models.py:61-63 | a project idea missing key_concepts, deliverables or learning_outcomes is rejected |
| Models.SchemaAcceptsInconsistentOutputs | src/models.py:41-70 | a quiz whose count, time and answer are inconsistent validates, and so do suggestions whose count is wrong |
| Models.ParseResource | src/models.py:8-13 | a payload validates exactly when it is an object whose declared fields have the declared types, with every list item valid, whatever other keys it has; a non-object is rejected; a validated Resource takes each of its four fields from the payload's string under that name (the converse is ResourceRequiresAllFields, the inverse ResourceRoundTrip) |
| Models.ParseLearningMaterial | src/models.py:16-23 | a payload validates exactly when it is an object whose declared fields have the declared types, with every list item valid, whatever other keys it has; a non-object is rejected; a validated record takes topic, level and summary from the payload's strings, and each resource list from the payload's array, or `[]` when it is absent |
| Models.ParseQuizOption | src/models.py:26-29 | a payload validates exactly when it is an object whose declared fields have the declared types, with every list item valid, whatever other keys it has; a non-object is rejected; a validated option takes its label and text from the payload's strings |
| Models.ParseQuizQuestion | src/models.py:32-38 | a payload validates exactly when it is an object whose declared fields have the declared types, with every list item valid, whatever other keys it has; a non-object is rejected; a validated question takes its four strings from the payload and its options from the payload's array, which must be present |
| Models.ParseQuiz | src/models.py:41-46 | a payload validates exactly when it is an object whose declared fields have the declared types, with every list item valid, whatever other keys it has; a non-object is rejected; a validated quiz takes topic, question count and minutes from the payload and its questions from the payload's required array |
| Models.ParseDeliverable | src/models.py:49-52 | a payload validates exactly when it is an object whose declared fields have the declared types, with every list item valid, whatever other keys it has; a non-object is rejected; a validated deliverable takes its name and description from the payload's strings |
| Models.ParseProjectIdea | src/models.py:55-63 | a payload validates exactly when it is an object whose declared fields have the declared types, with every list item valid, whatever other keys it has; a non-object is rejected; a validated idea takes its four strings from the payload and its three lists from the payload's required arrays |
| Models.ParseProjectSuggestions | src/models.py:66-70 | a payload validates exactly when it is an object whose declared fields have the declared types, with every list item valid, whatever other keys it has; a non-object is rejected; a validated record takes topic and count from the payload and its projects from the payload's required array |
| Models.MapSeq | src/models.py:20-22 | serialising a list maps each item in place, keeping the length |
| Configuration.ProviderNamed | src/config.py:35-60 | exactly the names "openrouter" and "groq" select a provider, and the one selected carries that name |
| Configuration.DefaultConfig | src/config.py:15-29 | `Config()` with only the three keys set: those keys, default provider "openrouter", the two default model names, and counts 3, 5 and 2 |
| Configuration.ResolveProvider | src/config.py:33 | a truthy selector is used as given; None or the empty string means the configured default |
| Configuration.WithPrefix | src/config.py:37-39 | the routed model name starts with the prefix; a name that already has it is unchanged; otherwise the original name follows the prefix |
| Configuration.WithPrefixIdempotent | src/config.py:37-51 | applying the prefix rule twice gives the same name as applying it once |
| Configuration.GetLlmConfig | src/config.py:31-60 | succeeds iff the resolved name is a known provider. On success it gives that provider, its endpoint and its key (present or not), and the configured model name with the provider's routing prefix put in front unless it is already there. Otherwise it raises ValueError "Unknown LLM provider: " plus the name |
| Configuration.FalsySelectorUsesDefault | src/config.py:33 | an unset or empty selector resolves exactly like the configured default |
| Configuration.DefaultProviderIsOpenRouter | src/config.py:22-46 | with the environment defaults an unset selector yields openrouter, its endpoint and "openrouter/meta-llama/llama-4-scout:free" |
| Configuration.GetLlmConfigIdempotent | src/config.py:31-58 | storing the routed model name back into the configuration and resolving again gives the same result |
| Configuration.GetLlmConfigIgnoresKeys | src/config.py:31-60 | whether resolution succeeds does not depend on which API keys are set |
| Configuration.MissingNamesExact | src/config.py:64-71 | a key name is reported iff its value is missing or empty, and the report keeps the checking order |
| Configuration.ValidateApiKeys | src/config.py:62-76 | returns True iff no key is missing; otherwise raises ValueError "Missing required API keys: " plus the missing names joined with ", " |
| Configuration.ValidationPassesIffAllKeys | src/config.py:62-76 | validation passes iff all three keys are present and non-empty |
| Configuration.NoKeysReportsAll | src/config.py:64-74 | with no keys at all, all three names are reported in the fixed order |
| Configuration.MissingNamesOfKeyTable | src/config.py:66-71 | the report is the concatenation of one optional entry per key, in order |
| Agents.TryCreateLlm | src/agents.py:11-21 | one attempt succeeds iff the provider resolves and the client constructs. The client is built from that provider's resolved configuration at temperature 0.7. A resolution error is passed on unchanged, and a failed construction is an LLM error with the message it raised |
| Agents.CreateLlm | src/agents.py:9-28 | a first success is kept. Any result is from the resolved provider or from Groq, with the matching client. A failure is exactly the Groq attempt's failure |
| Agents.CreateLlmBounded | src/agents.py:22-28 | there are one or two attempts, the second with "groq", and the result is the last attempt's |
| Agents.UnknownProviderFallsBackToGroq | src/agents.py:22-27 | an unknown provider name does not raise; it behaves like asking for groq |
| Agents.DefaultGroqIsTriedTwice | src/agents.py:25-27 | with "groq" as the default, an unset selector that fails is tried with "groq" a second time |
| Agents.CreateEducationAgents | src/agents.py:34-37 | the factory exists iff `create_llm` succeeds and holds exactly the client and provider it returned; asking for "groq" yields Groq; a failure is the Groq attempt's error |
| Agents.AgentsShareClientAndTools | src/agents.py:39-91 | the three agents share the factory's one client; none delegates; only the curator searches and only the advisor has the project tool |
| Agents.EducationAgents.LearningMaterialAgent | src/agents.py:39-55 | the curator runs on the factory's client, can search but has no project tool, is verbose and may not delegate |
| Agents.EducationAgents.QuizCreatorAgent | src/agents.py:57-72 | the assessment designer runs on the factory's client, has no tools, is verbose and may not delegate |
| Agents.EducationAgents.ProjectIdeaAgent | src/agents.py:74-91 | the advisor runs on the factory's client, has the project tool but cannot search, is verbose and may not delegate |
| Tasks.CurateLearningMaterialsTask | src/tasks.py:12-60 | the curation stage reads no other stage, runs on the agent it is given and validates as LearningMaterial; its prompt is covered by CurationPromptCounts and CurationPromptNamesRequest, its expected output by CurationExpectedOutputCounts |
| Tasks.CreateQuizTask | src/tasks.py:63-110 | the quiz stage reads exactly the stage it is given, runs on its agent and validates as Quiz |
| Tasks.SuggestProjectsTask | src/tasks.py:113-169 | the project stage reads exactly the stage it is given, runs on its agent and validates as ProjectSuggestions |
| Tasks.ProjectStageSkipsQuiz | src/tasks.py:132-167 | the project stage does not read the quiz stage, although its prompt refers to the quiz |
| Tasks.StageDefaults | src/tasks.py:12-118 | the default parameters are 3 resources per category, 5 questions and 2 projects |
| Tasks.CurationPromptCounts | src/tasks.py:34-36 | the requested count appears in the video, article and exercise lines of the prompt |
| Tasks.CurationExpectedOutputCounts | src/tasks.py:53-57 | the expected output asks for the same requested count of videos, articles and exercises |
| Tasks.CurationPromptNamesRequest | src/tasks.py:29-30 | the curation prompt names the topic and the level as given |
| Tasks.QuizPromptInterpolation | src/tasks.py:84 | the quiz prompt asks for the requested number of questions |
| Tasks.ProjectPromptInterpolation | src/tasks.py:138-153 | the project prompt asks for the requested number of projects; "3-5 key concepts" is only prompt text |
| Text.Lower | src/crew.py:55 | lowering keeps the length and lowers every ASCII capital, character by character |
| Text.LowerIdempotent | src/crew.py:55 | lowering a lowered level changes nothing |
| Text.StartsWith | src/config.py:38 | a string starts with a prefix iff it is at least as long and agrees with it character by character |
| Text.Join | src/config.py:74 | the joined string starts with the first element, and its length is the elements' lengths plus one separator between each pair of neighbours; JoinSnoc fixes it completely |
| Text.JoinSnoc | src/crew.py:56 | appending an element to the list appends one separator and that element to the join, so the elements stay in order with exactly one separator between neighbours |
| Text.JoinContains | src/config.py:74 | every element of a joined list occurs in the joined string |
| Text.IntToString | src/tasks.py:34 | an interpolated integer is a non-empty string that starts with '-' iff the integer is negative |
| Text.NatToStringRoundTrip | src/tasks.py:34 | the digits of a natural number read back to that number |
| Text.NatToStringInjective | src/tasks.py:34 | distinct natural numbers are printed as distinct digit strings |
| Text.IntToStringInjective | src/tasks.py:34 | different counts are printed differently |
| Crew.EducationCrew.Create | src/crew.py:13-21 | building a crew succeeds iff building its agent factory does; the crew holds that factory, otherwise the factory's error is raised |
| Crew.CreateEducationCrew | src/crew.py:141-143 | the factory function succeeds exactly when building the agent factory does and gives a new crew holding that factory and the configuration; otherwise it raises the factory's error |
| Crew.EducationCrew.Run | src/crew.py:23-138 | the result and the crew's new agent factory are those of `RunSpec` from the factory held before the call |
| Crew.ValidLevel | src/crew.py:54-55 | a level is valid iff its lowered form is "beginner", "intermediate" or "advanced" |
| Crew.BuildCrew | src/crew.py:58-96 | the crew run assembles has three agents and three stages, run sequentially |
| Crew.BuildCrewWiring | src/crew.py:58-96 | the crew has the curator, the designer and the advisor, in that order, on the factory's one client. Its three stages are curation, quiz and projects, each run by its own agent and built from the request's topic, level and counts; the quiz and project stages both read the curation stage, and each stage's output is checked against its own record |
| Crew.RunSpecFallbackStep | src/crew.py:121-131 | when the first crew fails under openrouter and the groq factory can be built, the run is that crew followed by the whole run again under the groq factory |
| Crew.CrewPromptsCarryRequest | src/crew.py:67-86 | the prompts of the assembled crew name the request's topic and level and ask for its resource, question and project counts |
| Crew.RunSpec | src/crew.py:23-138 | a crew is run iff the level is valid; the factory is replaced only when it was openrouter's, and then by the groq factory |
| Crew.LevelCheckIgnoresCase | src/crew.py:53-56 | the level check ignores ASCII case: "Beginner" and "ADVANCED" pass, "expert" fails |
| Crew.RunRejectsBadLevel | src/crew.py:53-56 | a bad level raises ValueError naming the three levels, before any crew is run, and leaves the factory unchanged |
| Crew.RunKickoffBound | src/crew.py:98-131 | a run executes the crew at most twice, and at most once when it starts under groq |
| Crew.RunRebuildsEverything | src/crew.py:58-131 | the first crew run is built from the original factory; a second is built from the groq factory that replaced it |
| Crew.RunSuccessEnvelope | src/crew.py:98-119 | a success dictionary holds the last crew's three stage outputs and raw result, and the caller's topic and level |
| Crew.RunFailureEnvelope | src/crew.py:121-138 | a failure dictionary only comes from a run that ended under groq; it carries that failure's message and the caller's topic and level, and no stage output |
| Crew.FailedHasNoOutputs | src/crew.py:133-138 | a failure dictionary has success false and none of the stage-output keys |
| Crew.RunCompletedReturnsAtOnce | src/crew.py:98-119 | when the first crew completes, `run` returns the success dictionary with its outputs, runs nothing more and keeps the factory |
| Crew.RunCrashUnderGroqReports | src/crew.py:121-138 | under groq a failing crew does not raise: `run` returns the failure dictionary with the failure's message and the caller's topic and level |
| Crew.RunRaisesOnlyForLevelOrFallback | src/crew.py:53-138 | `run` raises only for a bad level or when the groq factory of the fallback cannot be built |
| Crew.RunFallbackPersists | src/crew.py:126-131 | a failure under openrouter leaves the crew on groq, so the next run on the same crew executes at most once |
| Crew.RunFallbackCreationRaises | src/crew.py:126-131 | if the groq factory cannot be built during the fallback, its error escapes `run` and the crew keeps its factory |

## Left out

- Reading `Config` from the process environment and `.env` is not modelled. The configuration is a value built by the caller, and `DefaultConfig` gives the environment defaults. `int(...)` of a malformed count variable raising is not modelled.
- The `print` calls and their console output are not modelled.
- CrewAI itself is not modelled. `LLM(...)` construction and `Crew.kickoff` are parameters. The `Agent`, `Task` and `Crew` constructors are assumed not to raise.
- The LLM-construction and kickoff parameters are functions. Retrying the same configuration gives the same answer, and running the same assembled crew again gives the same outcome. A flaky client or backend that succeeds on a retry is not modelled.
- Pydantic's lax coercion is not modelled, e.g. accepting "3" for an int. The model accepts exact JSON types only. When several fields are invalid, only the first error is modelled, not pydantic's full error list.
- Only the prompt lines that carry an interpolated value or a figure a property refers to are modelled, not the rest of the prompt prose, the agents' backstories or the indentation of the f-strings.
- `src/tools.py` is not part of this model. The search and project-guideline tools are opaque names.
- `EducationTasks` holds no state and is not modelled as an object; its three methods are the functions in `Tasks`.
- The configuration is a field of `EducationCrew` passed to LLM creation. In the source, `create_llm` reads the module-global `config` (src/config.py:80), and the crew holds only `agents_factory` and `tasks_factory`. Since nothing reassigns that global, the value it reads is the same throughout.
- The `raw_output` value is the kickoff result, carried as an opaque string.
- Text.Lower: lowers ASCII capitals only and keeps the length, while Python's `str.lower` also lowers non-ASCII characters. Two of those lower to something with an ASCII letter. The Kelvin sign (U+212A) lowers to 'k', and no valid level contains 'k'. U+0130 lowers to 'i' followed by the combining dot U+0307, which no valid level contains. So the level test accepts the same strings either way.
