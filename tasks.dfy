/** The three stage definitions (src/tasks.py). A stage is a CrewAI `Task`: a prompt, the text
    describing the expected output, the agent that runs it, the stages whose output it reads,
    and the record its output must validate as. Prompts are f-strings; here each is the list of
    its lines that carry an interpolated parameter or a figure the properties below refer to,
    joined with newlines. */
module Tasks {
  import opened Text
  import opened Agents

  /** Which of the output records of src/models.py a stage's output must validate as. */
  datatype Schema = LearningMaterialSchema | QuizSchema | ProjectSuggestionsSchema

  datatype Task = Task(
    description: string,
    expectedOutput: string,
    agent: Agent,
    context: seq<Task>,
    outputPydantic: Schema)

  function Prompt(lines: seq<string>): string
  {
    Join("\n", lines)
  }

  // The fixed text around the interpolated values, line by line.
  const SearchLine: string := "Search and curate high-quality learning materials for the "
  const AudienceLine: string := "Target audience "
  const VideosText: string := " high-quality videos (YouTube, educational platforms, tutorials)"
  const ArticlesText: string := " comprehensive articles (blog posts, documentation, guides)"
  const ExercisesText: string := " practical exercises (coding challenges, practice problems, worksheets)"
  const CollectionLine: string := "A structured collection of "
  const VideosCountText: string := " videos, "
  const ArticlesCountText: string := " articles, "
  const DetailsText: string := " exercises, with complete details (title, URL, description) "
  const QuizLine: string := "multiple-choice quiz with "
  const CreateText: string := " multiple-choice questions that test understanding"
  const FourOptionsLine: string := "- Each question should have exactly 4 options (A, B, C, D)"
  const CompleteQuizLine: string := "A complete quiz with "
  const CompleteQuizText: string := " multiple-choice questions, each with 4 options, "
  const SuggestLine: string := "Based on the learning materials and quiz from previous tasks, suggest "
  const PracticalLine: string := "practical project ideas for the topic: \""
  const DesignText: string := " hands-on project ideas that apply these concepts"
  const AppropriateLine: string := "3. Ensure projects are appropriate for "
  const ConceptsLine: string := "- List of 3-5 key concepts covered"
  const DeliverablesLine: string := "- 3-5 specific deliverables (what will be produced)"
  const OutcomesLine: string := "- 3-5 learning outcomes (what skills/knowledge will be gained)"
  const WellStructuredText: string := " well-structured project ideas, each with title, description, "

  function TopicPhrase(topic: string): string
  {
    "topic: \"" + topic + "\""
  }

  function LevelPhrase(expertiseLevel: string): string
  {
    "expertise level: " + expertiseLevel
  }

  function CurationLines(topic: string, expertiseLevel: string, resourcesPerCategory: int): seq<string>
  {
    var n := IntToString(resourcesPerCategory);
    [ SearchLine + TopicPhrase(topic),
      AudienceLine + LevelPhrase(expertiseLevel),
      "2. Find " + n + VideosText,
      "3. Find " + n + ArticlesText,
      "4. Find " + n + ExercisesText,
      "- Ensure content matches the " + expertiseLevel + " expertise level" ]
  }

  /** `EducationTasks.curate_learning_materials_task` */
  function CurateLearningMaterialsTask(agent: Agent, topic: string, expertiseLevel: string,
                                       resourcesPerCategory: int := 3): (t: Task)
    ensures t.agent == agent && t.context == [] && t.outputPydantic == LearningMaterialSchema
  {
    var n := IntToString(resourcesPerCategory);
    Task(Prompt(CurationLines(topic, expertiseLevel, resourcesPerCategory)),
         Prompt([CollectionLine + n + VideosCountText + n + ArticlesCountText, "and " + n + DetailsText]),
         agent, [], LearningMaterialSchema)
  }

  function QuizLines(numQuestions: int): seq<string>
  {
    var n := IntToString(numQuestions);
    [ QuizLine + n + " questions.",
      "3. Create " + n + CreateText,
      FourOptionsLine ]
  }

  /** `EducationTasks.create_quiz_task` */
  function CreateQuizTask(agent: Agent, learningMaterialsTask: Task, numQuestions: int := 5): (t: Task)
    ensures t.agent == agent && t.context == [learningMaterialsTask] && t.outputPydantic == QuizSchema
  {
    Task(Prompt(QuizLines(numQuestions)),
         Prompt([CompleteQuizLine + IntToString(numQuestions) + CompleteQuizText]),
         agent, [learningMaterialsTask], QuizSchema)
  }

  function ProjectLines(topic: string, expertiseLevel: string, numProjects: int): seq<string>
  {
    var n := IntToString(numProjects);
    [ SuggestLine + n + " ",
      PracticalLine + topic + "\"",
      "Target expertise level: " + expertiseLevel,
      "2. Design " + n + DesignText,
      AppropriateLine + expertiseLevel + " level",
      ConceptsLine,
      DeliverablesLine,
      OutcomesLine ]
  }

  /** `EducationTasks.suggest_projects_task` */
  function SuggestProjectsTask(agent: Agent, learningMaterialsTask: Task, topic: string, expertiseLevel: string,
                               numProjects: int := 2): (t: Task)
    ensures t.agent == agent && t.context == [learningMaterialsTask] && t.outputPydantic == ProjectSuggestionsSchema
  {
    Task(Prompt(ProjectLines(topic, expertiseLevel, numProjects)),
         Prompt([IntToString(numProjects) + WellStructuredText]),
         agent, [learningMaterialsTask], ProjectSuggestionsSchema)
  }

  /** The project stage does not read the quiz built on the curation stage, whatever its
      prompt says about the quiz. */
  lemma ProjectStageSkipsQuiz(agent: Agent, quizAgent: Agent, t1: Task, topic: string, level: string, q: int, p: int)
    ensures CreateQuizTask(quizAgent, t1, q) !in SuggestProjectsTask(agent, t1, topic, level, p).context
  {
    var t2 := CreateQuizTask(quizAgent, t1, q);
    assert t2.context[0] == t1;
  }

  /** The defaults are 3 resources per category, 5 questions and 2 projects. */
  lemma StageDefaults(a1: Agent, a2: Agent, a3: Agent, t: Task, topic: string, level: string)
    ensures CurateLearningMaterialsTask(a1, topic, level) == CurateLearningMaterialsTask(a1, topic, level, 3)
    ensures CreateQuizTask(a2, t) == CreateQuizTask(a2, t, 5)
    ensures SuggestProjectsTask(a3, t, topic, level) == SuggestProjectsTask(a3, t, topic, level, 2)
  {
  }

  /** The one count of resources is asked for in each of the three categories. */
  lemma CurationPromptCounts(agent: Agent, topic: string, level: string, r: int)
    ensures var d := CurateLearningMaterialsTask(agent, topic, level, r).description;
            var n := IntToString(r);
            && Contains(d, "2. Find " + n + VideosText)
            && Contains(d, "3. Find " + n + ArticlesText)
            && Contains(d, "4. Find " + n + ExercisesText)
  {
    var lines := CurationLines(topic, level, r);
    JoinContains("\n", lines, 2);
    JoinContains("\n", lines, 3);
    JoinContains("\n", lines, 4);
  }

  /** The expected output of the curation stage, line by line. */
  lemma CurationExpectedOutputLines(agent: Agent, topic: string, level: string, r: int)
    ensures var n := IntToString(r);
            CurateLearningMaterialsTask(agent, topic, level, r).expectedOutput ==
              Prompt([CollectionLine + n + VideosCountText + n + ArticlesCountText, "and " + n + DetailsText])
  {
  }

  /** A piece of one line of a prompt occurs in the prompt. */
  lemma PromptLinePiece(lines: seq<string>, k: nat, a: string, t: string, b: string)
    requires k < |lines| && lines[k] == a + t + b
    ensures Contains(Prompt(lines), t)
  {
    JoinContains("\n", lines, k);
    ContainsMiddle(a, t, b);
    ContainsTransitive(Prompt(lines), lines[k], t);
  }

  /** Each count phrase of the two expected-output lines occurs in their join. */
  lemma ExpectedOutputPhrases(c: string, n: string, v: string, a: string, d: string)
    ensures var e := Prompt([c + n + v + n + a, "and " + n + d]);
            Contains(e, n + v) && Contains(e, n + a) && Contains(e, n + d)
  {
    var lines := [c + n + v + n + a, "and " + n + d];
    assert lines[0] == c + (n + v) + (n + a);
    PromptLinePiece(lines, 0, c, n + v, n + a);
    assert lines[0] == (c + n + v) + (n + a) + "";
    PromptLinePiece(lines, 0, c + n + v, n + a, "");
    assert lines[1] == "and " + (n + d) + "";
    PromptLinePiece(lines, 1, "and ", n + d, "");
  }

  /** The expected output asks for the same count of videos, articles and exercises. */
  lemma CurationExpectedOutputCounts(agent: Agent, topic: string, level: string, r: int)
    ensures var e := CurateLearningMaterialsTask(agent, topic, level, r).expectedOutput;
            var n := IntToString(r);
            && Contains(e, n + VideosCountText)
            && Contains(e, n + ArticlesCountText)
            && Contains(e, n + DetailsText)
  {
    CurationExpectedOutputLines(agent, topic, level, r);
    ExpectedOutputPhrases(CollectionLine, IntToString(r), VideosCountText, ArticlesCountText, DetailsText);
  }

  /** The curation prompt names the topic and the level as the caller gave them. */
  lemma CurationPromptNamesRequest(agent: Agent, topic: string, level: string, r: int)
    ensures var d := CurateLearningMaterialsTask(agent, topic, level, r).description;
            Contains(d, TopicPhrase(topic)) && Contains(d, LevelPhrase(level))
  {
    var lines := CurationLines(topic, level, r);
    JoinContains("\n", lines, 0);
    JoinContains("\n", lines, 1);
    ContainsSuffix(SearchLine, TopicPhrase(topic));
    ContainsTransitive(Prompt(lines), lines[0], TopicPhrase(topic));
    ContainsSuffix(AudienceLine, LevelPhrase(level));
    ContainsTransitive(Prompt(lines), lines[1], LevelPhrase(level));
  }

  /** The number of questions appears in the quiz prompt. */
  lemma QuizPromptInterpolation(agent: Agent, t: Task, q: int)
    ensures var d := CreateQuizTask(agent, t, q).description;
            Contains(d, "3. Create " + IntToString(q) + CreateText)
  {
    JoinContains("\n", QuizLines(q), 1);
  }

  /** The number of projects appears in the project prompt, while "3-5" is only guidance in
      the prompt text. */
  lemma ProjectPromptInterpolation(agent: Agent, t: Task, topic: string, level: string, p: int)
    ensures var d := SuggestProjectsTask(agent, t, topic, level, p).description;
            && Contains(d, "2. Design " + IntToString(p) + DesignText)
            && Contains(d, ConceptsLine)
  {
    JoinContains("\n", ProjectLines(topic, level, p), 3);
    JoinContains("\n", ProjectLines(topic, level, p), 5);
  }
}
