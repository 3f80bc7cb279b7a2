/** The structured-output records of src/models.py, and what their declarations accept.

    Each record becomes a datatype whose fields are the declared fields. A field declared
    `Field(...)` is required; a field declared `Field(default_factory=list)` may be absent and
    is then the empty list. The `Parse...` functions state this meaning: they turn a JSON-shaped
    payload into a record, or report the first field that is missing or of the wrong type. */
module Models {
  import opened Wrappers

  datatype Resource = Resource(title: string, url: string, description: string, resourceType: string)

  datatype LearningMaterial = LearningMaterial(
    topic: string,
    expertiseLevel: string,
    videos: seq<Resource> := [],
    articles: seq<Resource> := [],
    exercises: seq<Resource> := [],
    summary: string)

  datatype QuizOption = QuizOption(option: string, text: string)

  datatype QuizQuestion = QuizQuestion(
    question: string,
    options: seq<QuizOption>,
    correctAnswer: string,
    explanation: string,
    difficulty: string)

  datatype Quiz = Quiz(topic: string, totalQuestions: int, questions: seq<QuizQuestion>, estimatedTimeMinutes: int)

  datatype Deliverable = Deliverable(name: string, description: string)

  datatype ProjectIdea = ProjectIdea(
    title: string,
    description: string,
    expertiseLevel: string,
    estimatedDuration: string,
    keyConcepts: seq<string>,
    deliverables: seq<Deliverable>,
    learningOutcomes: seq<string>)

  datatype ProjectSuggestions = ProjectSuggestions(topic: string, projects: seq<ProjectIdea>, totalProjects: int)

  // ---------------------------------------------------------------------------------------
  // Consistency that the field descriptions and prompts ask for but no declaration checks.
  // These are kept as predicates of their own; nothing in the pipeline establishes them.

  /** The correct answer names the label of one of the question's own options. */
  predicate AnswerMatchesOption(q: QuizQuestion)
  {
    exists i :: 0 <= i < |q.options| && q.options[i].option == q.correctAnswer
  }

  predicate QuizConsistent(q: Quiz)
  {
    && q.totalQuestions == |q.questions|
    && q.estimatedTimeMinutes > 0
    && forall i :: 0 <= i < |q.questions| ==> |q.questions[i].options| == 4 && AnswerMatchesOption(q.questions[i])
  }

  predicate SuggestionsConsistent(p: ProjectSuggestions)
  {
    p.totalProjects == |p.projects|
  }

  // ---------------------------------------------------------------------------------------
  // Payloads and validation.

  /** A JSON-shaped payload as a backend returns it for a structured output. */
  datatype Json =
    | JNull
    | JBool(b: bool)
    | JInt(i: int)
    | JStr(s: string)
    | JArr(items: seq<Json>)
    | JObj(fields: map<string, Json>)

  datatype SchemaError =
    | NotAnObject(model: string)
    | MissingField(model: string, field: string)
    | WrongType(model: string, field: string)

  function StrField(m: map<string, Json>, model: string, name: string): (r: Result<string, SchemaError>)
    ensures r.Success? <==> name in m && m[name].JStr?
    ensures r.Success? ==> r.value == m[name].s
    ensures name !in m ==> r == Failure(MissingField(model, name))
  {
    if name !in m then Failure(MissingField(model, name))
    else if m[name].JStr? then Success(m[name].s)
    else Failure(WrongType(model, name))
  }

  function IntField(m: map<string, Json>, model: string, name: string): (r: Result<int, SchemaError>)
    ensures r.Success? <==> name in m && m[name].JInt?
    ensures r.Success? ==> r.value == m[name].i
    ensures name !in m ==> r == Failure(MissingField(model, name))
  {
    if name !in m then Failure(MissingField(model, name))
    else if m[name].JInt? then Success(m[name].i)
    else Failure(WrongType(model, name))
  }

  /** Validates every item of a list in order; the first invalid item decides the error. */
  function ParseList<T>(items: seq<Json>, elem: Json -> Result<T, SchemaError>): Result<seq<T>, SchemaError>
  {
    if |items| == 0 then Success([])
    else
      var head :- elem(items[0]);
      var tail :- ParseList(items[1..], elem);
      Success([head] + tail)
  }

  /** A list validates exactly when each of its items does, and then item by item. */
  lemma {:induction false} ParseListItems<T>(items: seq<Json>, elem: Json -> Result<T, SchemaError>)
    ensures ParseList(items, elem).Success? <==> forall i :: 0 <= i < |items| ==> elem(items[i]).Success?
    ensures ParseList(items, elem).Success? ==>
              |ParseList(items, elem).value| == |items| &&
              forall i :: 0 <= i < |items| ==> ParseList(items, elem).value[i] == elem(items[i]).value
  {
    if |items| > 0 {
      ParseListItems(items[1..], elem);
      assert forall i :: 1 <= i < |items| ==> items[1..][i - 1] == items[i];
    }
  }

  /** A list-typed field. `required` is false for `Field(default_factory=list)`. */
  function ListField<T>(m: map<string, Json>, model: string, name: string, required: bool,
                        elem: Json -> Result<T, SchemaError>): (r: Result<seq<T>, SchemaError>)
    ensures name !in m ==> r == if required then Failure(MissingField(model, name)) else Success([])
    ensures name in m ==> (r.Success? ==> m[name].JArr? && r == ParseList(m[name].items, elem))
    ensures name in m && m[name].JArr? ==> r == ParseList(m[name].items, elem)
    ensures name in m && !m[name].JArr? ==> r == Failure(WrongType(model, name))
  {
    if name !in m then (if required then Failure(MissingField(model, name)) else Success([]))
    else if m[name].JArr? then ParseList(m[name].items, elem)
    else Failure(WrongType(model, name))
  }

  /** The payload has a string under `name`. */
  predicate StrOk(m: map<string, Json>, name: string)
  {
    name in m && m[name].JStr?
  }

  /** The payload has an integer under `name`. */
  predicate IntOk(m: map<string, Json>, name: string)
  {
    name in m && m[name].JInt?
  }

  /** The payload has, under `name`, an array whose items all validate, or, for a field with a
      default, nothing at all. */
  predicate ListOk<T>(m: map<string, Json>, name: string, required: bool, elem: Json -> Result<T, SchemaError>)
  {
    if name in m then m[name].JArr? && ParseList(m[name].items, elem).Success?
    else !required
  }

  /** The payload holds the string `v` under `name`. */
  predicate HasStr(m: map<string, Json>, name: string, v: string)
  {
    name in m && m[name] == JStr(v)
  }

  /** The payload holds the integer `v` under `name`. */
  predicate HasInt(m: map<string, Json>, name: string, v: int)
  {
    name in m && m[name] == JInt(v)
  }

  /** The payload's list under `name` validates to `xs`, or, for a field with a default, is
      absent and `xs` is empty. */
  predicate HasList<T(==)>(m: map<string, Json>, name: string, required: bool, elem: Json -> Result<T, SchemaError>, xs: seq<T>)
  {
    if name in m then m[name].JArr? && ParseList(m[name].items, elem) == Success(xs)
    else !required && xs == []
  }

  function ParseStr(j: Json): Result<string, SchemaError>
  {
    if j.JStr? then Success(j.s) else Failure(WrongType("str", "item"))
  }

  /** `Resource.model_validate` */
  function ParseResource(j: Json): (r: Result<Resource, SchemaError>)
    ensures !j.JObj? ==> r == Failure(NotAnObject("Resource"))
    ensures r.Success? <==> j.JObj? && StrOk(j.fields, "title") && StrOk(j.fields, "url") && StrOk(j.fields, "description")
                             && StrOk(j.fields, "resource_type")
    ensures r.Success? ==>
              && HasStr(j.fields, "title", r.value.title) && HasStr(j.fields, "url", r.value.url)
              && HasStr(j.fields, "description", r.value.description)
              && HasStr(j.fields, "resource_type", r.value.resourceType)
  {
    if !j.JObj? then Failure(NotAnObject("Resource"))
    else
      var title :- StrField(j.fields, "Resource", "title");
      var url :- StrField(j.fields, "Resource", "url");
      var description :- StrField(j.fields, "Resource", "description");
      var resourceType :- StrField(j.fields, "Resource", "resource_type");
      Success(Resource(title, url, description, resourceType))
  }

  /** `LearningMaterial.model_validate` */
  function ParseLearningMaterial(j: Json): (r: Result<LearningMaterial, SchemaError>)
    ensures !j.JObj? ==> r == Failure(NotAnObject("LearningMaterial"))
    ensures r.Success? <==> j.JObj? && StrOk(j.fields, "topic") && StrOk(j.fields, "expertise_level")
                             && ListOk(j.fields, "videos", false, ParseResource)
                             && ListOk(j.fields, "articles", false, ParseResource)
                             && ListOk(j.fields, "exercises", false, ParseResource)
                             && StrOk(j.fields, "summary")
    ensures r.Success? ==>
              && HasStr(j.fields, "topic", r.value.topic)
              && HasStr(j.fields, "expertise_level", r.value.expertiseLevel)
              && HasList(j.fields, "videos", false, ParseResource, r.value.videos)
              && HasList(j.fields, "articles", false, ParseResource, r.value.articles)
              && HasList(j.fields, "exercises", false, ParseResource, r.value.exercises)
              && HasStr(j.fields, "summary", r.value.summary)
  {
    if !j.JObj? then Failure(NotAnObject("LearningMaterial"))
    else
      var m := j.fields;
      var topic :- StrField(m, "LearningMaterial", "topic");
      var level :- StrField(m, "LearningMaterial", "expertise_level");
      var videos :- ListField(m, "LearningMaterial", "videos", false, ParseResource);
      var articles :- ListField(m, "LearningMaterial", "articles", false, ParseResource);
      var exercises :- ListField(m, "LearningMaterial", "exercises", false, ParseResource);
      var summary :- StrField(m, "LearningMaterial", "summary");
      Success(LearningMaterial(topic, level, videos, articles, exercises, summary))
  }

  /** `QuizOption.model_validate` */
  function ParseQuizOption(j: Json): (r: Result<QuizOption, SchemaError>)
    ensures !j.JObj? ==> r == Failure(NotAnObject("QuizOption"))
    ensures r.Success? <==> j.JObj? && StrOk(j.fields, "option") && StrOk(j.fields, "text")
    ensures r.Success? ==> HasStr(j.fields, "option", r.value.option) && HasStr(j.fields, "text", r.value.text)
  {
    if !j.JObj? then Failure(NotAnObject("QuizOption"))
    else
      var option :- StrField(j.fields, "QuizOption", "option");
      var text :- StrField(j.fields, "QuizOption", "text");
      Success(QuizOption(option, text))
  }

  /** `QuizQuestion.model_validate` */
  function ParseQuizQuestion(j: Json): (r: Result<QuizQuestion, SchemaError>)
    ensures !j.JObj? ==> r == Failure(NotAnObject("QuizQuestion"))
    ensures r.Success? <==> j.JObj? && StrOk(j.fields, "question") && ListOk(j.fields, "options", true, ParseQuizOption)
                             && StrOk(j.fields, "correct_answer") && StrOk(j.fields, "explanation")
                             && StrOk(j.fields, "difficulty")
    ensures r.Success? ==>
              && HasStr(j.fields, "question", r.value.question)
              && HasList(j.fields, "options", true, ParseQuizOption, r.value.options)
              && HasStr(j.fields, "correct_answer", r.value.correctAnswer)
              && HasStr(j.fields, "explanation", r.value.explanation)
              && HasStr(j.fields, "difficulty", r.value.difficulty)
  {
    if !j.JObj? then Failure(NotAnObject("QuizQuestion"))
    else
      var m := j.fields;
      var question :- StrField(m, "QuizQuestion", "question");
      var options :- ListField(m, "QuizQuestion", "options", true, ParseQuizOption);
      var answer :- StrField(m, "QuizQuestion", "correct_answer");
      var explanation :- StrField(m, "QuizQuestion", "explanation");
      var difficulty :- StrField(m, "QuizQuestion", "difficulty");
      Success(QuizQuestion(question, options, answer, explanation, difficulty))
  }

  /** `Quiz.model_validate` */
  function ParseQuiz(j: Json): (r: Result<Quiz, SchemaError>)
    ensures !j.JObj? ==> r == Failure(NotAnObject("Quiz"))
    ensures r.Success? <==> j.JObj? && StrOk(j.fields, "topic") && IntOk(j.fields, "total_questions")
                             && ListOk(j.fields, "questions", true, ParseQuizQuestion)
                             && IntOk(j.fields, "estimated_time_minutes")
    ensures r.Success? ==>
              && HasStr(j.fields, "topic", r.value.topic)
              && HasInt(j.fields, "total_questions", r.value.totalQuestions)
              && HasList(j.fields, "questions", true, ParseQuizQuestion, r.value.questions)
              && HasInt(j.fields, "estimated_time_minutes", r.value.estimatedTimeMinutes)
  {
    if !j.JObj? then Failure(NotAnObject("Quiz"))
    else
      var m := j.fields;
      var topic :- StrField(m, "Quiz", "topic");
      var total :- IntField(m, "Quiz", "total_questions");
      var questions :- ListField(m, "Quiz", "questions", true, ParseQuizQuestion);
      var minutes :- IntField(m, "Quiz", "estimated_time_minutes");
      Success(Quiz(topic, total, questions, minutes))
  }

  /** `Deliverable.model_validate` */
  function ParseDeliverable(j: Json): (r: Result<Deliverable, SchemaError>)
    ensures !j.JObj? ==> r == Failure(NotAnObject("Deliverable"))
    ensures r.Success? <==> j.JObj? && StrOk(j.fields, "name") && StrOk(j.fields, "description")
    ensures r.Success? ==> HasStr(j.fields, "name", r.value.name) && HasStr(j.fields, "description", r.value.description)
  {
    if !j.JObj? then Failure(NotAnObject("Deliverable"))
    else
      var name :- StrField(j.fields, "Deliverable", "name");
      var description :- StrField(j.fields, "Deliverable", "description");
      Success(Deliverable(name, description))
  }

  /** `ProjectIdea.model_validate` */
  function ParseProjectIdea(j: Json): (r: Result<ProjectIdea, SchemaError>)
    ensures !j.JObj? ==> r == Failure(NotAnObject("ProjectIdea"))
    ensures r.Success? <==> j.JObj? && StrOk(j.fields, "title") && StrOk(j.fields, "description")
                             && StrOk(j.fields, "expertise_level") && StrOk(j.fields, "estimated_duration")
                             && ListOk(j.fields, "key_concepts", true, ParseStr)
                             && ListOk(j.fields, "deliverables", true, ParseDeliverable)
                             && ListOk(j.fields, "learning_outcomes", true, ParseStr)
    ensures r.Success? ==>
              && HasStr(j.fields, "title", r.value.title)
              && HasStr(j.fields, "description", r.value.description)
              && HasStr(j.fields, "expertise_level", r.value.expertiseLevel)
              && HasStr(j.fields, "estimated_duration", r.value.estimatedDuration)
              && HasList(j.fields, "key_concepts", true, ParseStr, r.value.keyConcepts)
              && HasList(j.fields, "deliverables", true, ParseDeliverable, r.value.deliverables)
              && HasList(j.fields, "learning_outcomes", true, ParseStr, r.value.learningOutcomes)
  {
    if !j.JObj? then Failure(NotAnObject("ProjectIdea"))
    else
      var m := j.fields;
      var title :- StrField(m, "ProjectIdea", "title");
      var description :- StrField(m, "ProjectIdea", "description");
      var level :- StrField(m, "ProjectIdea", "expertise_level");
      var duration :- StrField(m, "ProjectIdea", "estimated_duration");
      var concepts :- ListField(m, "ProjectIdea", "key_concepts", true, ParseStr);
      var deliverables :- ListField(m, "ProjectIdea", "deliverables", true, ParseDeliverable);
      var outcomes :- ListField(m, "ProjectIdea", "learning_outcomes", true, ParseStr);
      Success(ProjectIdea(title, description, level, duration, concepts, deliverables, outcomes))
  }

  /** `ProjectSuggestions.model_validate` */
  function ParseProjectSuggestions(j: Json): (r: Result<ProjectSuggestions, SchemaError>)
    ensures !j.JObj? ==> r == Failure(NotAnObject("ProjectSuggestions"))
    ensures r.Success? <==> j.JObj? && StrOk(j.fields, "topic") && ListOk(j.fields, "projects", true, ParseProjectIdea)
                             && IntOk(j.fields, "total_projects")
    ensures r.Success? ==>
              && HasStr(j.fields, "topic", r.value.topic)
              && HasList(j.fields, "projects", true, ParseProjectIdea, r.value.projects)
              && HasInt(j.fields, "total_projects", r.value.totalProjects)
  {
    if !j.JObj? then Failure(NotAnObject("ProjectSuggestions"))
    else
      var m := j.fields;
      var topic :- StrField(m, "ProjectSuggestions", "topic");
      var projects :- ListField(m, "ProjectSuggestions", "projects", true, ParseProjectIdea);
      var total :- IntField(m, "ProjectSuggestions", "total_projects");
      Success(ProjectSuggestions(topic, projects, total))
  }

  // ---------------------------------------------------------------------------------------
  // Serialisation: the payload a record is written as (`model_dump`).

  function MapSeq<A, B>(xs: seq<A>, f: A -> B): (r: seq<B>)
    ensures |r| == |xs| && forall i :: 0 <= i < |xs| ==> r[i] == f(xs[i])
  {
    seq(|xs|, i requires 0 <= i < |xs| => f(xs[i]))
  }

  function StrJson(s: string): Json { JStr(s) }

  function ResourceJson(r: Resource): Json
  {
    JObj(map["title" := JStr(r.title), "url" := JStr(r.url), "description" := JStr(r.description),
             "resource_type" := JStr(r.resourceType)])
  }

  function LearningMaterialJson(l: LearningMaterial): Json
  {
    JObj(map["topic" := JStr(l.topic), "expertise_level" := JStr(l.expertiseLevel),
             "videos" := JArr(MapSeq(l.videos, ResourceJson)),
             "articles" := JArr(MapSeq(l.articles, ResourceJson)),
             "exercises" := JArr(MapSeq(l.exercises, ResourceJson)),
             "summary" := JStr(l.summary)])
  }

  function QuizOptionJson(o: QuizOption): Json
  {
    JObj(map["option" := JStr(o.option), "text" := JStr(o.text)])
  }

  function QuizQuestionJson(q: QuizQuestion): Json
  {
    JObj(map["question" := JStr(q.question), "options" := JArr(MapSeq(q.options, QuizOptionJson)),
             "correct_answer" := JStr(q.correctAnswer), "explanation" := JStr(q.explanation),
             "difficulty" := JStr(q.difficulty)])
  }

  function QuizJson(q: Quiz): Json
  {
    JObj(map["topic" := JStr(q.topic), "total_questions" := JInt(q.totalQuestions),
             "questions" := JArr(MapSeq(q.questions, QuizQuestionJson)),
             "estimated_time_minutes" := JInt(q.estimatedTimeMinutes)])
  }

  function DeliverableJson(d: Deliverable): Json
  {
    JObj(map["name" := JStr(d.name), "description" := JStr(d.description)])
  }

  function ProjectIdeaJson(p: ProjectIdea): Json
  {
    JObj(map["title" := JStr(p.title), "description" := JStr(p.description),
             "expertise_level" := JStr(p.expertiseLevel), "estimated_duration" := JStr(p.estimatedDuration),
             "key_concepts" := JArr(MapSeq(p.keyConcepts, StrJson)),
             "deliverables" := JArr(MapSeq(p.deliverables, DeliverableJson)),
             "learning_outcomes" := JArr(MapSeq(p.learningOutcomes, StrJson))])
  }

  function ProjectSuggestionsJson(p: ProjectSuggestions): Json
  {
    JObj(map["topic" := JStr(p.topic), "projects" := JArr(MapSeq(p.projects, ProjectIdeaJson)),
             "total_projects" := JInt(p.totalProjects)])
  }

  // ---------------------------------------------------------------------------------------
  // Round trips: every record validates back to itself from the payload it is written as.

  lemma {:induction false} ParseListRoundTrip<T>(xs: seq<T>, enc: T -> Json, dec: Json -> Result<T, SchemaError>)
    requires forall x :: dec(enc(x)) == Success(x)
    ensures ParseList(MapSeq(xs, enc), dec) == Success(xs)
  {
    if |xs| > 0 {
      ParseListRoundTrip(xs[1..], enc, dec);
      assert MapSeq(xs, enc)[1..] == MapSeq(xs[1..], enc);
      assert [xs[0]] + xs[1..] == xs;
    }
  }

  lemma ResourceRoundTrip(r: Resource)
    ensures ParseResource(ResourceJson(r)) == Success(r)
  {
  }

  lemma LearningMaterialRoundTrip(l: LearningMaterial)
    ensures ParseLearningMaterial(LearningMaterialJson(l)) == Success(l)
  {
    LearningMaterialListFields(l);
  }

  lemma LearningMaterialListFields(l: LearningMaterial)
    ensures ListField(LearningMaterialJson(l).fields, "LearningMaterial", "videos", false, ParseResource) == Success(l.videos)
    ensures ListField(LearningMaterialJson(l).fields, "LearningMaterial", "articles", false, ParseResource) == Success(l.articles)
    ensures ListField(LearningMaterialJson(l).fields, "LearningMaterial", "exercises", false, ParseResource) == Success(l.exercises)
  {
    forall r ensures ParseResource(ResourceJson(r)) == Success(r) { ResourceRoundTrip(r); }
    ParseListRoundTrip(l.videos, ResourceJson, ParseResource);
    ParseListRoundTrip(l.articles, ResourceJson, ParseResource);
    ParseListRoundTrip(l.exercises, ResourceJson, ParseResource);
  }

  lemma QuizQuestionRoundTrip(q: QuizQuestion)
    ensures ParseQuizQuestion(QuizQuestionJson(q)) == Success(q)
  {
    ParseListRoundTrip(q.options, QuizOptionJson, ParseQuizOption);
  }

  lemma QuizRoundTrip(q: Quiz)
    ensures ParseQuiz(QuizJson(q)) == Success(q)
  {
    forall x ensures ParseQuizQuestion(QuizQuestionJson(x)) == Success(x) { QuizQuestionRoundTrip(x); }
    ParseListRoundTrip(q.questions, QuizQuestionJson, ParseQuizQuestion);
  }

  lemma ProjectIdeaRoundTrip(p: ProjectIdea)
    ensures ParseProjectIdea(ProjectIdeaJson(p)) == Success(p)
  {
    ProjectIdeaScalarFields(p);
    ProjectIdeaListFields(p);
  }

  lemma ProjectIdeaScalarFields(p: ProjectIdea)
    ensures StrField(ProjectIdeaJson(p).fields, "ProjectIdea", "title") == Success(p.title)
    ensures StrField(ProjectIdeaJson(p).fields, "ProjectIdea", "description") == Success(p.description)
    ensures StrField(ProjectIdeaJson(p).fields, "ProjectIdea", "expertise_level") == Success(p.expertiseLevel)
    ensures StrField(ProjectIdeaJson(p).fields, "ProjectIdea", "estimated_duration") == Success(p.estimatedDuration)
  {
  }

  lemma ProjectIdeaListFields(p: ProjectIdea)
    ensures ListField(ProjectIdeaJson(p).fields, "ProjectIdea", "key_concepts", true, ParseStr) == Success(p.keyConcepts)
    ensures ListField(ProjectIdeaJson(p).fields, "ProjectIdea", "deliverables", true, ParseDeliverable) == Success(p.deliverables)
    ensures ListField(ProjectIdeaJson(p).fields, "ProjectIdea", "learning_outcomes", true, ParseStr) == Success(p.learningOutcomes)
  {
    ParseListRoundTrip(p.keyConcepts, StrJson, ParseStr);
    ParseListRoundTrip(p.deliverables, DeliverableJson, ParseDeliverable);
    ParseListRoundTrip(p.learningOutcomes, StrJson, ParseStr);
  }

  lemma ProjectSuggestionsRoundTrip(p: ProjectSuggestions)
    ensures ParseProjectSuggestions(ProjectSuggestionsJson(p)) == Success(p)
  {
    forall x ensures ParseProjectIdea(ProjectIdeaJson(x)) == Success(x) { ProjectIdeaRoundTrip(x); }
    ParseListRoundTrip(p.projects, ProjectIdeaJson, ParseProjectIdea);
  }

  // ---------------------------------------------------------------------------------------
  // What the declarations require, default and leave unchecked.

  /** A Resource validates exactly when all four of its string fields are present as strings. */
  lemma ResourceRequiresAllFields(m: map<string, Json>)
    ensures ParseResource(JObj(m)).Success? <==>
              forall f :: f in ["title", "url", "description", "resource_type"] ==> f in m && m[f].JStr?
  {
    if ParseResource(JObj(m)).Success? {
      forall f | f in ["title", "url", "description", "resource_type"] ensures f in m && m[f].JStr? {
        assert f == "title" || f == "url" || f == "description" || f == "resource_type";
      }
    }
  }

  /** Topic, level and summary are required; each of the lists of videos, articles and
      exercises may be absent on its own, and an absent one is the empty list. */
  lemma LearningMaterialDefaults(m: map<string, Json>)
    ensures (&& StrOk(m, "topic") && StrOk(m, "expertise_level") && StrOk(m, "summary")
             && forall f :: f in ["videos", "articles", "exercises"] ==>
                  f !in m || (m[f].JArr? && ParseList(m[f].items, ParseResource).Success?))
            ==> ParseLearningMaterial(JObj(m)).Success?
    ensures ("topic" !in m || "expertise_level" !in m || "summary" !in m) ==>
              ParseLearningMaterial(JObj(m)).Failure?
    ensures ParseLearningMaterial(JObj(m)).Success? ==>
              && ("videos" !in m ==> ParseLearningMaterial(JObj(m)).value.videos == [])
              && ("articles" !in m ==> ParseLearningMaterial(JObj(m)).value.articles == [])
              && ("exercises" !in m ==> ParseLearningMaterial(JObj(m)).value.exercises == [])
  {
  }

  /** Dropping the three lists from a valid payload still validates, to the same record with
      empty lists. */
  lemma LearningMaterialWithoutLists(l: LearningMaterial)
    ensures ParseLearningMaterial(JObj(LearningMaterialJson(l).fields - {"videos", "articles", "exercises"}))
            == Success(LearningMaterial(topic := l.topic, expertiseLevel := l.expertiseLevel, summary := l.summary))
  {
    var m := LearningMaterialJson(l).fields - {"videos", "articles", "exercises"};
    assert "videos" !in m && "articles" !in m && "exercises" !in m;
    assert m["topic"] == JStr(l.topic) && m["expertise_level"] == JStr(l.expertiseLevel);
    assert m["summary"] == JStr(l.summary);
  }

  /** Every field of a quiz question is required, `options` included. */
  lemma QuizQuestionRequiresAllFields(m: map<string, Json>, f: string)
    requires f in ["question", "options", "correct_answer", "explanation", "difficulty"]
    requires f !in m
    ensures ParseQuizQuestion(JObj(m)).Failure?
  {
  }

  /** The three lists of a project idea are required, but may have any length. */
  lemma ProjectIdeaRequiresLists(m: map<string, Json>, f: string)
    requires f in ["key_concepts", "deliverables", "learning_outcomes"]
    requires f !in m
    ensures ParseProjectIdea(JObj(m)).Failure?
  {
  }

  /** The declarations check no consistency: a quiz whose count disagrees with its questions,
      whose time is not positive and whose answer names no option, and a suggestion list whose
      count disagrees with its projects, both validate. */
  lemma SchemaAcceptsInconsistentOutputs()
    ensures exists q :: !QuizConsistent(q) && ParseQuiz(QuizJson(q)) == Success(q)
    ensures exists p :: !SuggestionsConsistent(p) && ParseProjectSuggestions(ProjectSuggestionsJson(p)) == Success(p)
  {
    var question := QuizQuestion("q", [QuizOption("A", "a")], "E", "e", "easy");
    var q := Quiz("t", 5, [question], 0);
    QuizRoundTrip(q);
    assert !QuizConsistent(q);
    var p := ProjectSuggestions("t", [], 2);
    ProjectSuggestionsRoundTrip(p);
  }
}
