/** The records of the four collections (server/models/models.js). The field the
    source calls `type` is `kind` here, `type` being a Dafny keyword. */
module Models {
  import opened Wrappers

  /** The six RIASEC interest types, in the key order of the quiz's score map. */
  datatype Riasec = R | I | A | S | E | C

  const RiasecOrder: seq<Riasec> := [R, I, A, S, E, C]

  /** The one-letter code a career's `type` field holds for each interest type. */
  function Code(t: Riasec): string {
    match t
    case R => "R"
    case I => "I"
    case A => "A"
    case S => "S"
    case E => "E"
    case C => "C"
  }

  datatype SubCareer = SubCareer(title: string, description: string, skills: seq<string>, salary: string)

  datatype Career = Career(
    id: int,
    title: string,
    kind: string,
    description: string,
    salary: string,
    education: string,
    stream: string,
    subjects: seq<string>,
    skills: seq<string>,
    subCareers: seq<SubCareer>)

  /** A career as the list endpoint returns it: every field except `subCareers`. */
  datatype CareerSummary = CareerSummary(
    id: int,
    title: string,
    kind: string,
    description: string,
    salary: string,
    education: string,
    stream: string,
    subjects: seq<string>,
    skills: seq<string>)

  function Summary(c: Career): CareerSummary {
    CareerSummary(c.id, c.title, c.kind, c.description, c.salary, c.education, c.stream, c.subjects, c.skills)
  }

  datatype Question = Question(id: int, text: string, kind: Riasec)

  datatype Step = Step(title: string, detail: string)

  /** A roadmap. The schema declares no `stream`; a roadmap read from a data file may
      still carry one, and `stream` records that (None when absent). */
  datatype Roadmap = Roadmap(id: string, title: string, description: string, steps: seq<Step>, stream: Option<string>)

  /** An exam or a college: `kind` is "Exam" or "College"; `date` is meaningful for
      exams, `location`, `exam` and `rating` for colleges. */
  datatype CollegeExam = CollegeExam(
    id: int,
    name: string,
    kind: string,
    stream: string,
    description: string,
    date: Option<string>,
    location: Option<string>,
    exam: Option<string>,
    rating: Option<string>)

  const ExamKind := "Exam"
  const CollegeKind := "College"
}
