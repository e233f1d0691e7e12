/** The seeding script (server/seed.js): it empties the four collections, then
    inserts the records read from the data files. Reading and parsing the files is
    an input here: None stands for a file that could not be read or parsed. */
module SeedScript {
  import opened Wrappers
  import opened Collections
  import opened Models
  import opened ItemsRoute

  /** The contents of the four data files. The colleges file should hold two
      lists; None stands for a list it lacks. */
  datatype SeedFiles = SeedFiles(
    careers: seq<Career>,
    questions: seq<Question>,
    roadmaps: seq<Roadmap>,
    exams: Option<seq<CollegeExam>>,
    colleges: Option<seq<CollegeExam>>)

  /** `docs.map(d => ({ ...d, type: kind }))`: every record gets `kind`, whatever it
      carried before, and keeps every other field. */
  function Tagged(docs: seq<CollegeExam>, kind: string): (r: seq<CollegeExam>)
    ensures |r| == |docs|
    ensures forall k :: 0 <= k < |r| ==> r[k].kind == kind && r[k].(kind := docs[k].kind) == docs[k]
  {
    seq(|docs|, k requires 0 <= k < |docs| => docs[k].(kind := kind))
  }

  /** The records of the colleges file as one flat list: all exams, then all colleges. */
  function Flatten(exams: seq<CollegeExam>, colleges: seq<CollegeExam>): (docs: seq<CollegeExam>)
    ensures |docs| == |exams| + |colleges|
    ensures forall k :: 0 <= k < |exams| ==> docs[k].kind == ExamKind && docs[k].(kind := exams[k].kind) == exams[k]
    ensures forall k :: |exams| <= k < |docs| ==>
              docs[k].kind == CollegeKind && docs[k].(kind := colleges[k - |exams|].kind) == colleges[k - |exams|]
  {
    Tagged(exams, ExamKind) + Tagged(colleges, CollegeKind)
  }

  /** Round trip: splitting the flattened list by kind gives back the exams list and
      the colleges list, each tagged and in its original order. */
  lemma SplitFlattenRoundTrip(exams: seq<CollegeExam>, colleges: seq<CollegeExam>)
    ensures ExamsOf(Flatten(exams, colleges)) == Tagged(exams, ExamKind)
    ensures CollegesOf(Flatten(exams, colleges)) == Tagged(colleges, CollegeKind)
  {
    var ex, co := Tagged(exams, ExamKind), Tagged(colleges, CollegeKind);
    FilterAppend(ex, co, KindIs(ExamKind));
    FilterAppend(ex, co, KindIs(CollegeKind));
    FilterKeepsAll(ex, KindIs(ExamKind));
    FilterDropsAll(co, KindIs(ExamKind));
    FilterDropsAll(ex, KindIs(CollegeKind));
    FilterKeepsAll(co, KindIs(CollegeKind));
  }

  /** A roadmap as the store keeps it: the schema declares no `stream`, so the field
      is not stored. */
  function StoredRoadmaps(rs: seq<Roadmap>): (r: seq<Roadmap>)
    ensures |r| == |rs|
    ensures forall k :: 0 <= k < |r| ==> r[k].stream.None? && r[k].(stream := rs[k].stream) == rs[k]
  {
    seq(|rs|, k requires 0 <= k < |rs| => rs[k].(stream := None))
  }

  class Store {
    var careers: seq<Career>
    var questions: seq<Question>
    var roadmaps: seq<Roadmap>
    var collegeExams: seq<CollegeExam>

    constructor (careers: seq<Career>, questions: seq<Question>, roadmaps: seq<Roadmap>, collegeExams: seq<CollegeExam>)
      ensures this.careers == careers && this.questions == questions
      ensures this.roadmaps == roadmaps && this.collegeExams == collegeExams
    {
      this.careers := careers;
      this.questions := questions;
      this.roadmaps := roadmaps;
      this.collegeExams := collegeExams;
    }

    /** `seedDB`: clear every collection, then insert the file data, returning the
        process exit code. Whatever the store held before is gone in every
        outcome. A file that cannot be read stops the script before any insert; a
        colleges file lacking either list stops it after careers, questions and
        roadmaps are inserted, so only the colleges collection stays empty. */
    method SeedDB(files: Option<SeedFiles>) returns (exitCode: int)
      modifies this
      ensures files.None? ==>
                careers == [] && questions == [] && roadmaps == [] && collegeExams == [] && exitCode == 1
      ensures files.Some? ==>
                && careers == files.value.careers
                && questions == files.value.questions
                && roadmaps == StoredRoadmaps(files.value.roadmaps)
      ensures files.Some? && (files.value.exams.None? || files.value.colleges.None?) ==>
                collegeExams == [] && exitCode == 1
      ensures files.Some? && files.value.exams.Some? && files.value.colleges.Some? ==>
                && collegeExams == Flatten(files.value.exams.value, files.value.colleges.value)
                && |collegeExams| == |files.value.exams.value| + |files.value.colleges.value|
                && exitCode == 0
    {
      careers := [];
      questions := [];
      roadmaps := [];
      collegeExams := [];
      if files.None? {
        return 1;
      }
      var data := files.value;
      careers := careers + data.careers;
      questions := questions + data.questions;
      roadmaps := roadmaps + StoredRoadmaps(data.roadmaps);
      if data.exams.None? {
        return 1;
      }
      var examDocs := Tagged(data.exams.value, ExamKind);
      if data.colleges.None? {
        return 1;
      }
      var collegeDocs := Tagged(data.colleges.value, CollegeKind);
      collegeExams := collegeExams + (examDocs + collegeDocs);
      exitCode := 0;
    }
  }
}
