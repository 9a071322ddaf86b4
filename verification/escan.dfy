/**
 * The ESCAN course manager: the course form's validation, the record it builds, and the
 * simulated enrolment.
 */
module Escan {
  import opened Wrappers
  import opened Types
  import opened Text

  // The course form.

  /** The form's state; `price` is `parseFloat` of the price field, `None` standing for NaN. */
  datatype CourseForm = CourseForm(
    title: string, instructor: string, price: Option<real>, cover: Option<string>, materials: Option<FileInfo>)

  datatype CourseErrors = CourseErrors(
    title: Option<string>, instructor: Option<string>, price: Option<string>, coverImage: Option<string>)

  const TitleRequired: string := "Course title is required."
  const InstructorRequired: string := "Instructor name is required."
  const PriceInvalid: string := "Price must be a positive number."
  const CoverRequired: string := "A cover image is required."

  predicate PriceValid(price: Option<real>)
  {
    price.Some? && price.value > 0.0
  }

  /** `!coverImage` is false: a cover was chosen and it is not the empty string. */
  predicate HasCover(cover: Option<string>)
  {
    cover.Some? && cover.value != ""
  }

  /** `validate`: blank title or instructor, a price that is not a positive number, no cover. */
  function Validate(f: CourseForm): (r: CourseErrors)
    ensures r.title.Some? <==> Trim(f.title) == ""
    ensures r.instructor.Some? <==> Trim(f.instructor) == ""
    ensures r.price.Some? <==> f.price.None? || f.price.value <= 0.0
    ensures r.coverImage.Some? <==> f.cover.None? || f.cover.value == ""
    ensures r.title.Some? ==> r.title.value == TitleRequired
    ensures r.instructor.Some? ==> r.instructor.value == InstructorRequired
    ensures r.price.Some? ==> r.price.value == PriceInvalid
    ensures r.coverImage.Some? ==> r.coverImage.value == CoverRequired
  {
    CourseErrors(
      if Trim(f.title) == "" then Some(TitleRequired) else None,
      if Trim(f.instructor) == "" then Some(InstructorRequired) else None,
      if !PriceValid(f.price) then Some(PriceInvalid) else None,
      if !HasCover(f.cover) then Some(CoverRequired) else None)
  }

  predicate NoErrors(e: CourseErrors)
  {
    e.title.None? && e.instructor.None? && e.price.None? && e.coverImage.None?
  }

  /**
   * `handleSubmit`: refused with the errors, or the course record. A new course is upcoming with
   * no students; an edit keeps id, students and status, and keeps the stored materials unless
   * another file was chosen. The materials file is optional either way.
   */
  function SubmitCourse(f: CourseForm, editing: Option<Course>, stamp: string): (r: Result<Course, CourseErrors>)
    ensures r.Success? <==> NoErrors(Validate(f))
    ensures r.Failure? ==> r.error == Validate(f)
    ensures r.Success? ==>
      (r.value.title == f.title && r.value.instructor == f.instructor
       && Some(r.value.price) == f.price && r.value.price > 0.0 && Some(r.value.coverImageUrl) == f.cover)
    ensures r.Success? ==> r.value.coverImageUrl != ""
    ensures r.Success? && f.materials.Some? ==> r.value.materialsFile == f.materials
    ensures r.Success? && editing.None? ==>
      (r.value.id == "c" + stamp && r.value.students == 0 && r.value.status == Upcoming
       && r.value.materialsFile == f.materials)
    ensures r.Success? && editing.Some? ==>
      (r.value.id == editing.value.id && r.value.students == editing.value.students
       && r.value.status == editing.value.status
       && (f.materials.None? ==> r.value.materialsFile == editing.value.materialsFile))
  {
    var e := Validate(f);
    if !NoErrors(e) then Failure(e)
    else
      var materials := if f.materials.Some? then f.materials else if editing.Some? then editing.value.materialsFile else None;
      match editing
      case None => Success(Course("c" + stamp, f.title, f.instructor, 0, f.price.value, Upcoming, f.cover.value, materials))
      case Some(c) => Success(Course(c.id, f.title, f.instructor, c.students, f.price.value, c.status, f.cover.value, materials))
  }

  /** Opening the form on a valid course and submitting it untouched gives back the same course. */
  lemma EditRoundTrip(c: Course, stamp: string)
    requires Trim(c.title) != "" && Trim(c.instructor) != "" && c.price > 0.0 && c.coverImageUrl != ""
    ensures SubmitCourse(CourseForm(c.title, c.instructor, Some(c.price), Some(c.coverImageUrl), None), Some(c), stamp)
         == Success(c)
  {
  }

  /** A course stored with an empty cover cannot be saved back unchanged: the edit is refused for the cover. */
  lemma EditWithoutCoverRefused(c: Course, stamp: string)
    requires c.coverImageUrl == ""
    ensures SubmitCourse(CourseForm(c.title, c.instructor, Some(c.price), Some(c.coverImageUrl), None), Some(c), stamp).Failure?
    ensures SubmitCourse(CourseForm(c.title, c.instructor, Some(c.price), Some(c.coverImageUrl), None), Some(c), stamp)
      .error.coverImage == Some(CoverRequired)
  {
  }

  // The enrolment simulation.

  /** The draws for one course: new students in 0..4 and whether an upcoming course goes live (`Math.random() > 0.98`). */
  datatype CourseDraw = CourseDraw(joined: nat, goLive: bool)

  predicate ValidCourseDraws(draws: seq<CourseDraw>, n: nat)
  {
    |draws| == n && forall i :: 0 <= i < n ==> draws[i].joined < 5
  }

  function CourseStep(c: Course, d: CourseDraw): Course
  {
    if c.status == Live then c.(students := c.students + d.joined)
    else if d.goLive then c.(status := Live)
    else c
  }

  /** One tick: live courses gain up to four students; an upcoming course may go live, unchanged otherwise. */
  function CourseTick(courses: seq<Course>, draws: seq<CourseDraw>): (r: seq<Course>)
    requires ValidCourseDraws(draws, |courses|)
    ensures |r| == |courses|
    ensures forall i :: 0 <= i < |courses| && courses[i].status == Live ==>
      r[i] == courses[i].(students := r[i].students)
      && courses[i].students <= r[i].students <= courses[i].students + 4
    ensures forall i :: 0 <= i < |courses| && courses[i].status == Upcoming ==>
      r[i] == courses[i] || r[i] == courses[i].(status := Live)
  {
    seq(|courses|, i requires 0 <= i < |courses| => CourseStep(courses[i], draws[i]))
  }

  /** Live is final: a course that is live stays live. */
  lemma LiveStaysLive(courses: seq<Course>, draws: seq<CourseDraw>, i: int)
    requires ValidCourseDraws(draws, |courses|)
    requires 0 <= i < |courses| && courses[i].status == Live
    ensures CourseTick(courses, draws)[i].status == Live
  {
  }

  /** A live course with a draw of zero new students is left exactly as it was. */
  lemma ZeroDrawIsIdle(c: Course)
    requires c.status == Live
    ensures CourseStep(c, CourseDraw(0, true)) == c && CourseStep(c, CourseDraw(0, false)) == c
  {
  }
}
