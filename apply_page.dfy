/** The enquiry form (src/pages/Apply.tsx): the course picker, its
    preselection from the `program` URL parameter, and submission. */
module ApplyPage {

  import opened Wrappers
  import Seqs
  import Api

  datatype Course = Course(id: string, title: string, slug: string)

  /** `products.map(p => ({ id: p.id, title: p.name, slug: p.slug }))`. */
  function MapCourses(products: seq<Api.ApiProductList>): (r: seq<Course>)
    ensures |r| == |products|
    ensures forall i :: 0 <= i < |products| ==>
      r[i].id == products[i].id && r[i].title == products[i].name && r[i].slug == products[i].slug
  {
    Seqs.Map(products, (p: Api.ApiProductList) => Course(p.id, p.name, p.slug))
  }

  datatype ApplyForm = ApplyForm(name: string, email: string, phone: string, courseId: string, message: string)

  const EmptyForm := ApplyForm("", "", "", "", "")

  /** The `name` attributes of the form's inputs. */
  datatype Field = Name | Email | Phone | CourseId | Message

  /** `{ ...formData, [field]: value }`. */
  function WithField(f: ApplyForm, field: Field, value: string): (r: ApplyForm)
  {
    match field
    case Name => f.(name := value)
    case Email => f.(email := value)
    case Phone => f.(phone := value)
    case CourseId => f.(courseId := value)
    case Message => f.(message := value)
  }

  function FieldValue(f: ApplyForm, field: Field): (r: string)
  {
    match field
    case Name => f.name
    case Email => f.email
    case Phone => f.phone
    case CourseId => f.courseId
    case Message => f.message
  }

  /** Writing a field sets that field and leaves every other one as it was. */
  lemma WithFieldIsLocal(f: ApplyForm, field: Field, value: string)
    ensures FieldValue(WithField(f, field, value), field) == value
    ensures forall other :: other != field ==> FieldValue(WithField(f, field, value), other) == FieldValue(f, other)
  {
  }

  /** The course a slug preselects: the first course with that slug. An empty
      or absent `program` parameter preselects nothing. */
  function Preselected(courses: seq<Course>, programSlug: Option<string>): (r: Option<Course>)
    ensures r.Some? ==> r.value in courses && programSlug == Some(r.value.slug) && r.value.slug != ""
    ensures r.None? && programSlug.Some? && programSlug.value != "" ==>
      forall c :: c in courses ==> c.slug != programSlug.value
  {
    if programSlug.None? || programSlug.value == "" then None
    else Seqs.Find(courses, (c: Course) => c.slug == programSlug.value)
  }

  /** The preselection is the FIRST course with the slug, as `find` returns. */
  lemma {:induction false} PreselectedIsFirst(courses: seq<Course>, slug: string, k: nat)
    requires slug != "" && k < |courses| && courses[k].slug == slug
    requires forall j :: 0 <= j < k ==> courses[j].slug != slug
    ensures Preselected(courses, Some(slug)) == Some(courses[k])
  {
    Seqs.FindFirst(courses, (c: Course) => c.slug == slug, k);
  }

  predicate RequiredFilled(f: ApplyForm) {
    f.name != "" && f.email != "" && f.phone != ""
  }

  /** The title of the course the form selects: `courses.find(c => c.id === course_id)?.title`. */
  function SelectedCourseName(courses: seq<Course>, courseId: string): (r: Option<string>)
    ensures r.None? <==> forall c :: c in courses ==> c.id != courseId
    ensures r.Some? ==> exists c :: c in courses && c.id == courseId && c.title == r.value
  {
    match Seqs.Find(courses, (c: Course) => c.id == courseId)
    case None => None
    case Some(c) => Some(c.title)
  }

  /** The course name sent is the title of the FIRST course with the id. */
  lemma {:induction false} SelectedCourseNameIsFirst(courses: seq<Course>, courseId: string, k: nat)
    requires k < |courses| && courses[k].id == courseId
    requires forall j :: 0 <= j < k ==> courses[j].id != courseId
    ensures SelectedCourseName(courses, courseId) == Some(courses[k].title)
  {
    Seqs.FindFirst(courses, (c: Course) => c.id == courseId, k);
  }

  /** The enquiry `handleSubmit` sends. */
  function BuildEnquiry(f: ApplyForm, courses: seq<Course>): (dto: Api.EnquiryDto)
    ensures dto.name == f.name && dto.email == f.email && dto.phone == f.phone
    ensures dto.courseId.None? <==> f.courseId == ""
    ensures dto.courseId.Some? ==> dto.courseId.value == f.courseId
    ensures dto.courseName == SelectedCourseName(courses, f.courseId)
    ensures dto.message == Some(f.message)
  {
    Api.EnquiryDto(
      name := f.name,
      email := f.email,
      phone := f.phone,
      courseId := if f.courseId != "" then Some(f.courseId) else None,
      courseName := SelectedCourseName(courses, f.courseId),
      message := Some(f.message))
  }

  class Application {
    var courses: seq<Course>
    var formData: ApplyForm
    var isSubmitting: bool
    var isSubmitted: bool

    constructor ()
      ensures courses == [] && formData == EmptyForm && !isSubmitting && !isSubmitted
    {
      courses, formData, isSubmitting, isSubmitted := [], EmptyForm, false, false;
    }

    /** `loadCourses`: on a listing, store the courses and preselect the one
        named by `program`; a failed listing is logged and changes nothing. */
    method LoadCourses(listAnswer: Api.Response<seq<Api.ApiProductList>>, programSlug: Option<string>)
      modifies this`courses, this`formData
      ensures listAnswer.Success? ==> courses == MapCourses(listAnswer.body)
      ensures listAnswer.Success? && Preselected(courses, programSlug).Some? ==>
        formData == old(formData).(courseId := Preselected(courses, programSlug).value.id)
      ensures listAnswer.Success? && Preselected(courses, programSlug).None? ==> formData == old(formData)
      ensures !listAnswer.Success? ==> courses == old(courses) && formData == old(formData)
    {
      var listed := Api.FetchPrograms(listAnswer);
      if listed.result.Ok? {
        courses := MapCourses(listed.result.value);
        var match_ := Preselected(courses, programSlug);
        if match_.Some? {
          formData := formData.(courseId := match_.value.id);
        }
      }
    }

    /** `handleChange`: the named field takes the input's value. */
    method HandleChange(field: Field, value: string)
      modifies this`formData
      ensures formData == WithField(old(formData), field, value)
    {
      formData := WithField(formData, field, value);
    }

    /** `handleSubmit`, with the server's answer to the enquiry as a parameter.
        Without name, email and phone nothing is sent and nothing changes.
        Otherwise the enquiry is sent; only a successful one marks the form
        submitted, and either way submission ends. */
    method HandleSubmit(answer: Api.Response<()>) returns (sent: Option<Api.EnquiryDto>)
      modifies this`isSubmitting, this`isSubmitted
      ensures !RequiredFilled(formData) ==> sent.None? && isSubmitting == old(isSubmitting) && isSubmitted == old(isSubmitted)
      ensures RequiredFilled(formData) ==> sent == Some(BuildEnquiry(formData, courses)) && !isSubmitting
      ensures RequiredFilled(formData) ==> isSubmitted == (old(isSubmitted) || answer.Success?)
    {
      if formData.name == "" || formData.email == "" || formData.phone == "" {
        return None;
      }
      isSubmitting := true;
      var dto := BuildEnquiry(formData, courses);
      var x := Api.CreateEnquiry(dto, answer);
      if x.result.Ok? {
        isSubmitted := true;
      }
      isSubmitting := false;
      return Some(dto);
    }
  }
}
