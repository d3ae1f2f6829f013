/** The admin course form (src/components/admin/CourseManagement.tsx): the
    slug generator and the form state it feeds. */
module CourseManagement {

  import opened Wrappers
  import opened Text
  import Seqs

  // ----- generateSlug -----

  /** A character of the class `[a-z0-9]`. */
  predicate IsSlugChar(c: char) { IsLowerAscii(c) || IsDigit(c) }

  predicate NotHyphen(c: char) { c != '-' }

  /** An ASCII letter or digit of the title, before lower-casing. */
  predicate IsAsciiAlnum(c: char) { IsUpperAscii(c) || IsLowerAscii(c) || IsDigit(c) }

  /** Drops the leading characters outside `[a-z0-9]`. */
  function DropNonSlug(s: string): (r: string)
    ensures |r| <= |s| && r == s[|s| - |r|..]
    ensures r == [] || IsSlugChar(r[0])
    ensures forall i :: 0 <= i < |s| - |r| ==> !IsSlugChar(s[i])
  {
    if s == [] || IsSlugChar(s[0]) then s else DropNonSlug(s[1..])
  }

  /** `.replace(/[^a-z0-9]+/g, '-')`: every maximal run of characters outside
      `[a-z0-9]` becomes one hyphen. */
  function CollapseRuns(s: string): (r: string)
    ensures r == [] <==> s == []
    ensures s != [] && IsSlugChar(s[0]) ==> r[0] == s[0]
    ensures s != [] && !IsSlugChar(s[0]) ==> r[0] == '-'
    ensures |r| <= |s|
    decreases |s|
  {
    if s == [] then []
    else if IsSlugChar(s[0]) then [s[0]] + CollapseRuns(s[1..])
    else "-" + CollapseRuns(DropNonSlug(s[1..]))
  }

  /** `.replace(/(^-|-$)+/g, '')`: one hyphen at each end is removed. On a
      string without two hyphens in a row this is the regex's exact effect. */
  function TrimHyphens(s: string): (r: string)
    ensures |r| <= |s|
    ensures s != [] && s[0] != '-' && s[|s| - 1] != '-' ==> r == s
  {
    var a := if s != [] && s[0] == '-' then s[1..] else s;
    if a != [] && a[|a| - 1] == '-' then a[..|a| - 1] else a
  }

  /** `generateSlug(title)`. */
  function GenerateSlug(title: string): (r: string)
    ensures |r| <= |title|
  {
    TrimHyphens(CollapseRuns(Lower(title)))
  }

  /** Only `a-z`, `0-9` and `-`, and never two hyphens in a row. */
  predicate SlugShaped(s: string) {
    && (forall i :: 0 <= i < |s| ==> IsSlugChar(s[i]) || s[i] == '-')
    && (forall i :: 0 < i < |s| && s[i] == '-' ==> s[i - 1] != '-')
  }

  /** A well-formed slug: slug-shaped, and not starting or ending with '-'. */
  predicate IsSlug(s: string) {
    SlugShaped(s) && (s != [] ==> s[0] != '-' && s[|s| - 1] != '-')
  }

  lemma {:induction false} CollapseRunsShaped(s: string)
    ensures SlugShaped(CollapseRuns(s))
    decreases |s|
  {
    if s == [] {
    } else if IsSlugChar(s[0]) {
      CollapseRunsShaped(s[1..]);
    } else {
      var rest := DropNonSlug(s[1..]);
      CollapseRunsShaped(rest);
      var r := CollapseRuns(rest);
      assert CollapseRuns(s) == "-" + r;
      assert r != [] ==> IsSlugChar(r[0]);
    }
  }

  lemma TrimHyphensIsSlug(s: string)
    requires SlugShaped(s)
    ensures IsSlug(TrimHyphens(s))
  {
    var a := if s != [] && s[0] == '-' then s[1..] else s;
    assert SlugShaped(a) && (a != [] ==> a[0] != '-');
    if a != [] && a[|a| - 1] == '-' {
      var b := a[..|a| - 1];
      assert b != [] ==> b[|b| - 1] == a[|a| - 2] != '-';
    }
  }

  /** The generated slug contains only `a-z`, `0-9` and `-`, never two
      hyphens in a row, and does not begin or end with a hyphen. */
  lemma GenerateSlugIsSlug(title: string)
    ensures IsSlug(GenerateSlug(title))
  {
    CollapseRunsShaped(Lower(title));
    TrimHyphensIsSlug(CollapseRuns(Lower(title)));
  }

  lemma {:induction false} DropNonSlugKeepsSlugChars(s: string)
    ensures Seqs.Filter(DropNonSlug(s), IsSlugChar) == Seqs.Filter(s, IsSlugChar)
  {
    if s != [] && !IsSlugChar(s[0]) {
      DropNonSlugKeepsSlugChars(s[1..]);
    }
  }

  lemma {:induction false} CollapseRunsKeepsSlugChars(s: string)
    ensures Seqs.Filter(CollapseRuns(s), NotHyphen) == Seqs.Filter(s, IsSlugChar)
    decreases |s|
  {
    if s == [] {
    } else if IsSlugChar(s[0]) {
      CollapseRunsKeepsSlugChars(s[1..]);
      assert CollapseRuns(s) == [s[0]] + CollapseRuns(s[1..]);
      Seqs.FilterAppend([s[0]], CollapseRuns(s[1..]), NotHyphen);
    } else {
      var rest := DropNonSlug(s[1..]);
      CollapseRunsKeepsSlugChars(rest);
      DropNonSlugKeepsSlugChars(s[1..]);
      Seqs.FilterAppend("-", CollapseRuns(rest), NotHyphen);
    }
  }

  lemma HyphenIsDropped(a: string, b: string)
    requires a == "-" || b == "-"
    ensures Seqs.Filter(a + b, NotHyphen) == Seqs.Filter(if a == "-" then b else a, NotHyphen)
  {
    Seqs.FilterAppend(a, b, NotHyphen);
    assert Seqs.Filter("-", NotHyphen) == [];
  }

  lemma TrimHyphensKeepsLetters(s: string)
    ensures Seqs.Filter(TrimHyphens(s), NotHyphen) == Seqs.Filter(s, NotHyphen)
  {
    var a := if s != [] && s[0] == '-' then s[1..] else s;
    if s != [] && s[0] == '-' {
      assert s == "-" + a;
      HyphenIsDropped("-", a);
    }
    if a != [] && a[|a| - 1] == '-' {
      var b := a[..|a| - 1];
      assert a == b + "-";
      HyphenIsDropped(b, "-");
    }
  }

  lemma LowerAppend(a: string, b: string)
    ensures Lower(a + b) == Lower(a) + Lower(b)
  {
  }

  /** Lower-casing maps an ASCII letter or digit to a slug character and any
      other character outside that class. */
  lemma LowerCharSlug(c: char)
    ensures IsSlugChar(LowerChar(c)) == IsAsciiAlnum(c)
  {
  }

  lemma {:induction false} LowerKeepsAlnum(t: string)
    ensures Seqs.Filter(Lower(t), IsSlugChar) == Lower(Seqs.Filter(t, IsAsciiAlnum))
  {
    if t != [] {
      var c := t[0];
      var rest := Seqs.Filter(t[1..], IsAsciiAlnum);
      LowerKeepsAlnum(t[1..]);
      LowerAppend([c], t[1..]);
      assert t == [c] + t[1..];
      Seqs.FilterAppend([LowerChar(c)], Lower(t[1..]), IsSlugChar);
      LowerCharSlug(c);
      var head := if IsAsciiAlnum(c) then [c] else [];
      assert Seqs.Filter(t, IsAsciiAlnum) == head + rest;
      LowerAppend(head, rest);
      assert Seqs.Filter([LowerChar(c)], IsSlugChar) == Lower(head);
    }
  }

  /** Deleting the hyphens from the slug leaves the title's ASCII letters and
      digits, lower-cased, in their original order. */
  lemma GenerateSlugKeepsLettersAndDigits(title: string)
    ensures Seqs.Filter(GenerateSlug(title), NotHyphen) == Lower(Seqs.Filter(title, IsAsciiAlnum))
  {
    TrimHyphensKeepsLetters(CollapseRuns(Lower(title)));
    CollapseRunsKeepsSlugChars(Lower(title));
    LowerKeepsAlnum(title);
  }

  /** A title with no ASCII letter or digit gives the empty slug. */
  lemma PunctuationOnlyGivesEmpty(title: string)
    requires forall i :: 0 <= i < |title| ==> !IsAsciiAlnum(title[i])
    ensures GenerateSlug(title) == ""
  {
    var s := GenerateSlug(title);
    GenerateSlugKeepsLettersAndDigits(title);
    GenerateSlugIsSlug(title);
    assert Seqs.Filter(title, IsAsciiAlnum) == [];
    assert forall c :: c in s ==> c == '-';
  }

  lemma {:induction false} CollapseRunsFixesShaped(s: string)
    requires SlugShaped(s)
    ensures CollapseRuns(s) == s
    decreases |s|
  {
    if s != [] {
      assert SlugShaped(s[1..]);
      CollapseRunsFixesShaped(s[1..]);
      if !IsSlugChar(s[0]) {
        assert s[1..] == [] || IsSlugChar(s[1]);
        assert DropNonSlug(s[1..]) == s[1..];
      }
      assert s == [s[0]] + s[1..];
    }
  }

  /** A well-formed slug is its own slug. */
  lemma SlugIsFixedPoint(s: string)
    requires IsSlug(s)
    ensures GenerateSlug(s) == s
  {
    LowerFixesSlugShaped(s);
    CollapseRunsFixesShaped(s);
    calc {
      GenerateSlug(s);
      TrimHyphens(CollapseRuns(Lower(s)));
      TrimHyphens(CollapseRuns(s));
      TrimHyphens(s);
      s;
    }
  }

  lemma LowerFixesSlugShaped(s: string)
    requires SlugShaped(s)
    ensures Lower(s) == s
  {
    assert forall i :: 0 <= i < |s| ==> Lower(s)[i] == s[i];
  }

  /** `generateSlug` is idempotent. */
  lemma GenerateSlugIdempotent(title: string)
    ensures GenerateSlug(GenerateSlug(title)) == GenerateSlug(title)
  {
    GenerateSlugIsSlug(title);
    SlugIsFixedPoint(GenerateSlug(title));
  }

  // ----- the course form -----

  /** A course as the admin list holds it; `null` columns are `None`. Its
      untyped `curriculum` column is not used by the form. */
  datatype Course = Course(
    id: string,
    title: string,
    slug: string,
    category: string,
    duration: string,
    mode: string,
    fees: Option<string>,
    description: Option<string>,
    overview: Option<string>,
    eligibility: Option<string>,
    highlights: Option<seq<string>>,
    careerOutcomes: Option<seq<string>>,
    imageUrl: Option<string>,
    isFeatured: Option<bool>,
    isActive: Option<bool>,
    createdAt: string)

  /** The form's fields; highlights and career outcomes are one line each. */
  datatype CourseForm = CourseForm(
    title: string,
    slug: string,
    category: string,
    duration: string,
    mode: string,
    fees: string,
    description: string,
    overview: string,
    eligibility: string,
    highlights: string,
    careerOutcomes: string,
    imageUrl: string,
    isFeatured: bool,
    isActive: bool)

  /** The initial form, which `resetForm` restores. */
  const EmptyForm := CourseForm("", "", "", "", "Online", "", "", "", "", "", "", "", false, true)

  /** `list?.join('\n') || ''`. */
  function JoinLines(list: Option<seq<string>>): (r: string)
    ensures list.None? ==> r == ""
    ensures list.Some? ==> r == Join(list.value, '\n')
  {
    match list
    case None => ""
    case Some(parts) => Or(Join(parts, '\n'), "")
  }

  /** A list the form can carry as lines: non-empty, with no line break
      inside an entry. */
  predicate Lines(parts: seq<string>) {
    parts != [] && forall i :: 0 <= i < |parts| ==> '\n' !in parts[i]
  }

  /** Joined lines split back into the original list. */
  lemma JoinLinesRoundTrip(list: Option<seq<string>>)
    ensures list.Some? && Lines(list.value) ==> Split(JoinLines(list), '\n') == list.value
  {
    if list.Some? && Lines(list.value) {
      SplitJoin(list.value, '\n');
    }
  }

  /** The form `handleEdit(course)` opens: the text columns with `null` read
      as empty, the two lists as one line per entry, `is_featured` only when
      true and `is_active` unless false. */
  function FormFromCourse(c: Course): (f: CourseForm)
    ensures f.title == c.title && f.slug == c.slug && f.category == c.category
    ensures f.duration == c.duration && f.mode == c.mode
    ensures f.fees == c.fees.GetOr("") && f.description == c.description.GetOr("")
    ensures f.overview == c.overview.GetOr("") && f.eligibility == c.eligibility.GetOr("")
    ensures f.imageUrl == c.imageUrl.GetOr("")
    ensures f.isFeatured <==> c.isFeatured == Some(true)
    ensures f.isActive <==> c.isActive != Some(false)
    ensures c.highlights.None? ==> f.highlights == ""
    ensures c.highlights.Some? ==> f.highlights == Join(c.highlights.value, '\n')
    ensures c.highlights.Some? && Lines(c.highlights.value) ==> Split(f.highlights, '\n') == c.highlights.value
    ensures c.careerOutcomes.None? ==> f.careerOutcomes == ""
    ensures c.careerOutcomes.Some? ==> f.careerOutcomes == Join(c.careerOutcomes.value, '\n')
    ensures c.careerOutcomes.Some? && Lines(c.careerOutcomes.value) ==> Split(f.careerOutcomes, '\n') == c.careerOutcomes.value
  {
    JoinLinesRoundTrip(c.highlights);
    JoinLinesRoundTrip(c.careerOutcomes);
    CourseForm(
      title := c.title,
      slug := c.slug,
      category := c.category,
      duration := c.duration,
      mode := c.mode,
      fees := OrOpt(c.fees, ""),
      description := OrOpt(c.description, ""),
      overview := OrOpt(c.overview, ""),
      eligibility := OrOpt(c.eligibility, ""),
      highlights := JoinLines(c.highlights),
      careerOutcomes := JoinLines(c.careerOutcomes),
      imageUrl := OrOpt(c.imageUrl, ""),
      isFeatured := c.isFeatured.GetOr(false),
      isActive := c.isActive.GetOr(true))
  }

  /** The fields `handleSubmit` insists on. */
  predicate RequiredFilled(f: CourseForm) {
    f.title != "" && f.category != "" && f.duration != ""
  }

  /** The form opened for a course passes validation exactly when the course
      has a title, a category and a duration. */
  lemma EditedCourseValidates(c: Course)
    ensures RequiredFilled(FormFromCourse(c)) <==> c.title != "" && c.category != "" && c.duration != ""
  {
  }

  class CourseEditor {
    var formData: CourseForm
    var editingCourse: Option<Course>
    var isDialogOpen: bool

    constructor ()
      ensures formData == EmptyForm && editingCourse == None && !isDialogOpen
    {
      formData, editingCourse, isDialogOpen := EmptyForm, None, false;
    }

    /** `handleTitleChange`: a new course re-derives its slug from the title;
        an edited course keeps its slug. */
    method HandleTitleChange(title: string)
      modifies this
      ensures formData == old(formData).(title := title,
                                          slug := if old(editingCourse).Some? then old(formData.slug) else GenerateSlug(title))
      ensures editingCourse == old(editingCourse) && isDialogOpen == old(isDialogOpen)
      ensures editingCourse.None? ==> IsSlug(formData.slug)
    {
      var slug := if editingCourse.Some? then formData.slug else GenerateSlug(title);
      GenerateSlugIsSlug(title);
      formData := formData.(title := title, slug := slug);
    }

    /** The slug input edits the slug alone. */
    method SetSlug(slug: string)
      modifies this`formData
      ensures formData == old(formData).(slug := slug)
    {
      formData := formData.(slug := slug);
    }

    /** `resetForm`. */
    method ResetForm()
      modifies this`formData, this`editingCourse
      ensures formData == EmptyForm && editingCourse == None
      ensures formData.mode == "Online" && formData.isActive && !formData.isFeatured
    {
      formData := EmptyForm;
      editingCourse := None;
    }

    /** `handleEdit(course)`. */
    method HandleEdit(course: Course)
      modifies this
      ensures editingCourse == Some(course) && formData == FormFromCourse(course) && isDialogOpen
    {
      editingCourse := Some(course);
      formData := FormFromCourse(course);
      isDialogOpen := true;
    }

    /** The dialog's `onOpenChange`: closing it resets the form. */
    method SetDialogOpen(open: bool)
      modifies this
      ensures isDialogOpen == open
      ensures open ==> formData == old(formData) && editingCourse == old(editingCourse)
      ensures !open ==> formData == EmptyForm && editingCourse == None
    {
      isDialogOpen := open;
      if !open {
        ResetForm();
      }
    }

    /** The Cancel button: it only closes the dialog, so the form and the
        course being edited are kept for the next time it opens. */
    method Cancel()
      modifies this`isDialogOpen
      ensures !isDialogOpen
      ensures formData == old(formData) && editingCourse == old(editingCourse)
    {
      isDialogOpen := false;
    }

    /** `handleSubmit`: rejected, changing nothing, unless title, category and
        duration are all filled in; accepted, it closes and resets the form. */
    method HandleSubmit() returns (accepted: bool)
      modifies this
      ensures accepted <==> RequiredFilled(old(formData))
      ensures !accepted ==> formData == old(formData) && editingCourse == old(editingCourse) && isDialogOpen == old(isDialogOpen)
      ensures accepted ==> formData == EmptyForm && editingCourse == None && !isDialogOpen
    {
      if !(formData.title != "" && formData.category != "" && formData.duration != "") {
        return false;
      }
      isDialogOpen := false;
      ResetForm();
      return true;
    }
  }
}
