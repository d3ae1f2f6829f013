# Sparkle Learn platform — a Dafny model of the catalogue site's core

The Sparkle Learn platform is the public marketing site of an educational
institute, with a small admin area. Visitors browse a catalogue of programs
served by a remote product API. They filter programs by category, mode and
free-text search, open one program's detail, browse the media gallery and
send an enquiry. Administrators edit courses (with a generated URL slug) and
gallery items, and triage enquiries by status.

This project models that core in Dafny:

- **`Api`** is the remote catalogue client. The server's answer to each
  request (a body, a non-ok response, or a rejected fetch) is an input. Each
  operation returns its outcome together with the requests it sent.
- **`Catalog`** holds the adapters from API records to the UI's `Program`,
  and the two catalogue queries.
- **`ProgramsPage`**, **`FeaturedPrograms`**, **`Categories`**,
  **`GalleryPage`**, **`ApplyPage`** and **`Seo`** model the public
  pages: program filtering with URL sync, the featured slice, the category
  cards, the media tabs, the enquiry form, and the head tags.
- **`CourseManagement`**, **`EnquiryManagement`** and
  **`GalleryManagement`** model the admin panels. Component state that the
  source updates in place is a Dafny `class` whose methods carry
  `modifies` clauses.
- **`UrlParams`** models the subset of `URLSearchParams` the programs page
  uses, following section 6.2 of the WHATWG URL Standard.
  **`Text`**, **`Seqs`** and **`Wrappers`** provide the JavaScript
  string and array primitives the core relies on:
  - ASCII `toLowerCase`, `includes`, `startsWith`, the `||` fallback,
    `join` and `split`;
  - `filter`, `find` and `map`;
  - `Option` and `Result`.

Some behaviours of the code are easy to misread. The model follows the code
as written:

- The code does not merge local and remote catalogue data. Every program
  comes from the API; `src/data/programsData.ts` is not used by the modelled
  files.
- The detail adapter only casts `mode` to its Online/Offline/Hybrid type and
  never checks it. Any non-empty service type passes through
  (`Catalog.ModeIsNotCoerced`).
- `fetchPrograms` throws on a non-ok response. `fetchCategories` and
  `fetchGallery` return an empty list on a non-ok response.
- A rejected fetch propagates from every fetch function.
- Duration comes from the FIRST `Duration` attribute only. When that value is
  empty, a later non-empty one is not used and the duration is 'TBD'
  (`Catalog.FirstEmptyDurationAttributeWins`).
- The Cancel buttons of the course and gallery dialogs only close the dialog.
  Unlike closing it through `onOpenChange`, they do not reset the form, so the
  record being edited stays selected when the dialog is opened again
  (`CourseEditor.Cancel`, `GalleryEditor.Cancel`).

## Model

| member | source | states |
|---|---|---|
| Api.FetchCategories | sparkle-learn-platform-main/src/lib/api.ts:21-27 | one GET of the categories; a non-ok answer gives an empty list; only a rejected fetch fails |
| Api.FetchPrograms | sparkle-learn-platform-main/src/lib/api.ts:53-59 | one GET of the products; a non-ok answer fails with "Failed to fetch programs"; a rejected fetch fails with the network error |
| Api.CreateEnquiry | sparkle-learn-platform-main/src/lib/api.ts:94-106 | one POST carrying the enquiry; it succeeds exactly when the server answers ok; a non-ok answer fails with "Failed to submit enquiry" |
| Api.FetchGallery | sparkle-learn-platform-main/src/lib/api.ts:117-123 | one GET of the gallery; a non-ok answer gives an empty gallery; only a rejected fetch fails |
| Api.MatchProduct | sparkle-learn-platform-main/src/lib/api.ts:72 | the match is a listed product whose slug or id equals the key, and there is none exactly when no product has it |
| Api.FetchProgramDetail | sparkle-learn-platform-main/src/lib/api.ts:61-83 | the listing is always requested first; a success means the listing succeeded, a product matched, exactly the listing and that product's detail were requested, and the body is the detail server's answer for its id |
| Api.MatchIsFirst | sparkle-learn-platform-main/src/lib/api.ts:71-72 | the key resolves to the first listed product whose slug or id equals it |
| Api.NotFoundSendsNoDetailRequest | sparkle-learn-platform-main/src/lib/api.ts:72-76 | when no product matches, the result is "Program not found" and the listing is the only request sent |
| Api.DetailRequestedByMatchedId | sparkle-learn-platform-main/src/lib/api.ts:72-82 | on a match, the second request is addressed by the matched product's id, and the detail answer decides success, "Failed to fetch program detail" or the network error |
| Api.DetailOnlyAtMatchedId | sparkle-learn-platform-main/src/lib/api.ts:72-81 | the outcome depends on the detail server only at the ids of matching products |
| Api.ListingFailurePropagates | sparkle-learn-platform-main/src/lib/api.ts:71 | a failed listing fails the detail lookup with the listing's own error, and no detail request is sent |
| Api.SlugAndIdAgree | sparkle-learn-platform-main/src/lib/api.ts:72 | looking a product up by its slug or by its id sends the same requests and gives the same result, when no earlier product claims either key |
| Catalog.ParseJsonAttribute | sparkle-learn-platform-main/src/hooks/usePrograms.ts:32-41 | with no attribute of that name the result is the default |
| Catalog.ParseJsonAttributeFirst | sparkle-learn-platform-main/src/hooks/usePrograms.ts:33-39 | only the first attribute with the key is parsed; a parse failure gives the default |
| Catalog.ParseJsonAttributeIgnoresLater | sparkle-learn-platform-main/src/hooks/usePrograms.ts:33 | attributes after the first one with the key never change the parsed value |
| Catalog.AttributeValueFirst | sparkle-learn-platform-main/src/hooks/usePrograms.ts:47 | the attribute lookup reads the first attribute with the name |
| Catalog.AttributeValue | sparkle-learn-platform-main/src/hooks/usePrograms.ts:47 | absent exactly when no attribute has the name; otherwise the value of an attribute with that name |
| Catalog.DetailDuration | sparkle-learn-platform-main/src/hooks/usePrograms.ts:46-48 | the detail duration is never empty |
| Catalog.DetailMode | sparkle-learn-platform-main/src/hooks/usePrograms.ts:49-51 | the detail mode is never empty |
| Catalog.AdaptProductToProgram | sparkle-learn-platform-main/src/hooks/usePrograms.ts:44-81 | name and category are copied and the fees are the formatted price; the id is the slug or the id; the description is the short description when non-empty, else the meta description; the long description is carried over; the image is the thumbnail when non-empty, else the fallback URL; duration, mode and highlights are never empty; never featured |
| Catalog.DurationPrecedence | sparkle-learn-platform-main/src/hooks/usePrograms.ts:46-48 | a non-empty service duration, else a non-empty first "Duration" attribute, else "TBD" |
| Catalog.FirstEmptyDurationAttributeWins | sparkle-learn-platform-main/src/hooks/usePrograms.ts:46-48 | without a service duration, an empty first "Duration" attribute gives "TBD" whatever later attributes say |
| Catalog.ModePrecedence | sparkle-learn-platform-main/src/hooks/usePrograms.ts:49-51 | a non-empty service type, else a non-empty first "Mode" attribute, else "Online" |
| Catalog.ModeIsNotCoerced | sparkle-learn-platform-main/src/hooks/usePrograms.ts:49-51 | any non-empty service type becomes the mode unchanged; the type assertion does not restrict it |
| Catalog.DetailArrayFields | sparkle-learn-platform-main/src/hooks/usePrograms.ts:54-56 | curriculum, eligibility and career outcomes are the parsed JSON attributes with an empty default; highlights are the features, or ["Industry recognized"] when there are none |
| Catalog.IdIsSlugOrId | sparkle-learn-platform-main/src/hooks/usePrograms.ts:66 | in both adapters the UI id is the slug when it is non-empty, the API id otherwise |
| Catalog.AdaptListItem | sparkle-learn-platform-main/src/hooks/usePrograms.ts:101-115 | name is copied and the fees are the formatted price; a non-empty duration, service type or short description passes through as duration, mode or description; category, duration, mode and image are never empty; no highlights, curriculum, eligibility or outcomes; not featured |
| Catalog.ListItemDefaults | sparkle-learn-platform-main/src/hooks/usePrograms.ts:102-113 | the defaults are the category "General", the name as description, the duration "TBD", the mode "Online" and the fallback image |
| Catalog.AdaptList | sparkle-learn-platform-main/src/hooks/usePrograms.ts:101-115 | the listing maps one-to-one and in order onto programs |
| Catalog.LoadPrograms | sparkle-learn-platform-main/src/hooks/usePrograms.ts:83-118 | the query sends one listing request; on a listing its result is exactly the list mapping of the products, one program per product; a failed listing is the query's error |
| Catalog.LoadProgram | sparkle-learn-platform-main/src/hooks/usePrograms.ts:120-129 | the query runs exactly when the key is non-empty; it sends the detail lookup's requests, and its result is the adapted detail or the lookup's own error |
| ProgramsPage.FilterPrograms | sparkle-learn-platform-main/src/pages/Programs.tsx:45-55 | no data gives no programs; otherwise the order-preserving subsequence of the programs that match category, mode and case-insensitive search |
| ProgramsPage.FilterProgramsCounts | sparkle-learn-platform-main/src/pages/Programs.tsx:45-55 | the filtered list holds every copy of each program that passes and no copy of one that fails |
| ProgramsPage.NoFilterKeepsAll | sparkle-learn-platform-main/src/pages/Programs.tsx:49-53 | with both filters on "All" and an empty query, every program is shown in order |
| ProgramsPage.QueryCaseInsensitive | sparkle-learn-platform-main/src/pages/Programs.tsx:51-52 | two queries equal up to ASCII case select the same programs |
| ProgramsPage.UpperCaseQuery | sparkle-learn-platform-main/src/pages/Programs.tsx:51-52 | upper-casing the query changes nothing |
| ProgramsPage.FilterInStages | sparkle-learn-platform-main/src/pages/Programs.tsx:48-54 | filtering by category and query and then by mode equals filtering by all three at once |
| ProgramsPage.ActiveFilterCount | sparkle-learn-platform-main/src/pages/Programs.tsx:167-169 | the badge counts at most 2; it is 0 exactly when both filters are "All" and 2 exactly when neither is |
| ProgramsPage.Page.constructor | sparkle-learn-platform-main/src/pages/Programs.tsx:35-39 | the initial category is the URL's non-empty "category" parameter, else "All"; mode is "All" and the query is empty |
| ProgramsPage.Page.HandleCategoryChange | sparkle-learn-platform-main/src/pages/Programs.tsx:57-65 | sets the category; "All" deletes the URL parameter, anything else sets it; other parameters and the other filters are unchanged |
| ProgramsPage.Page.SetMode | sparkle-learn-platform-main/src/pages/Programs.tsx:141 | sets the mode and leaves the category and the query unchanged |
| ProgramsPage.Page.SetQuery | sparkle-learn-platform-main/src/pages/Programs.tsx:133 | sets the query and leaves both filters unchanged |
| ProgramsPage.Page.ClearAll | sparkle-learn-platform-main/src/pages/Programs.tsx:247-251 | resets both filters and the query; afterwards the badge is 0 and every program is visible |
| UrlParams.Deleted | sparkle-learn-platform-main/src/pages/Programs.tsx:60 | deleting a name removes exactly the entries with that name |
| UrlParams.WithValue | sparkle-learn-platform-main/src/pages/Programs.tsx:62 | setting a name leaves the pair present, and entries of other names unchanged |
| UrlParams.LookupDeleted | sparkle-learn-platform-main/src/pages/Programs.tsx:60 | after a delete, the name reads as absent and every other name reads as before |
| UrlParams.LookupWithValue | sparkle-learn-platform-main/src/pages/Programs.tsx:62 | after a set, the name reads as the new value and every other name reads as before |
| UrlParams.SearchParams.Delete | sparkle-learn-platform-main/src/pages/Programs.tsx:60 | the object's entries become the deleted list |
| UrlParams.SearchParams.Set | sparkle-learn-platform-main/src/pages/Programs.tsx:62 | the object's entries become the set list |
| FeaturedPrograms.Featured | sparkle-learn-platform-main/src/components/home/FeaturedPrograms.tsx:8 | no data gives nothing; otherwise a prefix of the programs, of length min(4, count) |
| Categories.IconFor | sparkle-learn-platform-main/src/components/home/Categories.tsx:5-11 | a known category gets its table icon; any other gets the Database icon |
| Categories.ColorFor | sparkle-learn-platform-main/src/components/home/Categories.tsx:13-19 | a colour class exists exactly for the five table categories; there is no fallback |
| Categories.ProgramsIn | sparkle-learn-platform-main/src/components/home/Categories.tsx:50 | the programs whose category is exactly the card's |
| Categories.ProgramCount | sparkle-learn-platform-main/src/components/home/Categories.tsx:50 | the count is at most the number of programs; it is 0 exactly when none has the category |
| Categories.ProgramCountAppend | sparkle-learn-platform-main/src/components/home/Categories.tsx:50 | counts add up across concatenated listings |
| Categories.TwoCategoriesDoNotOverlap | sparkle-learn-platform-main/src/components/home/Categories.tsx:50 | the counts of two distinct categories sum to at most the number of programs |
| Categories.ProgramCountSingle | sparkle-learn-platform-main/src/components/home/Categories.tsx:50 | one program counts 1 under exactly its own category, compared with case, and 0 under any other |
| Categories.ProgramNoun | sparkle-learn-platform-main/src/components/home/Categories.tsx:66 | the caption word is "Program" or "Programs" |
| Categories.ProgramNounSingular | sparkle-learn-platform-main/src/components/home/Categories.tsx:66 | the caption says "Program" exactly when the count is 1, and "Programs" otherwise |
| GalleryPage.FilteredItems | sparkle-learn-platform-main/src/pages/Gallery.tsx:32-35 | an order-preserving subsequence holding every copy of each shown item and none of the others; on the image or video tab, exactly the items of that media type |
| GalleryPage.AllTabShowsEverything | sparkle-learn-platform-main/src/pages/Gallery.tsx:33 | the "all" tab shows every item in order |
| GalleryPage.FeaturedItems | sparkle-learn-platform-main/src/pages/Gallery.tsx:37 | the order-preserving subsequence holding every copy of each featured item and nothing else |
| GalleryPage.TabsPartition | sparkle-learn-platform-main/src/pages/Gallery.tsx:32-35 | no item is on both the image and the video tab; an item of another type is on neither |
| GalleryPage.TabsCount | sparkle-learn-platform-main/src/pages/Gallery.tsx:32-35 | the image and video tabs together show at most all the items |
| ApplyPage.MapCourses | sparkle-learn-platform-main/src/pages/Apply.tsx:39-43 | one course per product, in order, with the id, the name as title, and the slug |
| ApplyPage.Application.constructor | sparkle-learn-platform-main/src/pages/Apply.tsx:24-33 | no courses, the empty form, not submitting and not submitted |
| ApplyPage.WithFieldIsLocal | sparkle-learn-platform-main/src/pages/Apply.tsx:59-61 | a change sets the named field and leaves every other field as it was |
| ApplyPage.Preselected | sparkle-learn-platform-main/src/pages/Apply.tsx:46-51 | an empty or absent slug preselects nothing; otherwise the preselection is a listed course with that slug, and none only when no course has it |
| ApplyPage.PreselectedIsFirst | sparkle-learn-platform-main/src/pages/Apply.tsx:47 | the preselected course is the first one whose slug equals the parameter |
| ApplyPage.SelectedCourseName | sparkle-learn-platform-main/src/pages/Apply.tsx:73 | absent exactly when no course has the selected id; otherwise the title of a course with that id |
| ApplyPage.SelectedCourseNameIsFirst | sparkle-learn-platform-main/src/pages/Apply.tsx:73 | the course name sent is the title of the first course with the selected id |
| ApplyPage.BuildEnquiry | sparkle-learn-platform-main/src/pages/Apply.tsx:76-83 | name, email and phone are copied; the course id is absent exactly when it is empty; the course name is the selected course's title; the message is always sent |
| ApplyPage.Application.LoadCourses | sparkle-learn-platform-main/src/pages/Apply.tsx:35-57 | on a listing, stores the courses and preselects the slug's course id; a failed listing changes nothing |
| ApplyPage.Application.HandleChange | sparkle-learn-platform-main/src/pages/Apply.tsx:59-61 | the form becomes the old form with the one field replaced |
| ApplyPage.Application.HandleSubmit | sparkle-learn-platform-main/src/pages/Apply.tsx:63-92 | without name, email and phone nothing is sent and nothing changes; otherwise the built enquiry is sent, the form is submitted exactly when the server accepts it, and submission ends |
| Seo.MetaTitle | sparkle-learn-platform-main/src/components/common/SEO.tsx:33 | a non-empty title gets " \| Sparkle" appended; a missing or empty title gives the default title |
| Seo.MetaTitleDistinguishes | sparkle-learn-platform-main/src/components/common/SEO.tsx:29-33 | the default title arises only from a missing or empty title, and distinct page titles give distinct document titles |
| Seo.CurrentUrl | sparkle-learn-platform-main/src/components/common/SEO.tsx:27-28 | a non-empty canonical URL wins; otherwise the site URL followed by the path |
| Seo.ImageUrl | sparkle-learn-platform-main/src/components/common/SEO.tsx:54 | an image starting with "http" is kept; any other is prefixed with the site URL |
| Seo.ImageUrlIsAbsolute | sparkle-learn-platform-main/src/components/common/SEO.tsx:54 | the image URL always starts with "http", and resolving it again changes nothing |
| Seo.Render | sparkle-learn-platform-main/src/components/common/SEO.tsx:20-60 | a given non-empty description or keywords is emitted as is, and a missing or empty one gives the default; a given author or type is emitted as is, and only a missing one gives the default; OG and Twitter titles and descriptions equal the document's; og:url equals the canonical link; og:image equals twitter:image; robots appears exactly for noindex pages |
| Seo.DefaultPage | sparkle-learn-platform-main/src/components/common/SEO.tsx:20-54 | a page without props gets the default title, its own route as canonical URL, the site's logo as image, and no robots tag |
| CourseManagement.GenerateSlugIsSlug | sparkle-learn-platform-main/src/components/admin/CourseManagement.tsx:87-92 | a generated slug has only a-z, 0-9 and '-', never two hyphens in a row, and no hyphen at either end |
| CourseManagement.GenerateSlugKeepsLettersAndDigits | sparkle-learn-platform-main/src/components/admin/CourseManagement.tsx:87-92 | deleting the hyphens from the slug leaves the title's ASCII letters and digits, lower-cased, in order |
| CourseManagement.PunctuationOnlyGivesEmpty | sparkle-learn-platform-main/src/components/admin/CourseManagement.tsx:87-92 | a title without ASCII letters or digits gives the empty slug |
| CourseManagement.SlugIsFixedPoint | sparkle-learn-platform-main/src/components/admin/CourseManagement.tsx:87-92 | a well-formed slug is its own slug |
| CourseManagement.GenerateSlugIdempotent | sparkle-learn-platform-main/src/components/admin/CourseManagement.tsx:87-92 | regenerating a slug from a slug changes nothing |
| CourseManagement.CollapseRunsShaped | sparkle-learn-platform-main/src/components/admin/CourseManagement.tsx:90 | replacing each run of other characters with one hyphen leaves no two hyphens in a row |
| CourseManagement.TrimHyphensIsSlug | sparkle-learn-platform-main/src/components/admin/CourseManagement.tsx:91 | trimming the end hyphens of such a string leaves a well-formed slug |
| CourseManagement.CollapseRuns | sparkle-learn-platform-main/src/components/admin/CourseManagement.tsx:90 | the result is empty exactly when the input is, no longer than the input, and starts with the input's first character or a hyphen |
| CourseManagement.TrimHyphens | sparkle-learn-platform-main/src/components/admin/CourseManagement.tsx:91 | the result is no longer than the input, and a string without a hyphen at either end is unchanged |
| CourseManagement.GenerateSlug | sparkle-learn-platform-main/src/components/admin/CourseManagement.tsx:87-92 | the slug is never longer than the title |
| CourseManagement.JoinLinesRoundTrip | sparkle-learn-platform-main/src/components/admin/CourseManagement.tsx:134-135 | a non-empty list without line breaks in its entries splits back out of its joined lines |
| CourseManagement.FormFromCourse | sparkle-learn-platform-main/src/components/admin/CourseManagement.tsx:122-141 | title, slug, category, duration and mode are copied; fees, description, overview, eligibility and image URL are the column or "" when null; highlights and career outcomes are "" when null and otherwise their entries joined with '\n', so that a non-empty list with no line break in an entry splits back out; featured only when true; active unless false |
| CourseManagement.EditedCourseValidates | sparkle-learn-platform-main/src/components/admin/CourseManagement.tsx:122-149 | the form opened for a course passes validation exactly when the course has a title, a category and a duration |
| CourseManagement.CourseEditor.constructor | sparkle-learn-platform-main/src/components/admin/CourseManagement.tsx:53-72 | the empty form, no course being edited and the dialog closed |
| CourseManagement.CourseEditor.HandleTitleChange | sparkle-learn-platform-main/src/components/admin/CourseManagement.tsx:94-100 | sets the title; when not editing, regenerates the slug, which is then well-formed; when editing, keeps the slug |
| CourseManagement.CourseEditor.SetSlug | sparkle-learn-platform-main/src/components/admin/CourseManagement.tsx:215 | a hand-typed slug replaces the slug alone |
| CourseManagement.CourseEditor.ResetForm | sparkle-learn-platform-main/src/components/admin/CourseManagement.tsx:102-120 | the form becomes the empty form (mode "Online", active, not featured) and nothing is being edited |
| CourseManagement.CourseEditor.HandleEdit | sparkle-learn-platform-main/src/components/admin/CourseManagement.tsx:122-141 | the course is being edited, the form shows it, and the dialog is open |
| CourseManagement.CourseEditor.SetDialogOpen | sparkle-learn-platform-main/src/components/admin/CourseManagement.tsx:183-186 | opening keeps the form; closing resets it |
| CourseManagement.CourseEditor.Cancel | sparkle-learn-platform-main/src/components/admin/CourseManagement.tsx:405 | only the dialog closes; the form and the course being edited are kept |
| CourseManagement.CourseEditor.HandleSubmit | sparkle-learn-platform-main/src/components/admin/CourseManagement.tsx:143-155 | accepts exactly a form with title, category and duration; a rejected form is unchanged; an accepted one is reset and the dialog is closed |
| EnquiryManagement.StatusBadge | sparkle-learn-platform-main/src/components/admin/EnquiryManagement.tsx:84-91 | an unknown status shows its own text in grey |
| EnquiryManagement.KnownStatusBadge | sparkle-learn-platform-main/src/components/admin/EnquiryManagement.tsx:84-91 | a known status shows its option's label and colour |
| EnquiryManagement.StatusLabels | sparkle-learn-platform-main/src/components/admin/EnquiryManagement.tsx:33-39 | new, contacted, interested, converted and closed show New, Contacted, Interested, Converted and Closed |
| EnquiryManagement.RawTextOnlyWhenUnknown | sparkle-learn-platform-main/src/components/admin/EnquiryManagement.tsx:84-91 | the badge shows the raw status exactly when it is unknown |
| EnquiryManagement.FilterEnquiries | sparkle-learn-platform-main/src/components/admin/EnquiryManagement.tsx:93-103 | the order-preserving subsequence of the enquiries that match both the search and the status filter, with every copy of a kept enquiry kept |
| EnquiryManagement.NoFilterKeepsAll | sparkle-learn-platform-main/src/components/admin/EnquiryManagement.tsx:93-103 | an empty search with status "all" keeps every enquiry in order |
| EnquiryManagement.StatusFilterIsExact | sparkle-learn-platform-main/src/components/admin/EnquiryManagement.tsx:100-101 | with a status chosen, every kept enquiry has exactly that status |
| EnquiryManagement.NoCourseNameNoCourseMatch | sparkle-learn-platform-main/src/components/admin/EnquiryManagement.tsx:94-99 | without a course name, only name, email or phone can match |
| EnquiryManagement.PhoneMatchesAsTyped | sparkle-learn-platform-main/src/components/admin/EnquiryManagement.tsx:95-98 | when the phone is the only searchable text, a term matches exactly when it occurs in the phone with the same letter case |
| EnquiryManagement.EnquiryDesk.constructor | sparkle-learn-platform-main/src/components/admin/EnquiryManagement.tsx:44-46 | nothing selected, empty notes and the dialog closed |
| EnquiryManagement.EnquiryDesk.HandleViewEnquiry | sparkle-learn-platform-main/src/components/admin/EnquiryManagement.tsx:63-67 | selects the enquiry, loads its notes (empty when none) and opens the dialog |
| EnquiryManagement.EnquiryDesk.SetNotes | sparkle-learn-platform-main/src/components/admin/EnquiryManagement.tsx:284 | the notes become the typed text |
| EnquiryManagement.EnquiryDesk.HandleStatusChange | sparkle-learn-platform-main/src/components/admin/EnquiryManagement.tsx:69-75 | updates the status of the selected enquiry when its id matches; otherwise the selection is unchanged |
| EnquiryManagement.EnquiryDesk.HandleSaveNotes | sparkle-learn-platform-main/src/components/admin/EnquiryManagement.tsx:77-82 | stores the notes in the selected enquiry, if any |
| GalleryManagement.MediaTypeOf | sparkle-learn-platform-main/src/components/admin/GalleryManagement.tsx:91-99 | "video/" types give video, "image/" types give image, and any other type is refused |
| GalleryManagement.FormFromRow | sparkle-learn-platform-main/src/components/admin/GalleryManagement.tsx:73-85 | title, URL and type are copied; the description is the column or "" when null; featured only when true; active unless false; the display order is the column, or 0 when null |
| GalleryManagement.DisplayOrderInput | sparkle-learn-platform-main/src/components/admin/GalleryManagement.tsx:237 | an unparsable display order becomes 0 |
| GalleryManagement.GalleryEditor.constructor | sparkle-learn-platform-main/src/components/admin/GalleryManagement.tsx:33-46 | the empty form, no item being edited and the dialog closed |
| GalleryManagement.GalleryEditor.ResetForm | sparkle-learn-platform-main/src/components/admin/GalleryManagement.tsx:60-71 | the form becomes the empty form and nothing is being edited |
| GalleryManagement.GalleryEditor.SetDialogOpen | sparkle-learn-platform-main/src/components/admin/GalleryManagement.tsx:152-155 | opening keeps the form; closing resets it |
| GalleryManagement.GalleryEditor.Cancel | sparkle-learn-platform-main/src/components/admin/GalleryManagement.tsx:262 | only the dialog closes; the form and the item being edited are kept |
| GalleryManagement.GalleryEditor.HandleEdit | sparkle-learn-platform-main/src/components/admin/GalleryManagement.tsx:73-85 | the item is being edited, the form shows it, and the dialog is open |
| GalleryManagement.GalleryEditor.HandleFileUpload | sparkle-learn-platform-main/src/components/admin/GalleryManagement.tsx:87-110 | no file or a refused type leaves the form unchanged; an image or video sets the media URL and type |
| GalleryManagement.GalleryEditor.ClearMedia | sparkle-learn-platform-main/src/components/admin/GalleryManagement.tsx:215 | clearing empties the URL, resets the type to image, and leaves the form incomplete |
| GalleryManagement.GalleryEditor.SetDisplayOrder | sparkle-learn-platform-main/src/components/admin/GalleryManagement.tsx:237 | the display order becomes the parsed input, or 0 |
| GalleryManagement.GalleryEditor.HandleSubmit | sparkle-learn-platform-main/src/components/admin/GalleryManagement.tsx:112-124 | accepts exactly a form with title and media URL; a rejected form is unchanged; an accepted one is reset and the dialog is closed |
| Text.IncludesIff | sparkle-learn-platform-main/src/pages/Programs.tsx:51 | the substring test holds exactly when the query occurs at some position |
| Text.LowerUpper | sparkle-learn-platform-main/src/pages/Programs.tsx:51 | lower-casing undoes upper-casing |
| Text.SplitJoin | sparkle-learn-platform-main/src/components/admin/CourseManagement.tsx:134 | splitting a joined list gives it back, when no item contains the separator |
| Seqs.FilterIsSubsequence | sparkle-learn-platform-main/src/pages/Programs.tsx:48 | a filter keeps the order of what it keeps |
| Seqs.FilterCounts | sparkle-learn-platform-main/src/pages/Programs.tsx:48 | a filter keeps every copy of a kept value and no copy of a dropped one |
| Seqs.FilterFilter | sparkle-learn-platform-main/src/pages/Programs.tsx:48-54 | two filters in sequence equal one filter by the conjunction |
| Seqs.FilterPartition | sparkle-learn-platform-main/src/pages/Gallery.tsx:32-35 | the kept and the dropped elements together number the input |
| Seqs.FindPrefix | sparkle-learn-platform-main/src/lib/api.ts:72 | a find over a concatenation answers from the first part when it can |

## Left out

- Network I/O is not modelled. Each `fetch` answer and each `.json()` body is a parameter of the operation that uses it.
- The base URL and subscriber id (src/config.ts) are not part of this model. Requests are identified by endpoint alone.
- React Query caching, refetching and loading flags are not modelled. A query is the function of the answers it receives.
- Toasts, console logging and the `finally` ordering of React state updates are not modelled. Each handler's state changes are applied at once, in the order the source writes them.
- Catalog.AdaptProductToProgram: `JSON.parse` and `Intl.NumberFormat` are parameters (`Collaborators`). A JSON value of the wrong shape that passes the TypeScript cast is not modelled.
- Unicode case mapping is not modelled. `toLowerCase` and `toUpperCase` are ASCII-only.
- `encodeURIComponent` in the category links and the JSON-LD block in the head are constant or presentational and are not modelled.
- `parseInt` is a parameter: `GalleryManagement.DisplayOrderInput` takes its parsed result. A parsed 0 and NaN both give 0, which the model shows.
- GalleryManagement.GalleryEditor.HandleFileUpload: the simulated upload delay is not modelled, so the object URL is stored at once. The stale form snapshot captured before the delay is not modelled either.
- The mock admin loaders (`fetchCourses`, `fetchItems`, `fetchEnquiries`), the delete actions with their `confirm()` prompt, the active toggles and the dashboard tabs only log or show toasts. They are not modelled.
- Date formatting with date-fns in the enquiry list is presentational and is not modelled.
- `variants`, `prices` and the untyped course curriculum are not modelled.
- The setters that copy one input into one form field are modelled only where they carry logic: the slug, display order, media clearing, notes and the form of the enquiry page.
- The `Record` lookups in the category tables are modelled as maps. JavaScript's inherited object keys (such as "constructor") are not modelled.
- UrlParams.WithValue: states membership and that other names are unchanged. It does not state the exact position of the replaced entry.
- Pages and components that only lay out static content are not part of this model. This covers the home sections other than the featured programs and categories, About, Contact, FAQs, the policies, the navigation, analytics and the auth stub.
