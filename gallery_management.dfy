/** The admin gallery form (src/components/admin/GalleryManagement.tsx). */
module GalleryManagement {

  import opened Wrappers
  import opened Text

  /** A gallery row as the admin list holds it; `null` columns are `None`. */
  datatype GalleryRow = GalleryRow(
    id: string,
    title: string,
    description: Option<string>,
    mediaUrl: string,
    mediaType: string,
    isFeatured: Option<bool>,
    isActive: Option<bool>,
    displayOrder: Option<int>,
    createdAt: string)

  datatype GalleryForm = GalleryForm(
    title: string,
    description: string,
    mediaUrl: string,
    mediaType: string,
    isFeatured: bool,
    isActive: bool,
    displayOrder: int)

  /** The initial form, which `resetForm` restores. */
  const EmptyForm := GalleryForm("", "", "", "image", false, true, 0)

  /** The media type an uploaded file's MIME type selects, if it is accepted:
      video when it starts with "video/", image when it starts with "image/". */
  function MediaTypeOf(mimeType: string): (r: Option<string>)
    ensures r.None? <==> !StartsWith(mimeType, "video/") && !StartsWith(mimeType, "image/")
    ensures r == Some("video") <==> StartsWith(mimeType, "video/")
    ensures r == Some("image") <==> StartsWith(mimeType, "image/")
  {
    var isVideo := StartsWith(mimeType, "video/");
    var isImage := StartsWith(mimeType, "image/");
    if !isVideo && !isImage then None
    else if isVideo then Some("video") else Some("image")
  }

  /** The form `handleEdit(item)` opens: `description || ''`,
      `is_featured || false`, `is_active ?? true`, `display_order || 0`. */
  function FormFromRow(item: GalleryRow): (f: GalleryForm)
    ensures f.title == item.title && f.mediaUrl == item.mediaUrl && f.mediaType == item.mediaType
    ensures f.description == item.description.GetOr("")
    ensures f.isFeatured <==> item.isFeatured == Some(true)
    ensures f.isActive <==> item.isActive != Some(false)
    ensures item.displayOrder.None? ==> f.displayOrder == 0
    ensures item.displayOrder.Some? ==> f.displayOrder == item.displayOrder.value
  {
    GalleryForm(
      title := item.title,
      description := OrOpt(item.description, ""),
      mediaUrl := item.mediaUrl,
      mediaType := item.mediaType,
      isFeatured := item.isFeatured.GetOr(false),
      isActive := item.isActive.GetOr(true),
      displayOrder := if item.displayOrder.Some? && item.displayOrder.value != 0 then item.displayOrder.value else 0)
  }

  /** `parseInt(text) || 0`, given `parseInt`'s result (`None` for NaN). */
  function DisplayOrderInput(parsed: Option<int>): (n: int)
    ensures parsed.None? ==> n == 0
    ensures parsed.Some? ==> n == parsed.value
  {
    if parsed.Some? && parsed.value != 0 then parsed.value else 0
  }

  /** The fields `handleSubmit` insists on. */
  predicate RequiredFilled(f: GalleryForm) {
    f.title != "" && f.mediaUrl != ""
  }

  datatype UploadOutcome = NoFile | WrongType | Uploaded

  class GalleryEditor {
    var formData: GalleryForm
    var editingItem: Option<GalleryRow>
    var isDialogOpen: bool

    constructor ()
      ensures formData == EmptyForm && editingItem == None && !isDialogOpen
    {
      formData, editingItem, isDialogOpen := EmptyForm, None, false;
    }

    /** `resetForm`. */
    method ResetForm()
      modifies this`formData, this`editingItem
      ensures formData == EmptyForm && editingItem == None
    {
      formData := EmptyForm;
      editingItem := None;
    }

    /** `handleEdit(item)`. */
    method HandleEdit(item: GalleryRow)
      modifies this
      ensures editingItem == Some(item) && formData == FormFromRow(item) && isDialogOpen
    {
      editingItem := Some(item);
      formData := FormFromRow(item);
      isDialogOpen := true;
    }

    /** The dialog's `onOpenChange`: closing it resets the form. */
    method SetDialogOpen(open: bool)
      modifies this
      ensures isDialogOpen == open
      ensures open ==> formData == old(formData) && editingItem == old(editingItem)
      ensures !open ==> formData == EmptyForm && editingItem == None
    {
      isDialogOpen := open;
      if !open {
        ResetForm();
      }
    }

    /** The Cancel button: it only closes the dialog, so the form and the
        item being edited are kept for the next time it opens. */
    method Cancel()
      modifies this`isDialogOpen
      ensures !isDialogOpen
      ensures formData == old(formData) && editingItem == old(editingItem)
    {
      isDialogOpen := false;
    }

    /** `handleFileUpload`: with no file nothing happens; a file that is neither
        image nor video is refused and the form is left alone; otherwise the
        file's object URL (`URL.createObjectURL`, a parameter here) and its
        media type are stored, and nothing else. */
    method HandleFileUpload(mimeType: Option<string>, objectUrl: string) returns (outcome: UploadOutcome)
      modifies this`formData
      ensures mimeType.None? ==> outcome == NoFile
      ensures mimeType.Some? ==> (outcome == WrongType <==> MediaTypeOf(mimeType.value).None?)
      ensures outcome != Uploaded ==> formData == old(formData)
      ensures outcome == Uploaded ==>
        formData == old(formData).(mediaUrl := objectUrl, mediaType := MediaTypeOf(mimeType.value).value)
      ensures outcome == Uploaded ==> formData.mediaType == "video" || formData.mediaType == "image"
    {
      if mimeType.None? {
        return NoFile;
      }
      var kind := MediaTypeOf(mimeType.value);
      if kind.None? {
        return WrongType;
      }
      formData := formData.(mediaUrl := objectUrl, mediaType := kind.value);
      return Uploaded;
    }

    /** The badge's remove button: no media, type back to 'image'. */
    method ClearMedia()
      modifies this`formData
      ensures formData == old(formData).(mediaUrl := "", mediaType := "image")
      ensures !RequiredFilled(formData)
    {
      formData := formData.(mediaUrl := "", mediaType := "image");
    }

    /** The display-order input: an unparsable entry becomes 0. */
    method SetDisplayOrder(parsed: Option<int>)
      modifies this`formData
      ensures formData == old(formData).(displayOrder := DisplayOrderInput(parsed))
    {
      formData := formData.(displayOrder := DisplayOrderInput(parsed));
    }

    /** `handleSubmit`: rejected, changing nothing, without a title and media;
        accepted, it closes and resets the form. */
    method HandleSubmit() returns (accepted: bool)
      modifies this
      ensures accepted <==> RequiredFilled(old(formData))
      ensures !accepted ==> formData == old(formData) && editingItem == old(editingItem) && isDialogOpen == old(isDialogOpen)
      ensures accepted ==> formData == EmptyForm && editingItem == None && !isDialogOpen
    {
      if formData.title == "" || formData.mediaUrl == "" {
        return false;
      }
      isDialogOpen := false;
      ResetForm();
      return true;
    }
  }
}
