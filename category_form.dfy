/**
 * The category form dialog: adding or editing a category, with the image
 * it carries and the payload `save_category` sends.
 */
module CategoryForm {
  import opened Wrappers
  import opened Text
  import opened QtWidgets

  /** The category dict being edited; None is a missing key. */
  datatype CategoryData = CategoryData(
    id: Field, name: Option<string>, description: Option<string>,
    imageBase64: Option<string>, categoryImage: Option<string>)

  /** `s.split(sep, 1)` when `sep` occurs: the text before its first occurrence and the rest. */
  function SplitFirst(s: string, sep: char): (r: Option<(string, string)>)
    ensures r.None? <==> sep !in s
    ensures r.Some? ==> s == r.value.0 + [sep] + r.value.1 && sep !in r.value.0
  {
    if s == [] then None
    else if s[0] == sep then Some(([], s[1..]))
    else
      var rest := SplitFirst(s[1..], sep);
      if rest.None? then None
      else Some(([s[0]] + rest.value.0, rest.value.1))
  }

  predicate StartsWith(s: string, prefix: string) {
    |prefix| <= |s| && s[..|prefix|] == prefix
  }

  /** Python's `a or b` on optional strings: an empty or missing `a` gives `b`. */
  function OrText(a: Option<string>, b: Option<string>): Option<string> {
    if a.Some? && a.value != [] then a else b
  }

  /**
   * The `image_base64` that `load_category_data()` keeps: the stored image
   * (a data URL's part after its first comma), provided `decodes` says it is
   * base64 of a picture Qt can load; None when there is none or it fails.
   */
  function LoadedImage(c: CategoryData, decodes: string -> bool): (r: Option<string>)
    ensures r.Some? ==> decodes(r.value)
    ensures r.Some? ==> OrText(c.imageBase64, c.categoryImage).Some?
    ensures r.Some? ==> var img := OrText(c.imageBase64, c.categoryImage).value;
      if StartsWith(img, "data:image") then exists header | ',' !in header :: img == header + [','] + r.value
      else r.value == img
    ensures OrText(c.imageBase64, c.categoryImage).None? || OrText(c.imageBase64, c.categoryImage) == Some([]) ==> r.None?
  {
    var img := OrText(c.imageBase64, c.categoryImage);
    if img.None? || img.value == [] then None
    else if StartsWith(img.value, "data:image") then
      var parts := SplitFirst(img.value, ',');
      if parts.None? then None
      else if decodes(parts.value.1) then Some(parts.value.1) else None
    else if decodes(img.value) then img
    else None
  }

  datatype SaveRequest =
    | NameRequired
    | CreateCategory(name: string, description: Option<string>, imageBase64: Option<string>)
    | UpdateCategory(categoryId: Field, name: string, description: Option<string>, imageBase64: Option<string>)

  /**
   * What `save_category` does with the form: the stripped name (refused when
   * blank) and description (None when blank); an update sends the image only
   * when one is set, a create always passes it.
   */
  function SaveRequestFor(editing: Option<CategoryData>, nameText: string, descriptionText: string,
                          imageBase64: Option<string>): SaveRequest
  {
    if Strip(nameText) == [] then NameRequired
    else if editing.None? then CreateCategory(Strip(nameText), StripOrNone(descriptionText), imageBase64)
    else
      UpdateCategory(editing.value.id, Strip(nameText), StripOrNone(descriptionText),
                     if imageBase64.Some? && imageBase64.value != [] then imageBase64 else None)
  }

  /** The payload's rules, one per branch of `save_category`. */
  lemma SaveRequestRules(editing: Option<CategoryData>, nameText: string, descriptionText: string,
                         imageBase64: Option<string>, r: SaveRequest)
    requires r == SaveRequestFor(editing, nameText, descriptionText, imageBase64)
    ensures IsBlank(nameText) <==> r.NameRequired?
    ensures !r.NameRequired? ==> r.name == Strip(nameText) && r.name != [] && r.description == StripOrNone(descriptionText)
    ensures r.CreateCategory? <==> !IsBlank(nameText) && editing.None?
    ensures r.CreateCategory? ==> r.imageBase64 == imageBase64
    ensures r.UpdateCategory? ==> editing.Some? && r.categoryId == editing.value.id
    ensures r.UpdateCategory? ==>
      (r.imageBase64.Some? <==> imageBase64.Some? && imageBase64.value != []) && (r.imageBase64.Some? ==> r.imageBase64 == imageBase64)
  {
  }

  datatype SaveOutcome = SaveRefused | SaveFailed | Saved(request: SaveRequest)

  class Form {
    const categoryData: Option<CategoryData>
    const isEditMode: bool
    var nameText: string
    var descriptionText: string
    var imagePath: Option<string>
    var imageBase64: Option<string>
    var accepted: bool

    /** `CategoryFormDialog(category_data)`, filled from the category in edit mode. */
    constructor (categoryData: Option<CategoryData>, decodes: string -> bool)
      ensures this.categoryData == categoryData && (isEditMode <==> categoryData.Some?)
      ensures categoryData.None? ==> nameText == [] && descriptionText == [] && imageBase64.None?
      ensures categoryData.Some? ==>
        && nameText == categoryData.value.name.GetOr("")
        && descriptionText == categoryData.value.description.GetOr("")
        && imageBase64 == LoadedImage(categoryData.value, decodes)
      ensures imagePath.None? && !accepted
    {
      this.categoryData := categoryData;
      isEditMode := categoryData.Some?;
      nameText, descriptionText := [], [];
      imagePath, imageBase64 := None, None;
      accepted := false;
      if categoryData.Some? {
        nameText := categoryData.value.name.GetOr("");
        descriptionText := categoryData.value.description.GetOr("");
        imageBase64 := LoadedImage(categoryData.value, decodes);
      }
    }

    /** `upload_image()` with the chosen file: over 5MB is refused; otherwise its path and base64 text are kept. */
    method UploadImage(path: string, size: int, base64: string)
      modifies this
      ensures path != [] && size <= 5 * 1024 * 1024 ==> imagePath == Some(path) && imageBase64 == Some(base64)
      ensures !(path != [] && size <= 5 * 1024 * 1024) ==> imagePath == old(imagePath) && imageBase64 == old(imageBase64)
      ensures nameText == old(nameText) && descriptionText == old(descriptionText) && accepted == old(accepted)
    {
      if path != [] && size <= 5 * 1024 * 1024 {
        imagePath := Some(path);
        imageBase64 := Some(base64);
      }
    }

    /** `remove_image()`: an update saved afterwards sends no image, and a create passes None. */
    method RemoveImage()
      modifies this
      ensures imagePath.None? && imageBase64.None?
      ensures nameText == old(nameText) && descriptionText == old(descriptionText) && accepted == old(accepted)
    {
      imagePath, imageBase64 := None, None;
    }

    /** `save_category()`; `apiOk` says whether the call succeeds, after which the dialog accepts. */
    method SaveCategory(apiOk: bool) returns (o: SaveOutcome)
      modifies this
      ensures var r := SaveRequestFor(categoryData, nameText, descriptionText, imageBase64);
        && (r.NameRequired? ==> o == SaveRefused && accepted == old(accepted))
        && (!r.NameRequired? && apiOk ==> o == Saved(r) && accepted)
        && (!r.NameRequired? && !apiOk ==> o == SaveFailed && accepted == old(accepted))
      ensures nameText == old(nameText) && descriptionText == old(descriptionText)
      ensures imagePath == old(imagePath) && imageBase64 == old(imageBase64)
    {
      var r := SaveRequestFor(categoryData, nameText, descriptionText, imageBase64);
      if r.NameRequired? {
        o := SaveRefused;
      } else if !apiOk {
        o := SaveFailed;
      } else {
        o := Saved(r);
        accepted := true;
      }
    }
  }

  /** After `remove_image()`, an update carries no image. */
  lemma RemovedImageNotSent(editing: CategoryData, nameText: string, descriptionText: string)
    requires !IsBlank(nameText)
    ensures SaveRequestFor(Some(editing), nameText, descriptionText, None).UpdateCategory?
    ensures SaveRequestFor(Some(editing), nameText, descriptionText, None).imageBase64.None?
  {
    SaveRequestRules(Some(editing), nameText, descriptionText, None, SaveRequestFor(Some(editing), nameText, descriptionText, None));
  }
}
