/**
 * admin/products.php: an optional product image upload, checked and stored under a safe
 * file name, followed by the create, update or delete the admin form asked for. The
 * upload's file move and the clock are parameters.
 */
module AdminProducts {
  import opened Php
  import Catalog
  import Csrf

  const ImageDir := "/assets/images/products/"
  const AllowedImageTypes: seq<string> := ["jpg", "jpeg", "png", "gif"]

  /** `$_FILES['image_file']`: the client's file name, the temporary path and the error code (null when absent). */
  datatype ImageFile = ImageFile(name: string, tmpName: string, error: Option<int>)

  /** Why an upload was refused, with the message the page shows. */
  datatype UploadError = NoFile | BadType | UploadFailed(code: int) | MoveFailed
  {
    function Message(): string
    {
      match this
      case NoFile => "No file selected or upload error."
      case BadType => "Invalid image type. Only JPG, JPEG, PNG, GIF are allowed."
      case UploadFailed(code) => "File upload error code: " + IntToString(code)
      case MoveFailed => "Failed to move uploaded file to destination."
    }
  }

  /** The three checks of an upload, in their order; the first that fails is the only one reported. */
  function CheckUpload(file: ImageFile): (r: Option<UploadError>)
    ensures r == Some(NoFile) <==> file.name == "" || file.tmpName == ""
    ensures r == Some(BadType) <==>
              file.name != "" && file.tmpName != "" && Lower(Extension(file.name)) !in AllowedImageTypes
    ensures r.None? ==> Lower(Extension(file.name)) in AllowedImageTypes && (file.error.None? || file.error.value == 0)
  {
    if file.name == "" || file.tmpName == "" then Some(NoFile)
    else if Lower(Extension(file.name)) !in AllowedImageTypes then Some(BadType)
    else if file.error.Some? && file.error.value != 0 then Some(UploadFailed(file.error.value))
    else None
  }

  /** The characters a stored image name may hold: a-z, 0-9, '-', '_' and '.'. */
  predicate IsSafeChar(c: char)
  {
    'a' <= c <= 'z' || '0' <= c <= '9' || c == '-' || c == '_' || c == '.'
  }

  predicate IsSafe(s: string)
  {
    forall i :: 0 <= i < |s| ==> IsSafeChar(s[i])
  }

  /** `preg_replace('/[^a-z0-9\-_.]/', '', $s)`: the safe characters, in order. */
  function KeepSafe(s: string): (r: string)
    ensures |r| <= |s| && IsSafe(r)
  {
    if s == [] then []
    else (if IsSafeChar(s[0]) then [s[0]] else []) + KeepSafe(s[1..])
  }

  /** `substr($s, 0, 200)`. */
  function Cut200(s: string): (r: string)
    ensures |r| <= 200 && |r| <= |s| && r == s[..|r|]
    ensures |s| <= 200 ==> r == s
  {
    if |s| <= 200 then s else s[..200]
  }

  /** The safe base name, step by step as the page builds it from the file's stem. */
  method SafeBaseName(origName: string) returns (baseName: string)
    ensures baseName == SafeBase(FileStem(origName))
    ensures IsSafe(baseName) && |baseName| <= 200
  {
    baseName := Lower(FileStem(origName));
    baseName := ReplaceSpaceRuns(baseName, '-');
    baseName := KeepSafe(baseName);
    baseName := Cut200(baseName);
  }

  /** The four steps of the safe name as one function of the stem. */
  function SafeBase(stem: string): (r: string)
    ensures IsSafe(r) && |r| <= 200
  {
    Cut200(KeepSafe(ReplaceSpaceRuns(Lower(stem), '-')))
  }

  lemma {:induction false} KeepSafeOfSafe(s: string)
    requires IsSafe(s)
    ensures KeepSafe(s) == s
  {
    if s != [] {
      KeepSafeOfSafe(s[1..]);
    }
  }

  lemma {:induction false} NoSpaceRunsOfSafe(s: string, sub: char)
    requires IsSafe(s)
    ensures ReplaceSpaceRuns(s, sub) == s
  {
    if s != [] {
      assert !IsRegexSpace(s[0]);
      NoSpaceRunsOfSafe(s[1..], sub);
    }
  }

  /** A name that is already safe passes the four steps unchanged: the cleaning is idempotent. */
  lemma SafeBaseIdempotent(stem: string)
    ensures SafeBase(SafeBase(stem)) == SafeBase(stem)
  {
    var s := SafeBase(stem);
    assert Lower(s) == s;
    NoSpaceRunsOfSafe(s, '-');
    KeepSafeOfSafe(s);
  }

  /** The stored file name: base, '_', the upload time, '.', the extension. */
  function StoredName(baseName: string, now: nat, ext: string): string
  {
    baseName + "_" + NatToString(now) + "." + ext
  }

  /** The stored file keeps the uploaded file's extension, which is one of the allowed image types. */
  lemma StoredNameKeepsExtension(baseName: string, now: nat, ext: string)
    requires IsSafe(baseName) && ext in AllowedImageTypes
    ensures Extension(StoredName(baseName, now, ext)) == ext
    ensures FileStem(StoredName(baseName, now, ext)) == baseName + "_" + NatToString(now)
  {
    var stem := baseName + "_" + NatToString(now);
    assert StoredName(baseName, now, ext) == stem + "." + ext;
    NatToStringDigits(now);
    assert '/' !in stem by {
      forall i | 0 <= i < |stem|
        ensures stem[i] != '/'
      {
        if i < |baseName| {
          assert IsSafeChar(baseName[i]);
        } else if i > |baseName| {
          assert stem[i] == NatToString(now)[i - |baseName| - 1];
        }
      }
    }
    assert '/' !in ext && '.' !in ext;
    PathinfoOfJoined(stem, ext);
  }

  /** What an upload left behind: the checks' refusal, or the image path the form now carries. */
  datatype UploadResult = Refused(error: UploadError) | Stored(image: string)

  /** The upload branch as one function: the checks' refusal, a failed move, or the new image path. */
  function Upload(file: ImageFile, now: nat, moved: bool): (r: UploadResult)
    ensures r.Refused? <==> CheckUpload(file).Some? || !moved
    ensures CheckUpload(file).Some? ==> r == Refused(CheckUpload(file).value)
    ensures CheckUpload(file).None? && !moved ==> r == Refused(MoveFailed)
    ensures r.Stored? ==> StartsWith(r.image, ImageDir) && Lower(Extension(file.name)) in AllowedImageTypes
  {
    if CheckUpload(file).Some? then Refused(CheckUpload(file).value)
    else if !moved then Refused(MoveFailed)
    else
      var image := ImageDir + StoredName(SafeBase(FileStem(file.name)), now, Lower(Extension(file.name)));
      assert image[..|ImageDir|] == ImageDir;
      Stored(image)
  }

  /** The page's upload steps: the checks, the safe name, the move, then the image path for the form. */
  method HandleUpload(file: ImageFile, now: nat, moved: bool) returns (r: UploadResult)
    ensures r == Upload(file, now, moved)
  {
    var refusal := CheckUpload(file);
    if refusal.Some? {
      return Refused(refusal.value);
    }
    var ext := Lower(Extension(file.name));
    var baseName := SafeBaseName(file.name);
    var newName := baseName + "_" + NatToString(now) + "." + ext;
    if !moved {
      return Refused(MoveFailed);
    }
    r := Stored(ImageDir + newName);
  }

  /** The messages a refused catalogue write reports. */
  function Messages(errors: seq<Catalog.CatalogError>): (r: seq<string>)
    ensures |r| == |errors| && forall i :: 0 <= i < |errors| ==> r[i] == errors[i].Message()
  {
    seq(|errors|, i requires 0 <= i < |errors| => errors[i].Message())
  }

  /** The page state after a POST: the errors, the success message and the view to show. */
  datatype PageState = PageState(errors: seq<string>, successMessage: string, action: string)

  /** Why the posted image, if any, stops the request; None when there is none or it was stored. */
  function UploadRefusal(file: Option<ImageFile>, now: nat, moved: bool): (r: Option<UploadError>)
    ensures r.Some? <==> file.Some? && (CheckUpload(file.value).Some? || !moved)
    ensures r.Some? && CheckUpload(file.value).None? ==> r.value == MoveFailed
  {
    if file.Some? && Upload(file.value, now, moved).Refused? then Some(Upload(file.value, now, moved).error) else None
  }

  /** The form data once the posted image, if any, is stored: the image field then names the stored file. */
  function UploadedInput(file: Option<ImageFile>, now: nat, moved: bool, data: Catalog.ProductInput): (r: Catalog.ProductInput)
    requires UploadRefusal(file, now, moved).None?
    ensures r.name == data.name && r.description == data.description && r.price == data.price
    ensures file.Some? ==> r.image.Some? && StartsWith(r.image.value, ImageDir)
    ensures file.None? ==> r == data
  {
    if file.Some? then data.(image := Some(Upload(file.value, now, moved).image)) else data
  }

  /**
   * The product list the form action writes, or None when it writes nothing: an unknown
   * action, input the validation refuses, or an update or delete with no file or no such id.
   */
  function Written(file: Option<seq<Catalog.Product>>, formAction: string, input: Catalog.ProductInput,
                   productId: int): (r: Option<seq<Catalog.Product>>)
    ensures formAction != "create" && formAction != "update" && formAction != "delete" ==> r.None?
    ensures formAction == "create" ==> (r.Some? <==> Catalog.CreateErrors(input) == [])
    ensures formAction == "update" ==>
              (r.Some? <==> Catalog.UpdateErrors(input) == [] && file.Some? && Catalog.FirstIndex(file.value, productId) >= 0)
    ensures formAction == "delete" ==> (r.Some? <==> file.Some? && Catalog.FirstIndex(file.value, productId) >= 0)
    ensures r.Some? && formAction == "create" ==> |r.value| == (if file.Some? then |file.value| else 0) + 1
    ensures r.Some? && formAction == "update" ==> |r.value| == |file.value|
    ensures r.Some? && formAction == "delete" ==> forall i :: 0 <= i < |r.value| ==> r.value[i].id != productId
  {
    if formAction == "create" then
      if Catalog.CreateErrors(input) == [] then Some(Catalog.Created(file, input)) else None
    else if formAction == "update" then
      if Catalog.UpdateErrors(input) == [] && file.Some? && Catalog.FirstIndex(file.value, productId) >= 0 then
        Some(Catalog.UpdateFirst(file.value, productId, Sanitize(input.name), Sanitize(input.description), input.price,
                                 Catalog.WithLeadingSlash(Sanitize(Catalog.ImageInput(input)))))
      else None
    else if formAction == "delete" then
      if file.Some? && Catalog.FirstIndex(file.value, productId) >= 0 then Some(Catalog.RemoveAll(file.value, productId))
      else None
    else None
  }

  /**
   * The messages the page shows after the form action: the catalogue's errors for a create
   * or an update, the page's own message for a delete, none after a success or for an
   * unknown action.
   */
  function ActionErrors(file: Option<seq<Catalog.Product>>, formAction: string, input: Catalog.ProductInput,
                        productId: int, io: Catalog.WriteOutcome): (r: seq<string>)
    ensures var written := Written(file, formAction, input, productId);
      r == [] <==> formAction !in {"create", "update", "delete"}
                   || (written.Some? && Catalog.SaveOutcome(written.value, io).Saved?)
    ensures formAction == "delete" && r != [] ==> r == ["Unable to delete product."]
  {
    var written := Written(file, formAction, input, productId);
    if formAction == "create" then
      if Catalog.CreateErrors(input) != [] then Messages(Catalog.AsCatalogErrors(Catalog.CreateErrors(input)))
      else if Catalog.SaveOutcome(written.value, io).Saved? then []
      else Messages(Catalog.SaveOutcome(written.value, io).errors)
    else if formAction == "update" then
      if Catalog.UpdateErrors(input) != [] then Messages(Catalog.AsCatalogErrors(Catalog.UpdateErrors(input)))
      else if file.None? then Messages([Catalog.LoadFailed])
      else if Catalog.FirstIndex(file.value, productId) < 0 then Messages([Catalog.ProductNotFound])
      else if Catalog.SaveOutcome(written.value, io).Saved? then []
      else Messages(Catalog.SaveOutcome(written.value, io).errors)
    else if formAction == "delete" then
      if written.Some? && Catalog.SaveOutcome(written.value, io).Saved? then [] else ["Unable to delete product."]
    else []
  }

  /** The upload part of the POST: the refusal's message, or the form data with the stored image path. */
  method ApplyUpload(file: Option<ImageFile>, now: nat, moved: bool, data: Catalog.ProductInput)
    returns (errors: seq<string>, input: Catalog.ProductInput)
    ensures UploadRefusal(file, now, moved).Some? ==> errors == [UploadRefusal(file, now, moved).value.Message()]
    ensures UploadRefusal(file, now, moved).None? ==> errors == []
    ensures input == if errors == [] then UploadedInput(file, now, moved, data) else data
  {
    errors := [];
    input := data;
    if file.Some? {
      var upload := HandleUpload(file.value, now, moved);
      if upload.Refused? {
        errors := errors + [upload.error.Message()];
      } else if upload.Stored? {
        input := input.(image := Some(upload.image));
      }
    }
  }

  /**
   * The POST branch of admin/products.php. `file` is the image field when its name is not
   * PHP-empty, `formAction` the submitted `form_action`, `data` the other form fields.
   */
  method HandlePost(store: Catalog.Store, csrf: Csrf.TokenStore, action: string, token: Option<string>,
                    file: Option<ImageFile>, now: nat, moved: bool,
                    formAction: string, data: Catalog.ProductInput, productId: int, io: Catalog.WriteOutcome)
    returns (state: PageState)
    modifies store, csrf
    ensures !Csrf.Accepts(old(csrf.tokens), "admin_product", token) ==>
              state == PageState(["Invalid submission. Please refresh and try again."], "", action)
              && store.file == old(store.file)
    ensures Csrf.Accepts(old(csrf.tokens), "admin_product", token) && UploadRefusal(file, now, moved).Some? ==>
              state == PageState([UploadRefusal(file, now, moved).value.Message()], "", action)
              && store.file == old(store.file)
    ensures formAction != "create" && formAction != "update" && formAction != "delete" ==>
              store.file == old(store.file) && state.action == action && state.successMessage == ""
    ensures state.successMessage != "" ==> state.errors == []
    ensures Csrf.Accepts(old(csrf.tokens), "admin_product", token) && UploadRefusal(file, now, moved).None? ==>
              && (formAction == "update" && state.errors != [] ==> state.action == "edit")
              && (formAction == "delete" ==> state.action == "list")
    ensures Csrf.Accepts(old(csrf.tokens), "admin_product", token) && UploadRefusal(file, now, moved).None? ==>
              var written := Written(old(store.file), formAction, UploadedInput(file, now, moved, data), productId);
              && (written.None? ==> store.file == old(store.file))
              && (written.Some? ==> store.file == Catalog.AfterSave(old(store.file), written.value, io)
                                    && (state.errors == [] <==> Catalog.SaveOutcome(written.value, io).Saved?))
              && state.errors == ActionErrors(old(store.file), formAction, UploadedInput(file, now, moved, data), productId, io)
    ensures csrf.tokens == if Csrf.Accepts(old(csrf.tokens), "admin_product", token)
                           then Csrf.Consume(old(csrf.tokens), "admin_product", token.value) else old(csrf.tokens)
  {
    var valid := csrf.Validate("admin_product", token);
    if !valid {
      return PageState(["Invalid submission. Please refresh and try again."], "", action);
    }
    var errors, input := ApplyUpload(file, now, moved, data);
    if errors == [] {
      state := Dispatch(store, action, formAction, input, productId, io);
    } else {
      state := PageState(errors, "", action);
    }
  }

  /**
   * The create, update or delete the form asks for, once the upload (if any) went through;
   * the page tests the three names one after the other, and at most one can match.
   */
  method Dispatch(store: Catalog.Store, action: string, formAction: string, input: Catalog.ProductInput,
                  productId: int, io: Catalog.WriteOutcome)
    returns (state: PageState)
    modifies store
    ensures formAction != "create" && formAction != "update" && formAction != "delete" ==>
              store.file == old(store.file) && state == PageState([], "", action)
    ensures state.successMessage != "" ==> state.errors == []
    ensures formAction == "update" && state.errors != [] ==> state.action == "edit"
    ensures formAction == "delete" ==> state.action == "list"
    ensures state.errors == [] && (formAction == "create" || formAction == "update") ==> state.action == "list"
    ensures Written(old(store.file), formAction, input, productId).None? ==> store.file == old(store.file)
    ensures formAction in {"create", "update", "delete"} && Written(old(store.file), formAction, input, productId).None? ==>
              state.errors != []
    ensures var written := Written(old(store.file), formAction, input, productId);
            written.Some? ==> store.file == Catalog.AfterSave(old(store.file), written.value, io)
                              && (state.errors == [] <==> Catalog.SaveOutcome(written.value, io).Saved?)
    ensures state.errors == ActionErrors(old(store.file), formAction, input, productId, io)
  {
    state := PageState([], "", action);
    if formAction == "create" {
      state := Create(store, action, input, io);
    }
    if formAction == "update" {
      state := Update(store, productId, input, io);
    }
    if formAction == "delete" {
      state := Delete(store, productId, io);
    }
  }

  /** The `create` action: on success the list view with a message, otherwise the catalogue's errors. */
  method Create(store: Catalog.Store, action: string, input: Catalog.ProductInput, io: Catalog.WriteOutcome)
    returns (state: PageState)
    modifies store
    ensures state.errors == [] <==> state.successMessage != ""
    ensures state.errors == [] ==> state == PageState([], "Product created successfully.", "list")
    ensures state.errors != [] ==> state.action == action
    ensures Catalog.CreateErrors(input) != [] ==> store.file == old(store.file) && state.errors != []
    ensures Catalog.CreateErrors(input) != [] ==>
              state.errors == Messages(Catalog.AsCatalogErrors(Catalog.CreateErrors(input)))
    ensures Catalog.CreateErrors(input) == [] ==>
              var written := Catalog.Created(old(store.file), input);
              && store.file == Catalog.AfterSave(old(store.file), written, io)
              && (state.errors == [] <==> Catalog.SaveOutcome(written, io).Saved?)
              && (Catalog.SaveOutcome(written, io).NotSaved? ==>
                    state.errors == Messages(Catalog.SaveOutcome(written, io).errors))
  {
    var result := store.CreateProduct(input, io);
    if result.Saved? {
      state := PageState([], "Product created successfully.", "list");
    } else {
      state := PageState(Messages(result.errors), "", action);
    }
  }

  /** The `update` action: on success the list view with a message, otherwise the edit view with the errors. */
  method Update(store: Catalog.Store, productId: int, input: Catalog.ProductInput, io: Catalog.WriteOutcome)
    returns (state: PageState)
    modifies store
    ensures state.errors == [] <==> state.successMessage != ""
    ensures state.errors == [] ==> state == PageState([], "Product updated successfully.", "list")
    ensures state.errors != [] ==> state.action == "edit"
    ensures Catalog.UpdateErrors(input) != [] || old(store.file).None?
            || Catalog.FirstIndex(old(store.file).value, productId) < 0 ==>
              store.file == old(store.file) && state.errors != []
    ensures Catalog.UpdateErrors(input) != [] ==>
              state.errors == Messages(Catalog.AsCatalogErrors(Catalog.UpdateErrors(input)))
    ensures Catalog.UpdateErrors(input) == [] && old(store.file).None? ==>
              state.errors == Messages([Catalog.LoadFailed])
    ensures Catalog.UpdateErrors(input) == [] && old(store.file).Some?
            && Catalog.FirstIndex(old(store.file).value, productId) < 0 ==>
              state.errors == Messages([Catalog.ProductNotFound])
    ensures Catalog.UpdateErrors(input) == [] && old(store.file).Some?
            && Catalog.FirstIndex(old(store.file).value, productId) >= 0 ==>
              var written := Catalog.UpdateFirst(old(store.file).value, productId, Sanitize(input.name),
                                                 Sanitize(input.description), input.price,
                                                 Catalog.WithLeadingSlash(Sanitize(Catalog.ImageInput(input))));
              && store.file == Catalog.AfterSave(old(store.file), written, io)
              && (state.errors == [] <==> Catalog.SaveOutcome(written, io).Saved?)
              && (Catalog.SaveOutcome(written, io).NotSaved? ==>
                    state.errors == Messages(Catalog.SaveOutcome(written, io).errors))
  {
    var result := store.UpdateProduct(productId, input, io);
    if result.Saved? {
      state := PageState([], "Product updated successfully.", "list");
    } else {
      state := PageState(Messages(result.errors), "", "edit");
    }
  }

  /** The `delete` action: back to the list either way, with a message or an error. */
  method Delete(store: Catalog.Store, productId: int, io: Catalog.WriteOutcome) returns (state: PageState)
    modifies store
    ensures state == PageState([], "Product deleted.", "list") || state == PageState(["Unable to delete product."], "", "list")
    ensures old(store.file).None? || Catalog.FirstIndex(old(store.file).value, productId) < 0 ==>
              store.file == old(store.file) && state.errors != []
    ensures old(store.file).Some? && Catalog.FirstIndex(old(store.file).value, productId) >= 0 ==>
              var written := Catalog.RemoveAll(old(store.file).value, productId);
              && store.file == Catalog.AfterSave(old(store.file), written, io)
              && (state.errors == [] <==> Catalog.SaveOutcome(written, io).Saved?)
  {
    var deleted := store.DeleteProduct(productId, io);
    if deleted {
      state := PageState([], "Product deleted.", "list");
    } else {
      state := PageState(["Unable to delete product."], "", "list");
    }
  }
}
