/**
 * The product catalogue of includes/functions.php: an ordered sequence of product
 * records kept in one JSON file that every write replaces as a whole.
 * Prices are whole cents.
 */
module Catalog {
  import opened Php

  datatype Product = Product(id: int, name: string, description: string, price: int, imagePath: string)

  /** The record get_product() and get_products() hand out: the stored one plus an image URL. */
  datatype ProductView = ProductView(id: int, name: string, description: string, price: int,
                                     imageUrl: string, imagePath: string)

  /** The fields create_product() and update_product() read from the submitted form. */
  datatype ProductInput = ProductInput(name: string, price: int, description: string,
                                       image: Option<string>, imagePath: Option<string>)

  /** How the JSON write ended (save_products_json, after the schema check passed). */
  datatype WriteOutcome =
    | EncodeFailed(reason: string)
    | WriteFailed
    | ReadBackFailed
    | ParseBackFailed(reason: string)
    | Written

  /** The field checks of create_product() and update_product(). */
  datatype FieldError = NameRequired | PriceNotPositive | DescriptionRequired | ImageRequired
  {
    function Message(): string
    {
      match this
      case NameRequired => "Product name is required."
      case PriceNotPositive => "Price must be greater than zero."
      case DescriptionRequired => "Product description is required."
      case ImageRequired => "Image path is required."
    }
  }

  /** Every way a catalogue write can be refused, with the message the source reports. */
  datatype CatalogError =
    | Invalid(field: FieldError)
    | Schema(bad: Field, index: nat)
    | Encode(reason: string)
    | Write
    | ReadBack
    | ParseBack(reason: string)
    | LoadFailed
    | ProductNotFound
  {
    function Message(): string
    {
      match this
      case Invalid(f) => f.Message()
      case Schema(f, index) => SchemaMessage(f, index)
      case Encode(reason) => "Failed to encode JSON: " + reason
      case Write => "Failed to write JSON file. Please check file permissions."
      case ReadBack => "Failed to verify written JSON file."
      case ParseBack(reason) => "Written JSON is invalid: " + reason
      case LoadFailed => "Failed to load products."
      case ProductNotFound => "Product not found."
    }
  }

  datatype SaveResult = Saved | NotSaved(errors: seq<CatalogError>)

  const DefaultImage := "/assets/images/logo.png"

  function View(p: Product): (v: ProductView)
    ensures v.id == p.id && v.name == p.name && v.description == p.description && v.price == p.price
    ensures v.imagePath == p.imagePath
    ensures v.imageUrl == "" || v.imageUrl[0] != '/'
  {
    ProductView(p.id, p.name, p.description, p.price, LTrimChar(p.imagePath, '/'), p.imagePath)
  }

  // ---------------------------------------------------------------- lookup

  /** The index of the first product with this id, or -1. */
  function FirstIndex(products: seq<Product>, id: int): (k: int)
    ensures -1 <= k < |products|
    ensures k >= 0 ==> products[k].id == id
    ensures forall j :: 0 <= j < |products| && (k < 0 || j < k) ==> products[j].id != id
  {
    if products == [] then -1
    else if products[0].id == id then 0
    else
      var k := FirstIndex(products[1..], id);
      if k < 0 then -1 else k + 1
  }

  /** get_product($id) over a loaded catalogue: the first product with that id. */
  function Lookup(products: seq<Product>, id: int): (r: Option<ProductView>)
    ensures r.Some? <==> exists i :: 0 <= i < |products| && products[i].id == id
    ensures r.Some? ==> r.value.id == id && r.value == View(products[FirstIndex(products, id)])
  {
    var k := FirstIndex(products, id);
    if k < 0 then None else Some(View(products[k]))
  }

  // ---------------------------------------------------------------- schema check

  datatype Field = IdField | NameField | DescriptionField | PriceField | ImageField

  /** The first field of a record that the schema check in save_products_json() refuses. */
  function BadField(p: Product): (r: Option<Field>)
    ensures r == None <==>
      p.id > 0 && !Blank(p.name) && !Blank(p.description) && p.price > 0 && !Blank(p.imagePath)
  {
    if p.id <= 0 then Some(IdField)
    else if Blank(p.name) then Some(NameField)
    else if Blank(p.description) then Some(DescriptionField)
    else if p.price <= 0 then Some(PriceField)
    else if Blank(p.imagePath) then Some(ImageField)
    else None
  }

  predicate WellFormed(p: Product)
  {
    BadField(p).None?
  }

  function SchemaMessage(f: Field, index: nat): string
  {
    var at := " at index " + NatToString(index);
    match f
    case IdField => "Invalid product ID" + at
    case NameField => "Product name is required" + at
    case DescriptionField => "Product description is required" + at
    case PriceField => "Product price must be greater than zero" + at
    case ImageField => "Product image path is required" + at
  }

  /** The index of the first record that fails the schema check, or -1. */
  function FirstBad(products: seq<Product>): (k: int)
    ensures -1 <= k < |products|
    ensures k >= 0 ==> !WellFormed(products[k])
    ensures forall j :: 0 <= j < |products| && (k < 0 || j < k) ==> WellFormed(products[j])
  {
    if products == [] then -1
    else if !WellFormed(products[0]) then 0
    else
      var k := FirstBad(products[1..]);
      if k < 0 then -1 else k + 1
  }

  /** The error save_products_json() reports for the first malformed record, if any. */
  function SchemaError(products: seq<Product>): (r: Option<CatalogError>)
    ensures r.None? <==> forall i :: 0 <= i < |products| ==> WellFormed(products[i])
    ensures r.Some? ==>
              && r.value.Schema? && 0 <= r.value.index < |products|
              && BadField(products[r.value.index]) == Some(r.value.bad)
              && forall j :: 0 <= j < r.value.index ==> WellFormed(products[j])
  {
    var k := FirstBad(products);
    if k < 0 then None else Some(Schema(BadField(products[k]).value, k))
  }

  /** The validation loop of save_products_json(): it stops at the first malformed record. */
  method CheckSchema(products: seq<Product>) returns (error: Option<CatalogError>)
    ensures error == SchemaError(products)
  {
    var i := 0;
    while i < |products|
      invariant 0 <= i <= |products|
      invariant forall j :: 0 <= j < i ==> WellFormed(products[j])
    {
      var bad := BadField(products[i]);
      if bad.Some? {
        assert FirstBad(products) == i;
        return Some(Schema(bad.value, i));
      }
      i := i + 1;
    }
    error := None;
  }

  /** The errors save_products_json() returns; empty when the write went through. */
  function SaveErrors(products: seq<Product>, io: WriteOutcome): (r: seq<CatalogError>)
    ensures |r| <= 1
    ensures r == [] <==> SchemaError(products).None? && io.Written?
  {
    match SchemaError(products)
    case Some(e) => [e]
    case None =>
      match io
      case EncodeFailed(reason) => [Encode(reason)]
      case WriteFailed => [Write]
      case ReadBackFailed => [ReadBack]
      case ParseBackFailed(reason) => [ParseBack(reason)]
      case Written => []
  }

  /**
   * Whether the file holds the new sequence afterwards. A failed write or an unparsable
   * re-read restores the backup; a failed re-read leaves the new contents in place.
   */
  predicate Persisted(products: seq<Product>, io: WriteOutcome)
  {
    SchemaError(products).None? && (io.Written? || io.ReadBackFailed?)
  }

  /** What save_products_json() answers: success exactly when the schema holds and the write went through. */
  function SaveOutcome(products: seq<Product>, io: WriteOutcome): (r: SaveResult)
    ensures r.Saved? <==> SchemaError(products).None? && io.Written?
    ensures r.NotSaved? ==> |r.errors| == 1
  {
    if SaveErrors(products, io) == [] then Saved else NotSaved(SaveErrors(products, io))
  }

  /** The file after save_products_json(): the new sequence when it persisted, the old contents otherwise. */
  function AfterSave(file: Option<seq<Product>>, products: seq<Product>, io: WriteOutcome): (r: Option<seq<Product>>)
    ensures r == Some(products) || r == file
    ensures SaveOutcome(products, io).Saved? ==> r == Some(products)
  {
    if Persisted(products, io) then Some(products) else file
  }

  // ---------------------------------------------------------------- ids and validation

  /** The largest id in the catalogue, or 0 when there is none larger. */
  function MaxId(products: seq<Product>): (m: int)
    ensures m >= 0
    ensures forall i :: 0 <= i < |products| ==> products[i].id <= m
    ensures m == 0 || exists i :: 0 <= i < |products| && products[i].id == m
  {
    if products == [] then 0
    else
      var rest := MaxId(products[..|products| - 1]);
      var last := products[|products| - 1].id;
      assert forall i :: 0 <= i < |products| - 1 ==> products[i] == products[..|products| - 1][i];
      if last > rest then last else rest
  }

  /** The id loop of create_product(): one more than the largest id, 1 for an empty catalogue. */
  method NextId(products: seq<Product>) returns (id: int)
    ensures id >= 1
    ensures forall i :: 0 <= i < |products| ==> products[i].id < id
    ensures id == 1 || exists i :: 0 <= i < |products| && products[i].id == id - 1
  {
    var maxId := 0;
    for i := 0 to |products|
      invariant maxId >= 0
      invariant forall j :: 0 <= j < i ==> products[j].id <= maxId
      invariant maxId == 0 || exists j :: 0 <= j < i && products[j].id == maxId
    {
      if products[i].id > maxId {
        maxId := products[i].id;
      }
    }
    id := maxId + 1;
  }

  /** The image field of the form: `image`, else `image_path`, else the logo. */
  function ImageInput(data: ProductInput): string
  {
    if data.image.Some? then data.image.value
    else if data.imagePath.Some? then data.imagePath.value
    else DefaultImage
  }

  function WithLeadingSlash(path: string): (r: string)
    ensures |r| > 0 && r[0] == '/'
    ensures StartsWith(path, "/") ==> r == path
  {
    if |path| > 0 && path[0] == '/' then path else "/" + path
  }

  /** `empty(sanitize($value))` as one field check: the error exactly when the value is blank. */
  function Required(value: string, error: FieldError): (r: seq<FieldError>)
    ensures r == [error] <==> Blank(value)
    ensures r == [] <==> !Blank(value)
  {
    if Sanitize(value) == "" then [error] else []
  }

  /** The field checks of create_product(), every failing one reported, in this order. */
  function CreateErrors(data: ProductInput): (errors: seq<FieldError>)
    ensures |errors| <= 4
  {
    UpdateErrors(data) + Required(ImageInput(data), ImageRequired)
  }

  function UpdateErrors(data: ProductInput): (errors: seq<FieldError>)
    ensures ImageRequired !in errors && |errors| <= 3
  {
    Required(data.name, NameRequired)
    + (if data.price <= 0 then [PriceNotPositive] else [])
    + Required(data.description, DescriptionRequired)
  }

  /** update_product() reports each field's error exactly when that field fails its check. */
  lemma UpdateErrorsReportEachField(data: ProductInput)
    ensures var errors := UpdateErrors(data);
      && ((NameRequired in errors) <==> Blank(data.name))
      && ((PriceNotPositive in errors) <==> data.price <= 0)
      && ((DescriptionRequired in errors) <==> Blank(data.description))
  {
    var name := Required(data.name, NameRequired);
    var price: seq<FieldError> := if data.price <= 0 then [PriceNotPositive] else [];
    var description := Required(data.description, DescriptionRequired);
    assert UpdateErrors(data) == name + price + description;
  }

  /** create_product() adds the image check to update_product()'s three. */
  lemma CreateErrorsReportEachField(data: ProductInput)
    ensures var errors := CreateErrors(data);
      && ((NameRequired in errors) <==> Blank(data.name))
      && ((PriceNotPositive in errors) <==> data.price <= 0)
      && ((DescriptionRequired in errors) <==> Blank(data.description))
      && ((ImageRequired in errors) <==> Blank(ImageInput(data)))
  {
    UpdateErrorsReportEachField(data);
    assert CreateErrors(data) == UpdateErrors(data) + Required(ImageInput(data), ImageRequired);
  }

  function AsCatalogErrors(errors: seq<FieldError>): (r: seq<CatalogError>)
    ensures |r| == |errors| && forall i :: 0 <= i < |r| ==> r[i] == Invalid(errors[i])
  {
    seq(|errors|, i requires 0 <= i < |errors| => Invalid(errors[i]))
  }

  /** The record create_product() appends to a catalogue. */
  function NewProduct(products: seq<Product>, data: ProductInput): Product
  {
    Product(MaxId(products) + 1, Sanitize(data.name), Sanitize(data.description), data.price,
            WithLeadingSlash(Sanitize(ImageInput(data))))
  }

  /** What create_product() asks save_products_json() to write. */
  function Created(file: Option<seq<Product>>, data: ProductInput): (r: seq<Product>)
    ensures var ps := if file.Some? then file.value else [];
      |r| == |ps| + 1 && r[..|ps|] == ps && r[|ps|] == NewProduct(ps, data)
  {
    var ps := if file.Some? then file.value else [];
    ps + [NewProduct(ps, data)]
  }

  // ---------------------------------------------------------------- update and delete

  /** update_product()'s rewrite: only the first record with the id gets the new fields. */
  function UpdateFirst(products: seq<Product>, id: int, name: string, description: string,
                       price: int, imagePath: string): (r: seq<Product>)
    ensures |r| == |products|
    ensures var k := FirstIndex(products, id);
      (k < 0 ==> r == products)
      && (k >= 0 ==>
            r[k] == Product(id, name, description, price, imagePath)
            && forall j :: 0 <= j < |products| && j != k ==> r[j] == products[j])
  {
    var k := FirstIndex(products, id);
    if k < 0 then products
    else products[k := Product(id, name, description, price, imagePath)]
  }

  /** The foreach-by-reference loop of update_product(), stopping at the first match. */
  method ReplaceFirst(products: seq<Product>, id: int, name: string, description: string,
                      price: int, imagePath: string) returns (r: seq<Product>, found: bool)
    ensures found <==> exists i :: 0 <= i < |products| && products[i].id == id
    ensures r == UpdateFirst(products, id, name, description, price, imagePath)
  {
    r := products;
    found := false;
    var i := 0;
    while i < |r|
      invariant 0 <= i <= |r|
      invariant r == products
      invariant forall j :: 0 <= j < i ==> products[j].id != id
    {
      if r[i].id == id {
        r := r[i := Product(id, name, description, price, imagePath)];
        found := true;
        assert FirstIndex(products, id) == i;
        return;
      }
      i := i + 1;
    }
  }

  /** delete_product()'s rewrite: every record with the id dropped, the rest in order. */
  function RemoveAll(products: seq<Product>, id: int): (r: seq<Product>)
    ensures |r| <= |products|
    ensures forall i :: 0 <= i < |r| ==> r[i].id != id
  {
    if products == [] then []
    else
      var init := products[..|products| - 1];
      var last := products[|products| - 1];
      RemoveAll(init, id) + (if last.id == id then [] else [last])
  }

  /** The delete keeps every product with another id and adds none. */
  lemma {:induction false} RemoveAllKeepsOthers(products: seq<Product>, id: int)
    ensures forall p :: p in products && p.id != id ==> p in RemoveAll(products, id)
    ensures forall p :: p in RemoveAll(products, id) ==> p in products
  {
    if products != [] {
      var init := products[..|products| - 1];
      var last := products[|products| - 1];
      RemoveAllKeepsOthers(init, id);
      assert products == init + [last];
    }
  }

  lemma {:induction false} RemoveAllShrinks(products: seq<Product>, id: int)
    ensures |RemoveAll(products, id)| < |products| <==> exists i :: 0 <= i < |products| && products[i].id == id
  {
    if products != [] {
      var init := products[..|products| - 1];
      RemoveAllShrinks(init, id);
      if exists i :: 0 <= i < |init| && init[i].id == id {
        var i :| 0 <= i < |init| && init[i].id == id;
        assert products[i].id == id;
      }
      if i :| 0 <= i < |products| && products[i].id == id {
        if i < |init| {
          assert init[i].id == id;
        }
      }
    }
  }

  /** The foreach loop of delete_product() that copies every record except the deleted id. */
  method WithoutId(products: seq<Product>, id: int) returns (r: seq<Product>, found: bool)
    ensures found <==> exists i :: 0 <= i < |products| && products[i].id == id
    ensures r == RemoveAll(products, id)
  {
    r := [];
    found := false;
    for i := 0 to |products|
      invariant r == RemoveAll(products[..i], id)
      invariant found <==> exists j :: 0 <= j < i && products[j].id == id
    {
      assert products[..i + 1][..i] == products[..i];
      if products[i].id == id {
        found := true;
      } else {
        r := r + [products[i]];
      }
    }
    assert products[..|products|] == products;
  }

  // ---------------------------------------------------------------- listing

  /** The search test of get_products(): a falsy search matches everything. */
  predicate Matches(name: string, description: string, search: Option<string>)
  {
    Falsy(search)
    || Contains(Lower(name), Lower(search.value))
    || Contains(Lower(description), Lower(search.value))
  }

  /** The products that pass the search, as views, in catalogue order. */
  function Matching(products: seq<Product>, search: Option<string>): (r: seq<ProductView>)
    ensures |r| <= |products|
    ensures forall i :: 0 <= i < |r| ==> Matches(r[i].name, r[i].description, search)
  {
    if products == [] then []
    else
      var last := products[|products| - 1];
      Matching(products[..|products| - 1], search)
      + (if Matches(last.name, last.description, search) then [View(last)] else [])
  }

  /** get_products($limit, $search) over a loaded catalogue: filter first, then cut to a positive limit. */
  function Listing(products: seq<Product>, limit: Option<int>, search: Option<string>): (r: seq<ProductView>)
    ensures var m := Matching(products, search);
      (limit.Some? && limit.value > 0 ==> |r| == Min(limit.value, |m|) && r == m[..|r|])
      && (!(limit.Some? && limit.value > 0) ==> r == m)
  {
    var m := Matching(products, search);
    if limit.Some? && limit.value > 0 then m[..Min(limit.value, |m|)] else m
  }

  function Min(a: int, b: int): int
  {
    if a < b then a else b
  }

  lemma {:induction false} UnfilteredIsEverything(products: seq<Product>, search: Option<string>)
    requires Falsy(search)
    ensures |Matching(products, search)| == |products|
    ensures forall i :: 0 <= i < |products| ==> Matching(products, search)[i] == View(products[i])
  {
    if products != [] {
      var init := products[..|products| - 1];
      var last := products[|products| - 1];
      UnfilteredIsEverything(init, search);
      assert Matches(last.name, last.description, search);
      assert Matching(products, search) == Matching(init, search) + [View(last)];
    }
  }

  /** The filter keeps catalogue order: splitting the catalogue splits the matches the same way. */
  lemma {:induction false} MatchingSplits(front: seq<Product>, back: seq<Product>, search: Option<string>)
    ensures Matching(front + back, search) == Matching(front, search) + Matching(back, search)
  {
    if back == [] {
      assert front + back == front;
    } else {
      var n := |back| - 1;
      DropLastOfAppend(front, back);
      MatchingSplits(front, back[..n], search);
    }
  }

  /** The filter drops no match: every product that matches the search is listed. */
  lemma MatchingIsComplete(products: seq<Product>, search: Option<string>, i: nat)
    requires i < |products| && Matches(products[i].name, products[i].description, search)
    ensures View(products[i]) in Matching(products, search)
  {
    var p := products[i];
    SplitAround(products, i);
    MatchingSplits(products[..i] + [p], products[i + 1..], search);
    MatchingSplits(products[..i], [p], search);
    assert Matching([p], search) == [View(p)];
  }

  /** The foreach loop of get_products() followed by array_slice. */
  method ListProducts(products: seq<Product>, limit: Option<int>, search: Option<string>)
    returns (r: seq<ProductView>)
    ensures r == Listing(products, limit, search)
  {
    r := [];
    for i := 0 to |products|
      invariant r == Matching(products[..i], search)
    {
      assert products[..i + 1][..i] == products[..i];
      var p := products[i];
      if Matches(p.name, p.description, search) {
        r := r + [View(p)];
      }
    }
    assert products[..|products|] == products;
    if limit.Some? && limit.value > 0 {
      r := r[..Min(limit.value, |r|)];
    }
  }

  // ---------------------------------------------------------------- properties of writes

  lemma EscapeKeepsFirst(s: string)
    requires s != [] && !IsTrimChar(s[0])
    ensures EscapeHtml(s) != [] && !IsTrimChar(EscapeHtml(s)[0])
  {
  }

  lemma {:induction false} EscapeKeepsLast(s: string)
    requires s != [] && !IsTrimChar(s[|s| - 1])
    ensures EscapeHtml(s) != [] && !IsTrimChar(EscapeHtml(s)[|EscapeHtml(s)| - 1])
  {
    if |s| > 1 {
      EscapeKeepsLast(s[1..]);
    }
  }

  /** A sanitized non-blank field stays non-blank under the schema check's own trim(). */
  lemma SanitizedNotBlank(s: string)
    requires !Blank(s)
    ensures !Blank(Sanitize(s))
  {
    var t := Trim(s);
    EscapeKeepsFirst(t);
    EscapeKeepsLast(t);
    TrimmedIsFixed(EscapeHtml(t));
  }

  /** A non-blank sanitized image path keeps its first and last character after the slash is added. */
  lemma SlashedNotBlank(s: string)
    requires !Blank(s)
    ensures !Blank(WithLeadingSlash(Sanitize(s)))
  {
    var t := Trim(s);
    EscapeKeepsFirst(t);
    EscapeKeepsLast(t);
    var e := WithLeadingSlash(EscapeHtml(t));
    assert e[|e| - 1] == EscapeHtml(t)[|EscapeHtml(t)| - 1];
    TrimmedIsFixed(e);
  }

  /** A record that create_product() accepts passes the schema check of save_products_json(). */
  lemma CreatedIsWellFormed(products: seq<Product>, data: ProductInput)
    requires CreateErrors(data) == []
    ensures WellFormed(NewProduct(products, data))
  {
    assert Required(data.name, NameRequired) == [];
    assert Required(data.description, DescriptionRequired) == [];
    assert Required(ImageInput(data), ImageRequired) == [];
    SanitizedNotBlank(data.name);
    SanitizedNotBlank(data.description);
    SlashedNotBlank(ImageInput(data));
  }

  /** After create_product() the new id is fresh, so get_product() finds exactly the new record. */
  lemma CreatedIsFound(file: Option<seq<Product>>, data: ProductInput)
    ensures var r := Created(file, data);
      Lookup(r, r[|r| - 1].id) == Some(View(r[|r| - 1]))
  {
    var r := Created(file, data);
    var ps := if file.Some? then file.value else [];
    assert forall i :: 0 <= i < |ps| ==> r[i] == ps[i];
    assert FirstIndex(r, r[|r| - 1].id) == |r| - 1;
  }

  /** With no search and no limit, listing the catalogue after a create shows the old list plus the new record. */
  lemma ListingAfterCreate(file: Option<seq<Product>>, data: ProductInput)
    ensures var ps := if file.Some? then file.value else [];
      Listing(Created(file, data), None, None) == Listing(ps, None, None) + [View(NewProduct(ps, data))]
  {
    var ps := if file.Some? then file.value else [];
    var r := Created(file, data);
    var p := NewProduct(ps, data);
    assert r == ps + [p];
    assert r[..|r| - 1] == ps;
    assert Matches(p.name, p.description, None);
    assert Matching(r, None) == Matching(ps, None) + [View(p)];
  }

  // ---------------------------------------------------------------- the store

  /**
   * The products.json file. `file` is None while the file is missing or does not
   * parse; load_products_json() then returns null.
   */
  class Store {
    var file: Option<seq<Product>>

    constructor (contents: Option<seq<Product>>)
      ensures file == contents
    {
      file := contents;
    }

    /** get_product($id). */
    function Get(id: int): (r: Option<ProductView>)
      reads this
      ensures r.Some? ==> r.value.id == id
      ensures r.Some? <==> file.Some? && exists i :: 0 <= i < |file.value| && file.value[i].id == id
    {
      if file.None? then None else Lookup(file.value, id)
    }

    /** save_products_json(): schema check, then the whole sequence is written or the old file stays. */
    method Save(products: seq<Product>, io: WriteOutcome) returns (r: SaveResult)
      modifies this
      ensures r == SaveOutcome(products, io) && file == AfterSave(old(file), products, io)
    {
      var schema := CheckSchema(products);
      if schema.Some? {
        return NotSaved([schema.value]);
      }
      match io {
        case EncodeFailed(reason) =>
          r := NotSaved([Encode(reason)]);
        case WriteFailed =>
          r := NotSaved([Write]);
        case ReadBackFailed =>
          file := Some(products);
          r := NotSaved([ReadBack]);
        case ParseBackFailed(reason) =>
          r := NotSaved([ParseBack(reason)]);
        case Written =>
          file := Some(products);
          r := Saved;
      }
    }

    /** create_product(): validate every field, then append a record with a fresh id and save. */
    method CreateProduct(data: ProductInput, io: WriteOutcome) returns (r: SaveResult)
      modifies this
      ensures CreateErrors(data) != [] ==> r == NotSaved(AsCatalogErrors(CreateErrors(data))) && file == old(file)
      ensures CreateErrors(data) == [] ==>
        var written := Created(old(file), data);
        r == SaveOutcome(written, io) && file == AfterSave(old(file), written, io)
    {
      var errors := CreateErrors(data);
      if errors != [] {
        return NotSaved(AsCatalogErrors(errors));
      }
      var products := if file.Some? then file.value else [];
      var product := NewRecord(products, data);
      products := products + [product];
      assert products == Created(old(file), data);
      r := Save(products, io);
    }

    /** The record create_product() appends: the next id and the sanitized fields. */
    static method NewRecord(products: seq<Product>, data: ProductInput) returns (product: Product)
      ensures product == NewProduct(products, data)
    {
      var newId := NextId(products);
      var imagePath := WithLeadingSlash(Sanitize(ImageInput(data)));
      product := Product(newId, Sanitize(data.name), Sanitize(data.description), data.price, imagePath);
    }

    /** update_product(): validate, then rewrite the first record with the id and save. */
    method UpdateProduct(id: int, data: ProductInput, io: WriteOutcome) returns (r: SaveResult)
      modifies this
      ensures UpdateErrors(data) != [] ==> r == NotSaved(AsCatalogErrors(UpdateErrors(data))) && file == old(file)
      ensures UpdateErrors(data) == [] && old(file).None? ==>
        r == NotSaved([LoadFailed]) && file == old(file)
      ensures UpdateErrors(data) == [] && old(file).Some? && FirstIndex(old(file).value, id) < 0 ==>
        r == NotSaved([ProductNotFound]) && file == old(file)
      ensures UpdateErrors(data) == [] && old(file).Some? && FirstIndex(old(file).value, id) >= 0 ==>
        var written := UpdateFirst(old(file).value, id, Sanitize(data.name), Sanitize(data.description),
                                   data.price, WithLeadingSlash(Sanitize(ImageInput(data))));
        r == SaveOutcome(written, io) && file == AfterSave(old(file), written, io)
    {
      var errors := UpdateErrors(data);
      if errors != [] {
        return NotSaved(AsCatalogErrors(errors));
      }
      if file.None? {
        return NotSaved([LoadFailed]);
      }
      var products, found := ReplaceFirst(file.value, id, Sanitize(data.name), Sanitize(data.description),
                                          data.price, WithLeadingSlash(Sanitize(ImageInput(data))));
      if !found {
        return NotSaved([ProductNotFound]);
      }
      r := Save(products, io);
    }

    /** delete_product(): drop every record with the id; false when none exists or the save fails. */
    method DeleteProduct(id: int, io: WriteOutcome) returns (deleted: bool)
      modifies this
      ensures old(file).None? ==> !deleted && file == old(file)
      ensures old(file).Some? && FirstIndex(old(file).value, id) < 0 ==> !deleted && file == old(file)
      ensures old(file).Some? && FirstIndex(old(file).value, id) >= 0 ==>
        var written := RemoveAll(old(file).value, id);
        deleted == SaveOutcome(written, io).Saved? && file == AfterSave(old(file), written, io)
    {
      if file.None? {
        return false;
      }
      var products, found := WithoutId(file.value, id);
      if !found {
        return false;
      }
      var result := Save(products, io);
      deleted := result.Saved?;
    }

    /** get_products($limit, $search): nothing when the file cannot be loaded. */
    method GetProducts(limit: Option<int>, search: Option<string>) returns (r: seq<ProductView>)
      ensures r == if file.None? then [] else Listing(file.value, limit, search)
    {
      if file.None? {
        return [];
      }
      r := ListProducts(file.value, limit, search);
    }
  }
}
