/**
 * The create-listing form: six text fields, a list of picked images, per-field
 * errors shown while typing, a whole-form check before submitting, and the
 * listing and image documents a submission creates.
 */
module ListingForm {
  import opened Wrappers
  import opened Text
  import opened Numbers
  import opened Documents

  /** The fields that carry an error message. */
  datatype Field = Title | Description | Price | Category

  /** A picked image (`result.assets[0]`). */
  datatype Asset = Asset(uri: string)

  /** The listing document. */
  datatype ListingDoc = ListingDoc(title: string, description: string, price: Decimal, category: string,
                                   condition: string, location: string, userId: string, createdAt: string,
                                   status: string)

  /** An image document: which listing, which stored file, and its position. */
  datatype ImageRecord = ImageRecord(listingId: string, fileId: string, order: nat)

  const TitleRequired := "Title is required."
  const DescriptionRequired := "Description cannot be empty."
  const InvalidPrice := "Enter a valid price."
  const PriceNotNumber := "Price must be a number."
  const PriceNegative := "Price cannot be negative."
  const CategoryRequired := "Category is required."

  /** The error a required text field shows while typing. */
  function RequiredError(text: string, message: string): (r: Option<string>)
    ensures r.Some? ==> r.value == message
  {
    if Trim(text) == "" then Some(message) else None
  }

  /** A required field shows its error exactly when its text is blank (whitespace only). */
  lemma RequiredErrorIffBlank(text: string, message: string)
    ensures RequiredError(text, message).None? <==> !AllWhitespace(text)
  {
    TrimBlank(text);
  }

  /** The price field's error while typing: blank, then not a number, then negative. */
  function LivePriceError(text: string): (r: Option<string>)
    ensures r.None? || r.value in {InvalidPrice, PriceNotNumber, PriceNegative}
  {
    if Trim(text) == "" then Some(InvalidPrice)
    else if ParseFloat(text).None? then Some(PriceNotNumber)
    else if ParseFloat(text).value.IsNegative() then Some(PriceNegative)
    else None
  }

  /** Which price error shows, in terms of the text and of what `parseFloat` reads from it. */
  lemma LivePriceErrorCases(text: string)
    ensures LivePriceError(text) == Some(InvalidPrice) <==> AllWhitespace(text)
    ensures LivePriceError(text) == Some(PriceNotNumber) <==> !AllWhitespace(text) && ParseFloat(text).None?
    ensures LivePriceError(text) == Some(PriceNegative) <==> ParseFloat(text).Some? && ParseFloat(text).value.IsNegative()
    ensures LivePriceError(text).None? <==> ParseFloat(text).Some? && !ParseFloat(text).value.IsNegative()
  {
    TrimBlank(text);
    if Trim(text) == "" {
      ParseFloatBlank(text);
    }
  }

  /** What `validateForm` accepts as a price: present, a number, and not below zero. */
  function ValidPrice(price: string): (r: bool)
    ensures r <==> LivePriceError(price).None?
  {
    LivePriceErrorCases(price);
    price != "" && ParseFloat(price).Some? && !ParseFloat(price).value.IsNegative()
  }

  /** The errors object `validateForm` builds: one entry per failing field, none for the others. */
  function FormErrors(title: string, description: string, price: string, category: string): (r: map<Field, Option<string>>)
    ensures forall f :: f in r ==> r[f].Some? && r[f].value != ""
  {
    var m1: map<Field, Option<string>> := if Trim(title) == "" then map[Title := Some(TitleRequired)] else map[];
    var m2 := if Trim(description) == "" then m1[Description := Some(DescriptionRequired)] else m1;
    var m3 := if !ValidPrice(price) then m2[Price := Some(InvalidPrice)] else m2;
    if Trim(category) == "" then m3[Category := Some(CategoryRequired)] else m3
  }

  /**
   * The form passes exactly when no field would show an error while typing:
   * the whole-form check and the per-field checks agree on every field, and a
   * field the form check flags shows the same message the live check does,
   * except the price, always flagged as 'Enter a valid price.'.
   */
  lemma FormErrorsAgreeWithLiveErrors(title: string, description: string, price: string, category: string)
    ensures var errors := FormErrors(title, description, price, category);
      && (Title in errors <==> RequiredError(title, TitleRequired).Some?)
      && (Description in errors <==> RequiredError(description, DescriptionRequired).Some?)
      && (Price in errors <==> LivePriceError(price).Some?)
      && (Category in errors <==> RequiredError(category, CategoryRequired).Some?)
      && (forall f :: f in errors && f != Price ==> errors[f] == RequiredError(
            if f == Title then title else if f == Description then description else category,
            if f == Title then TitleRequired else if f == Description then DescriptionRequired else CategoryRequired))
      && (Price in errors ==> errors[Price] == Some(InvalidPrice))
  {
    LivePriceErrorCases(price);
    if price == "" {
      assert Trim(price) == "";
    }
  }

  /** The form passes exactly when every live error is clear. */
  lemma FormValidIffNoLiveErrors(title: string, description: string, price: string, category: string)
    ensures FormErrors(title, description, price, category) == map[] <==>
      && RequiredError(title, TitleRequired).None?
      && RequiredError(description, DescriptionRequired).None?
      && LivePriceError(price).None?
      && RequiredError(category, CategoryRequired).None?
  {
    var errors := FormErrors(title, description, price, category);
    FormErrorsAgreeWithLiveErrors(title, description, price, category);
    if errors != map[] {
      var f :| f in errors;
    }
  }

  /** The position `splice` starts at: a negative index counts from the end of `n` items, clamped at 0. */
  function SpliceStart(n: nat, index: int): nat {
    if index < 0 then (if n + index < 0 then 0 else n + index) else index
  }

  /**
   * `array.splice(index, 1)` on a copy: an index past the end removes
   * nothing. Otherwise the element at the start position goes and the
   * others keep their order.
   */
  function SpliceOne<T>(s: seq<T>, index: int): (r: seq<T>)
    ensures SpliceStart(|s|, index) < |s| ==>
      && |r| == |s| - 1
      && multiset(r) + multiset{s[SpliceStart(|s|, index)]} == multiset(s)
      && (forall k :: 0 <= k < SpliceStart(|s|, index) ==> r[k] == s[k])
      && (forall k :: SpliceStart(|s|, index) <= k < |r| ==> r[k] == s[k + 1])
    ensures SpliceStart(|s|, index) >= |s| ==> r == s
  {
    var start := SpliceStart(|s|, index);
    if start < |s| then
      assert s == s[..start] + [s[start]] + s[start + 1..];
      s[..start] + s[start + 1..]
    else s
  }

  /** Removing the image at a valid index drops exactly that image and keeps the others in order. */
  lemma RemoveExactlyOne<T>(s: seq<T>, i: int)
    requires 0 <= i < |s|
    ensures |SpliceOne(s, i)| == |s| - 1
    ensures forall k :: 0 <= k < i ==> SpliceOne(s, i)[k] == s[k]
    ensures forall k :: i <= k < |s| - 1 ==> SpliceOne(s, i)[k] == s[k + 1]
    ensures multiset(SpliceOne(s, i)) + multiset{s[i]} == multiset(s)
  {
  }

  /**
   * The index rules of `splice`: `-j` is the `j`-th image from the end, an
   * index before the start removes the first image, and an index past the
   * end removes nothing.
   */
  lemma SpliceIndexRules<T>(s: seq<T>, i: int)
    ensures -|s| <= i < 0 ==> SpliceOne(s, i) == SpliceOne(s, |s| + i)
    ensures i < -|s| ==> SpliceOne(s, i) == SpliceOne(s, 0)
    ensures i >= |s| ==> SpliceOne(s, i) == s
    ensures |s| > 0 && i < 0 ==> |SpliceOne(s, i)| == |s| - 1
  {
  }

  /**
   * The image documents of a submission: `uploads[i]` is the file id stored
   * for image `i`, or None when its upload failed (a failure is caught and
   * skips that image only).
   */
  function ImageRecords(listingId: string, uploads: seq<Option<string>>): (r: seq<ImageRecord>)
    ensures |r| <= |uploads|
  {
    if uploads == [] then []
    else
      var last := uploads[|uploads| - 1];
      ImageRecords(listingId, uploads[..|uploads| - 1])
      + (if last.Some? then [ImageRecord(listingId, last.value, |uploads| - 1)] else [])
  }

  /**
   * Each image document records its image's index as `order`: one document per
   * successful upload, in index order, each for the listing and its image's file.
   */
  lemma {:induction false} ImageRecordsOrder(listingId: string, uploads: seq<Option<string>>)
    ensures var r := ImageRecords(listingId, uploads);
      && (forall k :: 0 <= k < |r| ==>
            r[k].listingId == listingId && r[k].order < |uploads| && uploads[r[k].order] == Some(r[k].fileId))
      && (forall k, l :: 0 <= k < l < |r| ==> r[k].order < r[l].order)
      && (forall i :: 0 <= i < |uploads| && uploads[i].Some? ==> exists k :: 0 <= k < |r| && r[k].order == i)
  {
    if uploads != [] {
      var init := uploads[..|uploads| - 1];
      ImageRecordsOrder(listingId, init);
      var r0 := ImageRecords(listingId, init);
      var r := ImageRecords(listingId, uploads);
      assert forall k :: 0 <= k < |r0| ==> r[k] == r0[k];
      forall i | 0 <= i < |uploads| && uploads[i].Some? ensures exists k :: 0 <= k < |r| && r[k].order == i {
        if i < |init| {
          assert init[i] == uploads[i];
          var k :| 0 <= k < |r0| && r0[k].order == i;
          assert r[k].order == i;
        } else {
          assert r[|r0|].order == i;
        }
      }
    }
  }

  /** The per-image outcomes for `count` images: a missing outcome counts as a failed upload. */
  function Outcomes(count: nat, uploads: seq<Option<string>>): (r: seq<Option<string>>)
    ensures |r| == count
    ensures forall i :: 0 <= i < count && i < |uploads| ==> r[i] == uploads[i]
  {
    seq(count, i requires 0 <= i < count => if i < |uploads| then uploads[i] else None)
  }

  /** What one press of the submit button asked the backend for and showed. */
  datatype Submission = Submission(listing: Option<ListingDoc>, images: seq<ImageRecord>, alert: Option<Alert>, navigated: bool)

  const SubmitFailed := Alert("Error", "Failed to create listing. Please try again.")
  const Created := Alert("Success", "Your listing has been created!")
  const PermissionDenied := Alert("Permission Denied", "We need camera roll permissions to upload images")
  const PickFailed := Alert("Error", "Failed to pick image")

  class ListingFormScreen {
    var title: string
    var description: string
    var price: string
    var category: string
    var condition: string
    var location: string
    var images: seq<Asset>
    var isSubmitting: bool
    var fieldErrors: map<Field, Option<string>>

    constructor ()
      ensures title == "" && description == "" && price == "" && category == ""
      ensures condition == "" && location == "" && images == [] && !isSubmitting && fieldErrors == map[]
    {
      title, description, price, category := "", "", "", "";
      condition, location := "", "";
      images := [];
      isSubmitting := false;
      fieldErrors := map[];
    }

    /** The message shown under a field, if any. */
    function ShownError(f: Field): Option<string>
      reads this
    {
      if f in fieldErrors then fieldErrors[f] else None
    }

    method OnChangeTitle(text: string)
      modifies this
      ensures title == text && fieldErrors == old(fieldErrors)[Title := RequiredError(text, TitleRequired)]
      ensures description == old(description) && price == old(price) && category == old(category)
      ensures condition == old(condition) && location == old(location) && images == old(images)
      ensures isSubmitting == old(isSubmitting)
    {
      title := text;
      fieldErrors := fieldErrors[Title := RequiredError(text, TitleRequired)];
    }

    method OnChangeDescription(text: string)
      modifies this
      ensures description == text && fieldErrors == old(fieldErrors)[Description := RequiredError(text, DescriptionRequired)]
      ensures title == old(title) && price == old(price) && category == old(category)
      ensures condition == old(condition) && location == old(location) && images == old(images)
      ensures isSubmitting == old(isSubmitting)
    {
      description := text;
      fieldErrors := fieldErrors[Description := RequiredError(text, DescriptionRequired)];
    }

    method OnChangePrice(text: string)
      modifies this
      ensures price == text && fieldErrors == old(fieldErrors)[Price := LivePriceError(text)]
      ensures title == old(title) && description == old(description) && category == old(category)
      ensures condition == old(condition) && location == old(location) && images == old(images)
      ensures isSubmitting == old(isSubmitting)
    {
      price := text;
      fieldErrors := fieldErrors[Price := LivePriceError(text)];
    }

    method OnChangeCategory(text: string)
      modifies this
      ensures category == text && fieldErrors == old(fieldErrors)[Category := RequiredError(text, CategoryRequired)]
      ensures title == old(title) && description == old(description) && price == old(price)
      ensures condition == old(condition) && location == old(location) && images == old(images)
      ensures isSubmitting == old(isSubmitting)
    {
      category := text;
      fieldErrors := fieldErrors[Category := RequiredError(text, CategoryRequired)];
    }

    /** `validateForm`: replaces the errors by those of the whole form and reports whether there are none. */
    method ValidateForm() returns (ok: bool)
      modifies this
      ensures fieldErrors == FormErrors(title, description, price, category)
      ensures ok <==> fieldErrors == map[]
      ensures title == old(title) && description == old(description) && price == old(price) && category == old(category)
      ensures condition == old(condition) && location == old(location) && images == old(images)
      ensures isSubmitting == old(isSubmitting)
    {
      var errors: map<Field, Option<string>> := map[];
      if Trim(title) == "" {
        errors := errors[Title := Some(TitleRequired)];
      }
      if Trim(description) == "" {
        errors := errors[Description := Some(DescriptionRequired)];
      }
      if !ValidPrice(price) {
        errors := errors[Price := Some(InvalidPrice)];
      }
      if Trim(category) == "" {
        errors := errors[Category := Some(CategoryRequired)];
      }
      fieldErrors := errors;
      ok := |errors.Keys| == 0;
      assert ok <==> errors == map[] by {
        if errors != map[] {
          var f :| f in errors;
        }
      }
    }

    /**
     * `pickImage`: `permission` is whether access was granted (or the error
     * asking raised) and `picked` the library's answer, None when cancelled.
     */
    method PickImage(permission: Result<bool>, picked: Result<Option<Asset>>) returns (alert: Option<Alert>)
      modifies this
      ensures images == (if permission == Ok(true) && picked.Ok? && picked.value.Some? then old(images) + [picked.value.value] else old(images))
      ensures alert == (if permission.Err? then Some(PickFailed)
                        else if !permission.value then Some(PermissionDenied)
                        else if picked.Err? then Some(PickFailed)
                        else None)
      ensures title == old(title) && description == old(description) && price == old(price) && category == old(category)
      ensures condition == old(condition) && location == old(location) && fieldErrors == old(fieldErrors)
      ensures isSubmitting == old(isSubmitting)
    {
      if permission.Err? {
        return Some(PickFailed);
      }
      if !permission.value {
        return Some(PermissionDenied);
      }
      if picked.Err? {
        return Some(PickFailed);
      }
      if picked.value.Some? {
        images := images + [picked.value.value];
      }
      alert := None;
    }

    /** `removeImage(index)`. */
    method RemoveImage(index: int)
      modifies this
      ensures images == SpliceOne(old(images), index)
      ensures title == old(title) && description == old(description) && price == old(price) && category == old(category)
      ensures condition == old(condition) && location == old(location) && fieldErrors == old(fieldErrors)
      ensures isSubmitting == old(isSubmitting)
    {
      var updated := images;
      updated := SpliceOne(updated, index);
      images := updated;
    }

    /**
     * `submitListing`: `user` answers `account.get()`, `created` the creation
     * of the listing document (whose id is `listingId`), `uploads` the
     * per-image outcomes, and `createdAt` stands for the current time.
     */
    method SubmitListing(user: Result<Account>, listingId: string, createdAt: string, created: Outcome,
                         uploads: seq<Option<string>>) returns (s: Submission)
      modifies this
      ensures fieldErrors == FormErrors(title, description, price, category)
      ensures fieldErrors != map[] ==> s == Submission(None, [], None, false) && isSubmitting == old(isSubmitting)
      ensures fieldErrors == map[] ==> !isSubmitting
      ensures fieldErrors == map[] && user.Err? ==> s == Submission(None, [], Some(SubmitFailed), false)
      ensures fieldErrors == map[] && user.Ok? ==>
        && ValidPrice(price)
        && s.listing == Some(ListingDoc(Trim(title), Trim(description), ParseFloat(price).value, Trim(category),
                                        Trim(condition), Trim(location), user.value.id, createdAt, "active"))
        && (created.Failed? ==> s.images == [] && s.alert == Some(SubmitFailed) && !s.navigated)
        && (created.Done? ==> s.images == ImageRecords(listingId, Outcomes(|images|, uploads))
                              && s.alert == Some(Created) && s.navigated)
      ensures title == old(title) && description == old(description) && price == old(price) && category == old(category)
      ensures condition == old(condition) && location == old(location) && images == old(images)
    {
      var ok := ValidateForm();
      if !ok {
        return Submission(None, [], None, false);
      }
      isSubmitting := true;
      if user.Err? {
        isSubmitting := false;
        return Submission(None, [], Some(SubmitFailed), false);
      }
      assert ValidPrice(price) by {
        assert Price !in FormErrors(title, description, price, category);
      }
      var doc := ListingDoc(Trim(title), Trim(description), ParseFloat(price).value, Trim(category),
                            Trim(condition), Trim(location), user.value.id, createdAt, "active");
      if created.Failed? {
        isSubmitting := false;
        return Submission(Some(doc), [], Some(SubmitFailed), false);
      }
      var records := if |images| > 0 then ImageRecords(listingId, Outcomes(|images|, uploads)) else [];
      isSubmitting := false;
      s := Submission(Some(doc), records, Some(Created), true);
    }
  }
}
