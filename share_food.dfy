/**
 * The share-food page (pages/ShareFoodPage.jsx): the submission handler that
 * builds a listing record and issues exactly one create or update, the
 * edit-mode lookup driven by the `edit` query parameter, and the impact totals
 * summed over approved claims. The hooks, the upload and the backend are
 * inputs; the page's writes, uploads and navigations are recorded in order.
 */
module ShareFood {
  import opened JsValues

  // ---------------------------------------------------------------------
  // parseInt and the edit-mode lookup
  // ---------------------------------------------------------------------

  predicate IsSpace(c: char)
  {
    c == ' ' || c == '\t' || c == '\n' || c == '\r'
  }

  function TrimStart(s: string): (t: string)
    ensures |t| <= |s| && t == s[|s| - |t|..]
    ensures t != [] ==> !IsSpace(t[0])
  {
    if s != [] && IsSpace(s[0]) then TrimStart(s[1..]) else s
  }

  /** Number of leading decimal digits. */
  function LeadingDigits(s: string): (n: nat)
    ensures n <= |s|
    ensures forall k :: 0 <= k < n ==> IsDigit(s[k])
    ensures n < |s| ==> !IsDigit(s[n])
  {
    if s != [] && IsDigit(s[0]) then 1 + LeadingDigits(s[1..]) else 0
  }

  function DigitsValue(s: string): nat
    requires forall k :: 0 <= k < |s| ==> IsDigit(s[k])
  {
    if s == [] then 0
    else DigitsValue(s[..|s| - 1]) * 10 + DigitValue(s[|s| - 1])
  }

  function DigitValue(c: char): nat
    requires IsDigit(c)
  {
    c as int - '0' as int
  }

  /** `parseInt(s)` in base 10; `None` is `NaN`. */
  function ParseInt(s: string): Option<int>
  {
    var t := TrimStart(s);
    var negative := t != [] && t[0] == '-';
    var body := if t != [] && (t[0] == '-' || t[0] == '+') then t[1..] else t;
    var n := LeadingDigits(body);
    if n == 0 then None
    else
      var v: int := DigitsValue(body[..n]);
      Some(if negative then -v else v)
  }

  lemma {:induction false} DecimalValue(n: nat)
    ensures DigitsValue(Decimal(n)) == n
  {
    var s := Decimal(n);
    if n >= 10 {
      DecimalValue(n / 10);
      assert s[..|s| - 1] == Decimal(n / 10);
    }
  }

  /** A numeric id printed into the `edit` parameter parses back to itself. */
  lemma ParseIntOfDecimal(n: nat)
    ensures ParseInt(Decimal(n)) == Some(n)
  {
    var s := Decimal(n);
    assert !IsSpace(s[0]) && s[0] != '-' && s[0] != '+';
    assert TrimStart(s) == s;
    assert LeadingDigits(s) == |s|;
    assert s[..|s|] == s;
    DecimalValue(n);
  }

  /** `l.id === id` for the number `id`. */
  predicate HasId(l: Record, id: int)
  {
    "id" in l && l["id"] == Num(id as real)
  }

  /** `listings.find(l => l.id === id)` */
  function FindListing(listings: seq<Record>, id: int): (r: Option<Record>)
    ensures r.None? <==> forall k :: 0 <= k < |listings| ==> !HasId(listings[k], id)
    ensures r.Some? ==> exists k :: (0 <= k < |listings| && listings[k] == r.value && HasId(r.value, id)
      && forall m :: 0 <= m < k ==> !HasId(listings[m], id))
  {
    if listings == [] then None
    else if HasId(listings[0], id) then Some(listings[0])
    else
      var r := FindListing(listings[1..], id);
      assert forall k :: 1 <= k < |listings| ==> listings[k] == listings[1..][k - 1];
      r
  }

  /** The listing the edit-mode effect picks, if any. */
  function EditTarget(editParam: Option<string>, listings: seq<Record>): Option<Record>
  {
    if editParam.Some? && editParam.value != "" && |listings| > 0 then
      match ParseInt(editParam.value)
      case Some(id) => FindListing(listings, id)
      case None => None   // NaN equals nothing
    else None
  }

  /** Edit mode is entered exactly when the parameter is present, listings are
      loaded, and some listing has the parsed id. */
  lemma EditModeIff(editParam: Option<string>, listings: seq<Record>)
    ensures EditTarget(editParam, listings).Some? <==>
      && editParam.Some? && editParam.value != "" && |listings| > 0
      && ParseInt(editParam.value).Some?
      && exists k :: 0 <= k < |listings| && HasId(listings[k], ParseInt(editParam.value).value)
  {
  }

  /** A link `?edit=<id>` opens the first listing with that id. */
  lemma EditLinkFindsListing(listings: seq<Record>, k: nat, id: nat)
    requires k < |listings| && HasId(listings[k], id)
    ensures EditTarget(Some(Decimal(id)), listings).Some?
    ensures HasId(EditTarget(Some(Decimal(id)), listings).value, id)
  {
    ParseIntOfDecimal(id);
  }

  // ---------------------------------------------------------------------
  // The submitted record
  // ---------------------------------------------------------------------

  /** A listing write the page issues through the listings hook. */
  datatype ListingWrite = CreateListing(data: Record) | UpdateListing(id: Option<Value>, data: Record)

  /** What `dataService.uploadFile` does: it returns a URL or raises. */
  datatype UploadOutcome = UploadedAt(url: string) | UploadRaised(error: string)

  predicate Authorized(authUser: Option<Record>, isAuthenticated: bool)
  {
    authUser.Some? && isAuthenticated
  }

  /** `formData.image && typeof formData.image !== 'string'`: a new file. */
  predicate NeedsUpload(formData: Record)
  {
    FieldTruthy(formData, "image") && !IsString(formData["image"])
  }

  /** The `image_url` the record gets. */
  function ImageUrl(formData: Record, upload: UploadOutcome): Value
  {
    if NeedsUpload(formData) && upload.UploadedAt? then Str(upload.url)
    else FieldOr(formData, "image_url", Null)
  }

  /** `{...formData, user_id, status: 'pending', image_url}` without `image`. */
  function ListingPayload(formData: Record, userId: Option<Value>, imageUrl: Value): (data: Record)
    ensures "image" !in data
    ensures Field(data, "user_id") == userId
    ensures "status" in data && data["status"] == Str("pending")
    ensures "image_url" in data && data["image_url"] == imageUrl
    ensures forall k :: k !in {"image", "user_id", "status", "image_url"} ==> Field(data, k) == Field(formData, k)
  {
    SetField(formData, "user_id", userId)["status" := Str("pending")]["image_url" := imageUrl] - {"image"}
  }

  /** Update when editing a loaded listing, create otherwise. */
  function ListingWriteFor(isEditing: bool, initialData: Option<Record>, data: Record): ListingWrite
  {
    if isEditing && initialData.Some? then UpdateListing(Field(initialData.value, "id"), data)
    else CreateListing(data)
  }

  /** An update targets the loaded listing's id exactly when editing one;
      either way the payload is written unchanged. */
  lemma ListingWriteTarget(isEditing: bool, initialData: Option<Record>, data: Record)
    ensures var w := ListingWriteFor(isEditing, initialData, data);
      && (w.UpdateListing? <==> isEditing && initialData.Some?)
      && (w.UpdateListing? ==> w.id == Field(initialData.value, "id"))
      && w.data == data
  {
  }

  /** The record never carries the file, always carries the signed-in user's
      id and `pending`, and keeps the uploaded URL over the form's own. */
  lemma SubmittedRecordShape(formData: Record, user: Record, url: string)
    requires NeedsUpload(formData)
    ensures var data := ListingPayload(formData, Field(user, "id"), ImageUrl(formData, UploadedAt(url)));
      && "image" !in data && data["status"] == Str("pending")
      && data["image_url"] == Str(url) && Field(data, "user_id") == Field(user, "id")
  {
  }

  /** Without a new file, `image_url` is the form's own when truthy, else null. */
  lemma ImageUrlWithoutUpload(formData: Record, upload: UploadOutcome)
    requires !NeedsUpload(formData)
    ensures ImageUrl(formData, upload) == (if FieldTruthy(formData, "image_url") then formData["image_url"] else Null)
  {
  }

  // ---------------------------------------------------------------------
  // Impact totals
  // ---------------------------------------------------------------------

  datatype Impact = Impact(
    foodWasteReduced: real, neighborsHelped: nat, people: real, schoolStaff: real, students: real)

  const NoImpact := Impact(0.0, 0, 0.0, 0.0, 0.0)

  /** What the approved-claims query produced: rows, an error or no data, or an exception. */
  datatype ClaimsFetch = ClaimsRows(claims: seq<Record>) | ClaimsError | ClaimsThrew

  /** `v || 0` for a numeric column. */
  function NumberOrZero(v: Option<Value>): real
  {
    if v.Some? && v.value.Num? then v.value.n else 0.0
  }

  /** `claim.food_listings?.quantity || 0` */
  function Quantity(claim: Record): real
  {
    if "food_listings" in claim && claim["food_listings"].Obj?
    then NumberOrZero(Field(claim["food_listings"].fields, "quantity"))
    else 0.0
  }

  /** `claims.reduce((sum, claim) => sum + f(claim), 0)` */
  function SumBy(claims: seq<Record>, f: Record -> real): real
  {
    if claims == [] then 0.0 else SumBy(claims[..|claims| - 1], f) + f(claims[|claims| - 1])
  }

  function TotalImpact(claims: seq<Record>): Impact
  {
    Impact(
      SumBy(claims, Quantity),
      |claims|,
      SumBy(claims, c => NumberOrZero(Field(c, "people"))),
      SumBy(claims, c => NumberOrZero(Field(c, "school_staff"))),
      SumBy(claims, c => NumberOrZero(Field(c, "students"))))
  }

  /** The impact after `fetchClaimImpact`, had its query reached the backend. */
  function ImpactAfterFetch(current: Impact, fetch: ClaimsFetch): Impact
  {
    match fetch
    case ClaimsRows(cs) => TotalImpact(cs)
    case ClaimsError => current
    case ClaimsThrew => NoImpact
  }

  /** `fetchClaimImpact` as written: `dataService.supabase` is undefined, so
      `.from` raises before any query and the catch branch always runs. */
  function ImpactAsWritten(current: Impact, fetch: ClaimsFetch): Impact
  {
    NoImpact
  }

  lemma {:induction false} SumByAppend(a: seq<Record>, b: seq<Record>, f: Record -> real)
    ensures SumBy(a + b, f) == SumBy(a, f) + SumBy(b, f)
    decreases |b|
  {
    if b == [] {
      assert a + b == a;
    } else {
      var b' := b[..|b| - 1];
      assert (a + b)[..|a + b| - 1] == a + b';
      SumByAppend(a, b', f);
    }
  }

  /** Each approved claim adds its own share to every total, missing values
      counting as zero; the claim count goes up by one. */
  lemma ClaimAddsItsShare(c: Record, claims: seq<Record>)
    ensures var before := TotalImpact(claims);
      var after := TotalImpact([c] + claims);
      && after.foodWasteReduced == Quantity(c) + before.foodWasteReduced
      && after.neighborsHelped == before.neighborsHelped + 1
      && after.people == NumberOrZero(Field(c, "people")) + before.people
      && after.schoolStaff == NumberOrZero(Field(c, "school_staff")) + before.schoolStaff
      && after.students == NumberOrZero(Field(c, "students")) + before.students
  {
    SumByAppend([c], claims, Quantity);
    SumByAppend([c], claims, c => NumberOrZero(Field(c, "people")));
    SumByAppend([c], claims, c => NumberOrZero(Field(c, "school_staff")));
    SumByAppend([c], claims, c => NumberOrZero(Field(c, "students")));
  }

  /** A query error keeps the totals; an exception resets all five. */
  lemma FetchFailureCases(current: Impact)
    ensures ImpactAfterFetch(current, ClaimsError) == current
    ensures ImpactAfterFetch(current, ClaimsThrew) == NoImpact
  {
  }

  /** As written the totals are zero even when approved claims exist. */
  lemma ImpactAsWrittenLosesClaims()
    ensures var claims := [map["people" := Num(3.0)]];
      && ImpactAfterFetch(NoImpact, ClaimsRows(claims)).people == 3.0
      && ImpactAsWritten(NoImpact, ClaimsRows(claims)).people == 0.0
  {
    var claims: seq<Record> := [map["people" := Num(3.0)]];
    assert claims[..0] == [];
  }

  // ---------------------------------------------------------------------
  // The page
  // ---------------------------------------------------------------------

  class ShareFoodPage {
    var loading: bool
    var isEditing: bool
    var initialData: Option<Record>
    var impact: Impact
    var uploads: seq<Value>             // files handed to `uploadFile`
    var writes: seq<ListingWrite>       // creates and updates issued
    var navigations: seq<string>        // `navigate(...)` targets

    constructor ()
      ensures !loading && !isEditing && initialData == None && impact == NoImpact
      ensures uploads == [] && writes == [] && navigations == []
    {
      loading := false;
      isEditing := false;
      initialData := None;
      impact := NoImpact;
      uploads := [];
      writes := [];
      navigations := [];
    }

    /** The edit-mode effect: it only ever switches edit mode on. */
    method ApplyEditParam(editParam: Option<string>, listings: seq<Record>)
      modifies this`initialData, this`isEditing
      ensures EditTarget(editParam, listings).Some? ==>
        initialData == EditTarget(editParam, listings) && isEditing
      ensures EditTarget(editParam, listings).None? ==>
        initialData == old(initialData) && isEditing == old(isEditing)
    {
      var target := EditTarget(editParam, listings);
      if target.Some? {
        initialData := target;
        isEditing := true;
      }
    }

    /** `handleSubmit(formData)`; `writeError` is the failure, if any, of the
        listings hook's create or update. */
    method HandleSubmit(formData: Record, authUser: Option<Record>, isAuthenticated: bool,
                        upload: UploadOutcome, writeError: Option<string>) returns (r: Result<(), string>)
      modifies this`loading, this`uploads, this`writes, this`navigations
      ensures !loading
      ensures !Authorized(authUser, isAuthenticated) ==>
        && r == Failure("User not authenticated")
        && uploads == old(uploads) && writes == old(writes) && navigations == old(navigations)
      ensures Authorized(authUser, isAuthenticated) ==>
        uploads == old(uploads) + (if NeedsUpload(formData) then [formData["image"]] else [])
      ensures Authorized(authUser, isAuthenticated) && NeedsUpload(formData) && upload.UploadRaised? ==>
        && r == Failure(upload.error) && writes == old(writes) && navigations == old(navigations)
      ensures Authorized(authUser, isAuthenticated) && !(NeedsUpload(formData) && upload.UploadRaised?) ==>
        var data := ListingPayload(formData, Field(authUser.value, "id"), ImageUrl(formData, upload));
        && writes == old(writes) + [ListingWriteFor(isEditing, initialData, data)]
        && (writeError.Some? ==> r == Failure(writeError.value) && navigations == old(navigations))
        && (writeError.None? ==> r == Success(()) && navigations == old(navigations) + ["/profile"])
    {
      loading := true;
      if !Authorized(authUser, isAuthenticated) {
        loading := false;
        return Failure("User not authenticated");
      }
      var imageUrl := FieldOr(formData, "image_url", Null);
      if NeedsUpload(formData) {
        uploads := uploads + [formData["image"]];
        if upload.UploadRaised? {
          loading := false;
          return Failure(upload.error);
        }
        imageUrl := Str(upload.url);
      }
      var data := ListingPayload(formData, Field(authUser.value, "id"), imageUrl);
      writes := writes + [ListingWriteFor(isEditing, initialData, data)];
      if writeError.Some? {
        loading := false;
        return Failure(writeError.value);
      }
      navigations := navigations + ["/profile"];
      loading := false;
      r := Success(());
    }

    /** `fetchClaimImpact`, with its query reaching the backend. */
    method FetchClaimImpact(fetch: ClaimsFetch)
      modifies this`impact
      ensures impact == ImpactAfterFetch(old(impact), fetch)
    {
      match fetch {
        case ClaimsRows(cs) =>
          impact := TotalImpact(cs);
        case ClaimsError =>
        case ClaimsThrew =>
          impact := NoImpact;
      }
    }
  }
}
