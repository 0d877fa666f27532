/**
 * The "list an item" form: the photo picker, required-field validation, the
 * listing insert and the per-photo upload loop that follows it.
 */
module Listing {
  import opened Shared

  const MaxPhotos: nat := 8

  /** A picked file; only its name matters to the form's logic. */
  datatype PhotoFile = PhotoFile(name: string)

  /** The form's text fields, as typed. */
  datatype FormFields = FormFields(
    title: string,
    description: string,
    categoryId: string,
    pricePerDay: string,
    depositAmount: string,
    condition: string,
    pickupInstructions: string,
    addressText: string)

  const EmptyForm := FormFields("", "", "", "", "", "good", "", "")

  /**
   * The inserted listing row. `parseFloat` results are carried as
   * `Option<real>`, with `None` for NaN.
   */
  datatype NewListing = NewListing(
    ownerId: string,
    title: string,
    description: string,
    categoryId: string,
    pricePerDay: Option<real>,
    depositAmount: real,
    condition: string,
    pickupInstructions: string,
    addressText: string,
    latitude: real,
    longitude: real)

  /** A `listing_photos` row. */
  datatype PhotoRow = PhotoRow(listingId: string, photoUrl: string, displayOrder: nat)

  /** What the listing insert returned: the new row's id, or an error with its message. */
  datatype InsertResult = Inserted(listingId: string) | InsertError(message: Option<string>)

  datatype SubmitOutcome =
    | NotSignedIn
    | MissingFields
    | InsertFailed(listing: NewListing)
    | Created(listing: NewListing, listingId: string, paths: seq<string>, rows: seq<PhotoRow>, redirect: string)

  // ---------------------------------------------------------------------
  // Photo list edits

  /**
   * A batch that would take the list past eight photos is rejected whole;
   * otherwise it is appended. Either way the old photos stay in front, and a list within
   * the limit stays within it.
   */
  function AddPhotos(photos: seq<PhotoFile>, files: seq<PhotoFile>): (r: seq<PhotoFile>)
    ensures |r| >= |photos| && r[..|photos|] == photos
    ensures |photos| <= MaxPhotos ==> |r| <= MaxPhotos
    ensures |photos| + |files| <= MaxPhotos ==> r == photos + files
    ensures |photos| + |files| > MaxPhotos ==> r == photos
  {
    if |photos| + |files| > MaxPhotos then photos else photos + files
  }

  /** Keeps every element except the one at position `index`, if there is one. */
  function RemoveIndex<T>(s: seq<T>, index: int): (r: seq<T>)
    ensures 0 <= index < |s| ==> |r| == |s| - 1
    ensures !(0 <= index < |s|) ==> r == s
    ensures forall k :: 0 <= k < |r| ==> r[k] == s[if 0 <= index <= k then k + 1 else k]
  {
    if s == [] then []
    else (if index == 0 then [] else [s[0]]) + RemoveIndex(s[1..], index - 1)
  }

  /** Removal is the splice that keeps everything before and after the index. */
  lemma RemoveIndexIsSplice<T>(s: seq<T>, index: int)
    requires 0 <= index < |s|
    ensures RemoveIndex(s, index) == s[..index] + s[index + 1..]
  {
  }

  datatype PhotoEdit = Add(files: seq<PhotoFile>) | Remove(index: int)

  function ApplyEdits(photos: seq<PhotoFile>, edits: seq<PhotoEdit>): seq<PhotoFile>
    decreases |edits|
  {
    if edits == [] then photos
    else
      var next := match edits[0]
        case Add(files) => AddPhotos(photos, files)
        case Remove(i) => RemoveIndex(photos, i);
      ApplyEdits(next, edits[1..])
  }

  /** No sequence of adds and removes takes the list past eight photos. */
  lemma {:induction false} EditsKeepPhotoLimit(photos: seq<PhotoFile>, edits: seq<PhotoEdit>)
    requires |photos| <= MaxPhotos
    ensures |ApplyEdits(photos, edits)| <= MaxPhotos
    decreases |edits|
  {
    if edits != [] {
      var next := match edits[0]
        case Add(files) => AddPhotos(photos, files)
        case Remove(i) => RemoveIndex(photos, i);
      EditsKeepPhotoLimit(next, edits[1..]);
    }
  }

  // ---------------------------------------------------------------------
  // Validation and the inserted row

  /** A required field (title, category or daily price) was left empty. */
  predicate MissingRequired(form: FormFields)
    ensures MissingRequired(form) <==> "" in [form.title, form.categoryId, form.pricePerDay]
  {
    form.title == "" || form.categoryId == "" || form.pricePerDay == ""
  }

  /** The deposit sent: the parsed amount, with an unparsable entry (NaN, which is falsy) giving 0. */
  function DepositAmount(parsed: Option<real>): (r: real)
    ensures parsed.None? ==> r == 0.0
    ensures parsed.Some? ==> r == parsed.value
  {
    if parsed.None? || parsed.value == 0.0 then 0.0 else parsed.value
  }

  /**
   * The row sent to `listings`. `parsedPrice` and `parsedDeposit` are what
   * `parseFloat` made of the two price fields.
   */
  function NewListingOf(ownerId: string, form: FormFields, parsedPrice: Option<real>, parsedDeposit: Option<real>): (r: NewListing)
    requires form.depositAmount == "" ==> parsedDeposit.None?
    ensures r.ownerId == ownerId && r.title == form.title && r.categoryId == form.categoryId
    ensures r.description == form.description && r.condition == form.condition
    ensures r.pickupInstructions == form.pickupInstructions && r.addressText == form.addressText
    ensures r.pricePerDay == parsedPrice
    ensures r.depositAmount == DepositAmount(parsedDeposit)
    ensures form.depositAmount == "" ==> r.depositAmount == 0.0
    ensures r.latitude == 0.0 && r.longitude == 0.0
  {
    NewListing(ownerId, form.title, form.description, form.categoryId, parsedPrice, DepositAmount(parsedDeposit),
      form.condition, form.pickupInstructions, form.addressText, 0.0, 0.0)
  }

  // ---------------------------------------------------------------------
  // Storage paths

  function Digit(d: nat): (c: char)
    requires d < 10
    ensures '0' <= c <= '9'
    ensures c as int - '0' as int == d
  {
    (('0' as int) + d) as char
  }

  /** A loop index written out in decimal, most significant digit first. */
  function DecimalString(n: nat): (r: string)
    ensures |r| >= 1
    ensures forall k :: 0 <= k < |r| ==> '0' <= r[k] <= '9'
    ensures |r| == 1 <==> n < 10
  {
    if n < 10 then [Digit(n)] else DecimalString(n / 10) + [Digit(n % 10)]
  }

  /** The number a string of decimal digits spells, most significant digit first. */
  function DigitsValue(s: string): nat
    requires forall k :: 0 <= k < |s| ==> '0' <= s[k] <= '9'
  {
    if s == [] then 0 else DigitsValue(s[..|s| - 1]) * 10 + (s[|s| - 1] as int - '0' as int)
  }

  /**
   * The digits spell `n` and, beyond a single digit, do not start with `0`:
   * the canonical decimal form a template literal gives a number.
   */
  lemma {:induction false} DecimalStringValue(n: nat)
    ensures DigitsValue(DecimalString(n)) == n
    ensures n >= 10 ==> DecimalString(n)[0] != '0'
  {
    if n >= 10 {
      var s, p := DecimalString(n), DecimalString(n / 10);
      assert s == p + [Digit(n % 10)];
      assert s[..|s| - 1] == p;
      DecimalStringValue(n / 10);
      assert s[0] == p[0];
      if n / 10 < 10 {
        assert p == [Digit(n / 10)];
      }
    }
  }

  /** Different numbers are written differently. */
  lemma {:induction false} DecimalStringInjective(m: nat, n: nat)
    requires DecimalString(m) == DecimalString(n)
    ensures m == n
  {
    if m >= 10 {
      var sm, sn := DecimalString(m), DecimalString(n);
      assert sm[..|sm| - 1] == DecimalString(m / 10) && sn[..|sn| - 1] == DecimalString(n / 10);
      assert Digit(m % 10) == sm[|sm| - 1] == Digit(n % 10);
      DecimalStringInjective(m / 10, n / 10);
    }
  }

  /** A file name's extension: the text after its last dot, or the whole name when it has none. */
  function Extension(name: string): (r: string)
    ensures '.' !in r && |r| <= |name|
  {
    if name == [] then []
    else if name[|name| - 1] == '.' then []
    else Extension(name[..|name| - 1]) + [name[|name| - 1]]
  }

  /**
   * The extension is a suffix of the name; when it is not the whole name, a
   * dot comes right before it, so it is the last dot-separated segment.
   */
  lemma {:induction false} ExtensionIsLastSegment(name: string)
    ensures var r := Extension(name);
      && r == name[|name| - |r|..]
      && (|r| < |name| ==> name[|name| - |r| - 1] == '.')
      && ('.' !in name ==> r == name)
  {
    if name != [] && name[|name| - 1] != '.' {
      var init := name[..|name| - 1];
      ExtensionIsLastSegment(init);
      assert name == init + [name[|name| - 1]];
    }
  }

  /** Where photo `i` of a listing is stored: the listing's folder, the index, and the file's extension. */
  function PhotoPath(listingId: string, i: nat, fileName: string): (r: string)
    ensures |r| >= |listingId| + 3 + |Extension(fileName)|
    ensures r[..|listingId| + 1] == listingId + "/"
    ensures r[|r| - |Extension(fileName)| - 1..] == "." + Extension(fileName)
  {
    listingId + "/" + DecimalString(i) + "." + Extension(fileName)
  }

  /** Where the first dot of `t` is, or `|t|` when it has none. */
  function DotIndex(t: string): (r: nat)
    ensures r <= |t|
  {
    if t == [] || t[0] == '.' then 0 else 1 + DotIndex(t[1..])
  }

  lemma {:induction false} DotIndexAfterUndotted(u: string, e: string)
    requires '.' !in u
    ensures DotIndex(u + "." + e) == |u|
  {
    if u != [] {
      assert (u + "." + e)[1..] == u[1..] + "." + e;
      DotIndexAfterUndotted(u[1..], e);
    }
  }

  /** Past the listing's folder, a path is the index, a dot and the extension. */
  lemma PhotoPathInFolder(listingId: string, i: nat, name: string)
    ensures |PhotoPath(listingId, i, name)| >= |listingId| + 1
    ensures PhotoPath(listingId, i, name)[|listingId| + 1..] == DecimalString(i) + "." + Extension(name)
  {
    var tail := DecimalString(i) + "." + Extension(name);
    assert PhotoPath(listingId, i, name) == (listingId + "/") + tail;
  }

  /**
   * A storage path determines the photo's index: photos at different
   * positions are uploaded to different paths, whatever their names, so no
   * upload overwrites another.
   */
  lemma PhotoPathDeterminesIndex(listingId: string, i: nat, j: nat, a: string, b: string)
    requires PhotoPath(listingId, i, a) == PhotoPath(listingId, j, b)
    ensures i == j
  {
    var u, v := DecimalString(i), DecimalString(j);
    var ta, tb := u + "." + Extension(a), v + "." + Extension(b);
    PhotoPathInFolder(listingId, i, a);
    PhotoPathInFolder(listingId, j, b);
    assert ta == tb;
    DotIndexAfterUndotted(u, Extension(a));
    DotIndexAfterUndotted(v, Extension(b));
    assert u == ta[..|u|] && v == tb[..|v|];
    DecimalStringInjective(i, j);
  }

  // ---------------------------------------------------------------------
  // The upload loop

  /** The storage paths of the first `n` photos, in index order. */
  function PlannedPaths(listingId: string, photos: seq<PhotoFile>, n: nat): seq<string>
    requires n <= |photos|
  {
    if n == 0 then [] else PlannedPaths(listingId, photos, n - 1) + [PhotoPath(listingId, n - 1, photos[n - 1].name)]
  }

  /** Photo `i` goes to its own path. */
  lemma {:induction false} PlannedPathsAt(listingId: string, photos: seq<PhotoFile>, n: nat)
    requires n <= |photos|
    ensures |PlannedPaths(listingId, photos, n)| == n
    ensures forall i :: 0 <= i < n ==> PlannedPaths(listingId, photos, n)[i] == PhotoPath(listingId, i, photos[i].name)
  {
    if n > 0 {
      PlannedPathsAt(listingId, photos, n - 1);
      var prev, last := PlannedPaths(listingId, photos, n - 1), PhotoPath(listingId, n - 1, photos[n - 1].name);
      assert PlannedPaths(listingId, photos, n) == prev + [last];
      forall i | 0 <= i < n
        ensures (prev + [last])[i] == PhotoPath(listingId, i, photos[i].name)
      {
        if i < n - 1 {
          assert (prev + [last])[i] == prev[i];
        }
      }
    }
  }

  /** No two photos of a submission share a storage path. */
  lemma PlannedPathsDistinct(listingId: string, photos: seq<PhotoFile>, n: nat, i: nat, j: nat)
    requires n <= |photos| && i < j < n
    ensures |PlannedPaths(listingId, photos, n)| == n
    ensures PlannedPaths(listingId, photos, n)[i] != PlannedPaths(listingId, photos, n)[j]
  {
    PlannedPathsAt(listingId, photos, n);
    var paths := PlannedPaths(listingId, photos, n);
    if paths[i] == paths[j] {
      PhotoPathDeterminesIndex(listingId, i, j, photos[i].name, photos[j].name);
    }
  }

  /**
   * The photo rows recorded for the first `n` photos, given which uploads
   * succeeded and the public URL each successful one got.
   */
  function PlannedRows(listingId: string, uploads: seq<Option<string>>, n: nat): (r: seq<PhotoRow>)
    requires n <= |uploads|
    ensures |r| <= n
  {
    if n == 0 then []
    else
      var row := if uploads[n - 1].Some? then [PhotoRow(listingId, uploads[n - 1].value, n - 1)] else [];
      PlannedRows(listingId, uploads, n - 1) + row
  }

  /** Planned row `k` carries the listing, an index below `n` and that upload's URL. */
  lemma {:induction false} PlannedRowCarries(listingId: string, uploads: seq<Option<string>>, n: nat, k: nat)
    requires n <= |uploads| && k < |PlannedRows(listingId, uploads, n)|
    ensures var row := PlannedRows(listingId, uploads, n)[k];
      row.listingId == listingId && row.displayOrder < n && uploads[row.displayOrder] == Some(row.photoUrl)
  {
    if n > 0 {
      var prev, rows := PlannedRows(listingId, uploads, n - 1), PlannedRows(listingId, uploads, n);
      var last := if uploads[n - 1].Some? then [PhotoRow(listingId, uploads[n - 1].value, n - 1)] else [];
      assert rows == prev + last;
      if k < |prev| {
        PlannedRowCarries(listingId, uploads, n - 1, k);
        assert rows[k] == prev[k];
      } else {
        assert rows[k] == last[0];
      }
    }
  }

  /** Planned rows come in strictly increasing display order. */
  lemma {:induction false} PlannedRowsOrderedAt(listingId: string, uploads: seq<Option<string>>, n: nat, k: nat, l: nat)
    requires n <= |uploads| && k < l < |PlannedRows(listingId, uploads, n)|
    ensures PlannedRows(listingId, uploads, n)[k].displayOrder < PlannedRows(listingId, uploads, n)[l].displayOrder
  {
    if n > 0 {
      var prev, rows := PlannedRows(listingId, uploads, n - 1), PlannedRows(listingId, uploads, n);
      var last := if uploads[n - 1].Some? then [PhotoRow(listingId, uploads[n - 1].value, n - 1)] else [];
      assert rows == prev + last;
      assert rows[k] == prev[k];
      if l < |prev| {
        PlannedRowsOrderedAt(listingId, uploads, n - 1, k, l);
        assert rows[l] == prev[l];
      } else {
        PlannedRowCarries(listingId, uploads, n - 1, k);
        assert rows[l] == last[0];
      }
    }
  }

  /** A successful upload below `n` has a planned row. */
  lemma {:induction false} PlannedRowExists(listingId: string, uploads: seq<Option<string>>, n: nat, i: nat)
    requires n <= |uploads| && i < n && uploads[i].Some?
    ensures exists k :: 0 <= k < |PlannedRows(listingId, uploads, n)| && PlannedRows(listingId, uploads, n)[k].displayOrder == i
  {
    var prev, rows := PlannedRows(listingId, uploads, n - 1), PlannedRows(listingId, uploads, n);
    var last := if uploads[n - 1].Some? then [PhotoRow(listingId, uploads[n - 1].value, n - 1)] else [];
    assert rows == prev + last;
    if i < n - 1 {
      PlannedRowExists(listingId, uploads, n - 1, i);
      var k :| 0 <= k < |prev| && prev[k].displayOrder == i;
      assert rows[k] == prev[k];
    } else {
      assert rows[|prev|] == last[0];
    }
  }

  /**
   * Each successful upload gets exactly one row, carrying its URL and its
   * index as display order; failed uploads get none; rows come in index order.
   */
  lemma PlannedRowsShape(listingId: string, uploads: seq<Option<string>>, n: nat)
    requires n <= |uploads|
    ensures var rows := PlannedRows(listingId, uploads, n);
      && |rows| <= n
      && (forall k :: 0 <= k < |rows| ==>
            rows[k].listingId == listingId && rows[k].displayOrder < n
            && uploads[rows[k].displayOrder] == Some(rows[k].photoUrl))
      && (forall k, l :: 0 <= k < l < |rows| ==> rows[k].displayOrder < rows[l].displayOrder)
      && (forall i :: 0 <= i < n && uploads[i].Some? ==> exists k :: 0 <= k < |rows| && rows[k].displayOrder == i)
  {
    var rows := PlannedRows(listingId, uploads, n);
    forall k | 0 <= k < |rows|
      ensures rows[k].listingId == listingId && rows[k].displayOrder < n
      ensures uploads[rows[k].displayOrder] == Some(rows[k].photoUrl)
    {
      PlannedRowCarries(listingId, uploads, n, k);
    }
    forall k, l | 0 <= k < l < |rows|
      ensures rows[k].displayOrder < rows[l].displayOrder
    {
      PlannedRowsOrderedAt(listingId, uploads, n, k, l);
    }
    forall i | 0 <= i < n && uploads[i].Some?
      ensures exists k :: 0 <= k < |rows| && rows[k].displayOrder == i
    {
      PlannedRowExists(listingId, uploads, n, i);
    }
  }

  /**
   * Photos are handled in index order: each is uploaded to its path, and a
   * row is inserted only for the uploads that succeeded; a failure skips
   * that photo's row and the loop carries on.
   */
  method UploadPhotos(listingId: string, photos: seq<PhotoFile>, uploads: seq<Option<string>>)
    returns (paths: seq<string>, rows: seq<PhotoRow>)
    requires |uploads| == |photos|
    ensures paths == PlannedPaths(listingId, photos, |photos|)
    ensures rows == PlannedRows(listingId, uploads, |photos|)
  {
    paths, rows := [], [];
    var i := 0;
    while i < |photos|
      invariant 0 <= i <= |photos|
      invariant paths == PlannedPaths(listingId, photos, i)
      invariant rows == PlannedRows(listingId, uploads, i)
    {
      paths := paths + [PhotoPath(listingId, i, photos[i].name)];
      if uploads[i].Some? {
        rows := rows + [PhotoRow(listingId, uploads[i].value, i)];
      }
      assert rows == PlannedRows(listingId, uploads, i + 1);
      i := i + 1;
    }
  }

  // ---------------------------------------------------------------------
  // The page

  class ListForm {
    var userId: Option<string>
    var photos: seq<PhotoFile>
    var previews: seq<string>
    var form: FormFields
    var loading: bool
    /** Texts shown with `alert`, oldest first. */
    var alerts: seq<string>

    ghost predicate Valid()
      reads this
    {
      |photos| <= MaxPhotos
    }

    constructor ()
      ensures Valid()
      ensures userId == None && photos == [] && previews == [] && form == EmptyForm && !loading && alerts == []
    {
      userId := None;
      photos := [];
      previews := [];
      form := EmptyForm;
      loading := false;
      alerts := [];
    }

    method SetUser(id: string)
      modifies this
      ensures userId == Some(id)
      ensures photos == old(photos) && previews == old(previews) && form == old(form)
      ensures loading == old(loading) && alerts == old(alerts)
    {
      userId := Some(id);
    }

    method SetForm(f: FormFields)
      modifies this
      ensures form == f
      ensures userId == old(userId) && photos == old(photos) && previews == old(previews)
      ensures loading == old(loading) && alerts == old(alerts)
    {
      form := f;
    }

    /** A batch that would exceed eight photos is refused with an alert; otherwise it is appended. */
    method HandlePhotoChange(files: seq<PhotoFile>) returns (accepted: bool)
      requires Valid()
      modifies this
      ensures Valid()
      ensures accepted <==> |old(photos)| + |files| <= MaxPhotos
      ensures photos == AddPhotos(old(photos), files)
      ensures accepted ==> alerts == old(alerts)
      ensures !accepted ==> alerts == old(alerts) + ["Maximum 8 photos"]
      ensures userId == old(userId) && previews == old(previews) && form == old(form) && loading == old(loading)
    {
      if |photos| + |files| > MaxPhotos {
        alerts := alerts + ["Maximum 8 photos"];
        return false;
      }
      photos := photos + files;
      accepted := true;
    }

    /** One file reader finishing: its data URL joins the previews. */
    method OnPreviewLoaded(dataUrl: string)
      modifies this
      ensures previews == old(previews) + [dataUrl]
      ensures userId == old(userId) && photos == old(photos) && form == old(form)
      ensures loading == old(loading) && alerts == old(alerts)
    {
      previews := previews + [dataUrl];
    }

    /** Drops the same position from the photos and from the previews. */
    method RemovePhoto(index: int)
      requires Valid()
      modifies this
      ensures Valid()
      ensures photos == RemoveIndex(old(photos), index) && previews == RemoveIndex(old(previews), index)
      ensures userId == old(userId) && form == old(form) && loading == old(loading) && alerts == old(alerts)
    {
      photos := RemoveIndex(photos, index);
      previews := RemoveIndex(previews, index);
    }

    /**
     * Submits the form: nothing without a user; an alert and no insert when a
     * required field is empty; otherwise the listing insert, then the upload
     * loop, with `loading` raised for the duration.
     */
    method HandleSubmit(parsedPrice: Option<real>, parsedDeposit: Option<real>, insert: InsertResult, uploads: seq<Option<string>>)
      returns (outcome: SubmitOutcome)
      requires Valid()
      requires form.depositAmount == "" ==> parsedDeposit.None?
      requires |uploads| == |photos|
      modifies this
      ensures Valid()
      ensures userId == old(userId) && photos == old(photos) && previews == old(previews) && form == old(form)
      ensures userId.None? ==> outcome == NotSignedIn && loading == old(loading) && alerts == old(alerts)
      ensures userId.Some? && MissingRequired(form) ==>
        outcome == MissingFields && loading == old(loading) && alerts == old(alerts) + ["Please fill in required fields"]
      ensures userId.Some? && !MissingRequired(form) ==>
        var listing := NewListingOf(userId.value, form, parsedPrice, parsedDeposit);
        && !loading
        && (insert.InsertError? ==>
              outcome == InsertFailed(listing)
              && alerts == old(alerts) + [OrElse(insert.message, "Failed to create listing")])
        && (insert.Inserted? ==>
              outcome.Created? && outcome.listing == listing && outcome.listingId == insert.listingId
              && outcome.paths == PlannedPaths(insert.listingId, photos, |photos|)
              && outcome.rows == PlannedRows(insert.listingId, uploads, |photos|)
              && outcome.redirect == "/listing/" + insert.listingId
              && alerts == old(alerts))
    {
      if userId.None? {
        return NotSignedIn;
      }
      if MissingRequired(form) {
        alerts := alerts + ["Please fill in required fields"];
        return MissingFields;
      }
      loading := true;
      var listing := NewListingOf(userId.value, form, parsedPrice, parsedDeposit);
      match insert {
        case InsertError(message) =>
          alerts := alerts + [OrElse(message, "Failed to create listing")];
          outcome := InsertFailed(listing);
        case Inserted(listingId) =>
          var paths, rows := UploadPhotos(listingId, photos, uploads);
          outcome := Created(listing, listingId, paths, rows, "/listing/" + listingId);
      }
      loading := false;
    }
  }
}
