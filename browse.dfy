/**
 * The browse page: the category heading and the listings request it sends,
 * with or without the viewer's position.
 */
module Browse {
  import opened Shared

  // ---------------------------------------------------------------------
  // The heading

  /** The regular-expression class `\w`: ASCII letters, digits and underscore. */
  predicate IsWordChar(c: char) {
    ('a' <= c <= 'z') || ('A' <= c <= 'Z') || ('0' <= c <= '9') || c == '_'
  }

  /** Upper-casing a single `\w` character: only lower-case letters change. */
  function UpperWordChar(c: char): (r: char)
    ensures IsWordChar(c) ==> IsWordChar(r)
    ensures 'a' <= c <= 'z' ==> 'A' <= r <= 'Z' && r as int == c as int - 32
    ensures !('a' <= c <= 'z') ==> r == c
  {
    if 'a' <= c <= 'z' then (c as int - 32) as char else c
  }

  /** The first position holding `c`, or -1 when there is none. */
  function IndexOf(s: string, c: char): (k: int)
    ensures -1 <= k < |s|
    ensures k >= 0 ==> s[k] == c && c !in s[..k]
    ensures k == -1 <==> c !in s
  {
    if s == [] then -1
    else if s[0] == c then 0
    else
      var k := IndexOf(s[1..], c);
      if k == -1 then -1 else k + 1
  }

  /**
   * String replacement with a plain (non-regular-expression) pattern: only
   * the first occurrence is replaced.
   */
  function ReplaceFirst(s: string, pattern: char, replacement: char): (r: string)
    ensures |r| == |s|
    ensures forall i :: 0 <= i < |s| ==> r[i] == if i == IndexOf(s, pattern) then replacement else s[i]
  {
    if s == [] then []
    else if s[0] == pattern then [replacement] + s[1..]
    else [s[0]] + ReplaceFirst(s[1..], pattern, replacement)
  }

  /** Replacing the first occurrence splices the replacement in at `indexOf`. */
  lemma ReplaceFirstIsSplice(s: string, pattern: char, replacement: char)
    ensures var k := IndexOf(s, pattern);
      ReplaceFirst(s, pattern, replacement) == if k < 0 then s else s[..k] + [replacement] + s[k + 1..]
  {
    var k, r := IndexOf(s, pattern), ReplaceFirst(s, pattern, replacement);
    var t := if k < 0 then s else s[..k] + [replacement] + s[k + 1..];
    assert |t| == |r|;
    forall i | 0 <= i < |r|
      ensures r[i] == t[i]
    {
    }
    assert r == t;
  }

  /**
   * Upper-cases the first character of every word, scanning left to right;
   * `afterWord` says whether the character before `s` was a word character.
   */
  function CapitalizeWords(s: string, afterWord: bool): (r: string)
    ensures |r| == |s|
  {
    if s == [] then []
    else
      var c := if IsWordChar(s[0]) && !afterWord then UpperWordChar(s[0]) else s[0];
      [c] + CapitalizeWords(s[1..], IsWordChar(s[0]))
  }

  /** `\b\w` matches exactly a word character that is not preceded by one. */
  predicate StartsWord(s: string, i: nat, afterWord: bool)
    requires i < |s|
  {
    IsWordChar(s[i]) && !(if i == 0 then afterWord else IsWordChar(s[i - 1]))
  }

  /** Each character that starts a word is upper-cased; every other one is kept. */
  lemma {:induction false} CapitalizeWordsAt(s: string, afterWord: bool, i: nat)
    requires i < |s|
    ensures CapitalizeWords(s, afterWord)[i] == if StartsWord(s, i, afterWord) then UpperWordChar(s[i]) else s[i]
  {
    if i > 0 {
      CapitalizeWordsAt(s[1..], IsWordChar(s[0]), i - 1);
      if i > 1 {
        assert s[1..][i - 2] == s[i - 1];
      }
    }
  }

  /** The `h1` text: the category with its first hyphen spaced and each word capitalised. */
  function Heading(category: string): (r: string)
    ensures category == "" ==> r == "All Listings"
    ensures category != "" ==> |r| == |category|
  {
    if category == "" then "All Listings"
    else CapitalizeWords(ReplaceFirst(category, '-', ' '), false)
  }

  /**
   * For a non-empty category, the heading at position `j` is a space where
   * the category has its first hyphen, the upper-cased character where a
   * word starts, and the category's own character everywhere else; so any
   * later hyphen is still there.
   */
  lemma HeadingAt(category: string, j: nat)
    requires j < |category|
    ensures var r, k, spaced := Heading(category), IndexOf(category, '-'), ReplaceFirst(category, '-', ' ');
      && |r| == |category|
      && (j == k ==> r[j] == ' ')
      && (j != k && category[j] == '-' ==> r[j] == '-')
      && (j != k && StartsWord(spaced, j, false) ==> r[j] == UpperWordChar(category[j]))
      && (j != k && !StartsWord(spaced, j, false) ==> r[j] == category[j])
  {
    CapitalizeWordsAt(ReplaceFirst(category, '-', ' '), false, j);
  }

  /** A concrete case: "a-b-c" is headed "A B-C". */
  lemma HeadingExample()
    ensures Heading("a-b-c") == "A B-C"
  {
    var s := "a-b-c";
    assert IndexOf(s, '-') == 1;
    var r := Heading(s);
    HeadingAt(s, 0);
    HeadingAt(s, 1);
    HeadingAt(s, 2);
    HeadingAt(s, 3);
    HeadingAt(s, 4);
    assert r == "A B-C";
  }

  // ---------------------------------------------------------------------
  // The listings request

  datatype Param = Param(key: string, value: string)

  /** What the geolocation API reported: not available, a position (as strings), or a refusal. */
  datatype Locate = NoGeolocation | Located(lat: string, lng: string) | LocateFailed

  /**
   * A request to the `listings` endpoint: `None` when the path carries no
   * query string at all, otherwise the query parameters in order.
   */
  datatype ListingsRequest = ListingsRequest(query: Option<seq<Param>>)

  /** The filter part of a query: the category, then the search text, each only when non-empty. */
  function FilterParams(category: string, search: string): (r: seq<Param>)
    ensures |r| == (if category != "" then 1 else 0) + (if search != "" then 1 else 0)
    ensures forall i :: 0 <= i < |r| ==> r[i].value != ""
    ensures forall i :: 0 <= i < |r| ==> (r[i].key == "category" && r[i].value == category) || (r[i].key == "q" && r[i].value == search)
  {
    (if category != "" then [Param("category", category)] else [])
    + (if search != "" then [Param("q", search)] else [])
  }

  /** The value stored under the first occurrence of `key`, if any. */
  function Lookup(ps: seq<Param>, key: string): (r: Option<string>)
    ensures r.Some? ==> Param(key, r.value) in ps
    ensures r.None? ==> forall i :: 0 <= i < |ps| ==> ps[i].key != key
  {
    if ps == [] then None
    else if ps[0].key == key then Some(ps[0].value)
    else Lookup(ps[1..], key)
  }

  /** Looking a key up in a concatenation tries the first part, then the second. */
  lemma {:induction false} LookupAppend(a: seq<Param>, b: seq<Param>, key: string)
    ensures Lookup(a + b, key) == if Lookup(a, key).Some? then Lookup(a, key) else Lookup(b, key)
  {
    if a == [] {
      assert a + b == b;
    } else {
      assert (a + b)[0] == a[0];
      if a[0].key != key {
        assert (a + b)[1..] == a[1..] + b;
        LookupAppend(a[1..], b, key);
        assert Lookup(a + b, key) == Lookup(a[1..] + b, key);
      }
    }
  }

  predicate DistinctKeys(ps: seq<Param>) {
    forall i, j :: 0 <= i < j < |ps| ==> ps[i].key != ps[j].key
  }

  /** The request sent when the page loads or the category changes. */
  function InitialRequest(locate: Locate, category: string, search: string): (r: ListingsRequest)
    ensures r.query.None? <==> locate.NoGeolocation?
    ensures r.query.Some? ==>
      var ps, fp := r.query.value, FilterParams(category, search);
      && |ps| == |fp| + (if locate.Located? then 3 else 0)
      && ps[|ps| - |fp|..] == fp
  {
    match locate
    case NoGeolocation => ListingsRequest(None)
    case Located(lat, lng) =>
      ListingsRequest(Some([Param("lat", lat), Param("lng", lng), Param("radius", "50")] + FilterParams(category, search)))
    case LocateFailed => ListingsRequest(Some(FilterParams(category, search)))
  }

  /** The search form always sends `q`, even when it is empty. */
  function SearchRequest(search: string): (r: ListingsRequest)
    ensures r.query.Some? && Lookup(r.query.value, "q") == Some(search)
    ensures forall p :: p in r.query.value ==> p.key == "q"
  {
    ListingsRequest(Some([Param("q", search)]))
  }

  /** The filter part carries `category` and `q` exactly when they are non-empty, and nothing else. */
  lemma FilterParamsLookup(category: string, search: string)
    ensures var fp := FilterParams(category, search);
      && Lookup(fp, "category") == (if category != "" then Some(category) else None)
      && Lookup(fp, "q") == (if search != "" then Some(search) else None)
      && (forall i :: 0 <= i < |fp| ==> fp[i].key == "category" || fp[i].key == "q")
      && DistinctKeys(fp)
  {
  }

  /** The position part of the geolocated query. */
  lemma PositionParamsLookup(lat: string, lng: string)
    ensures var geo := [Param("lat", lat), Param("lng", lng), Param("radius", "50")];
      && Lookup(geo, "lat") == Some(lat) && Lookup(geo, "lng") == Some(lng) && Lookup(geo, "radius") == Some("50")
      && Lookup(geo, "category") == None && Lookup(geo, "q") == None
  {
    var geo := [Param("lat", lat), Param("lng", lng), Param("radius", "50")];
    assert geo[1..] == [Param("lng", lng), Param("radius", "50")];
    assert geo[1..][1..] == [Param("radius", "50")];
    assert Lookup(geo[1..][1..], "radius") == Some("50");
    assert Lookup(geo[1..], "radius") == Some("50");
  }

  /** The geolocated query: the position and `radius=50` first, then the filter part. */
  lemma GeoParamsLookup(lat: string, lng: string, category: string, search: string)
    ensures var ps := [Param("lat", lat), Param("lng", lng), Param("radius", "50")] + FilterParams(category, search);
      && Lookup(ps, "lat") == Some(lat) && Lookup(ps, "lng") == Some(lng) && Lookup(ps, "radius") == Some("50")
      && Lookup(ps, "category") == Lookup(FilterParams(category, search), "category")
      && Lookup(ps, "q") == Lookup(FilterParams(category, search), "q")
  {
    var fp := FilterParams(category, search);
    var geo := [Param("lat", lat), Param("lng", lng), Param("radius", "50")];
    PositionParamsLookup(lat, lng);
    LookupAppend(geo, fp, "category");
    LookupAppend(geo, fp, "q");
    LookupAppend(geo, fp, "radius");
    LookupAppend(geo, fp, "lat");
    LookupAppend(geo, fp, "lng");
  }

  /** No key of the geolocated query appears twice. */
  lemma GeoParamsDistinct(lat: string, lng: string, category: string, search: string)
    ensures DistinctKeys([Param("lat", lat), Param("lng", lng), Param("radius", "50")] + FilterParams(category, search))
  {
  }

  /**
   * Whenever the page sends a query string, `category` is in it exactly when
   * the category is non-empty and `q` exactly when the search is non-empty,
   * each with the value typed; only the geolocated variant carries
   * `radius=50` and the position; and no key appears twice.
   */
  lemma InitialRequestParams(locate: Locate, category: string, search: string)
    ensures var req := InitialRequest(locate, category, search);
      && (req.query.None? <==> locate.NoGeolocation?)
      && (req.query.Some? ==>
            var ps := req.query.value;
            && Lookup(ps, "category") == (if category != "" then Some(category) else None)
            && Lookup(ps, "q") == (if search != "" then Some(search) else None)
            && DistinctKeys(ps))
      && (locate.Located? ==>
            var ps := req.query.value;
            && Lookup(ps, "radius") == Some("50")
            && Lookup(ps, "lat") == Some(locate.lat) && Lookup(ps, "lng") == Some(locate.lng))
      && (locate.LocateFailed? ==> Lookup(req.query.value, "radius") == None)
  {
    FilterParamsLookup(category, search);
    if locate.Located? {
      GeoParamsLookup(locate.lat, locate.lng, category, search);
      GeoParamsDistinct(locate.lat, locate.lng, category, search);
    }
  }
}
