/** The redirect URIs that a provider carries as raw JSON, in either of two shapes. */
module RedirectUris {

  /** As much of a JSON value as decoding looks at; an object is seen through its "url" field. */
  datatype Json =
    | Missing
    | Malformed
    | Null
    | Scalar
    | Text(text: string)
    | Array(items: seq<Json>)
    | Object(url: Url)

  datatype Url = NoUrl | UrlText(text: string) | UrlOfOtherType

  /** Decoding one element into a struct with a string field `url`; null leaves it empty. */
  predicate DecodesAsObject(j: Json) {
    j.Null? || (j.Object? && !j.url.UrlOfOtherType?)
  }

  function UrlOf(j: Json): string
    requires DecodesAsObject(j)
  {
    if j.Object? && j.url.UrlText? then j.url.text else ""
  }

  /** Decoding one element into a string; null leaves it empty. */
  predicate DecodesAsText(j: Json) {
    j.Null? || j.Text?
  }

  function TextOf(j: Json): string
    requires DecodesAsText(j)
  {
    if j.Text? then j.text else ""
  }

  function NonEmpty(s: seq<string>): seq<string> {
    if s == [] then []
    else NonEmpty(s[..|s| - 1]) + (if s[|s| - 1] != "" then [s[|s| - 1]] else [])
  }

  function Urls(items: seq<Json>): (r: seq<string>)
    requires forall j | j in items :: DecodesAsObject(j)
    ensures |r| == |items|
  {
    seq(|items|, i requires 0 <= i < |items| => UrlOf(items[i]))
  }

  function Texts(items: seq<Json>): (r: seq<string>)
    requires forall j | j in items :: DecodesAsText(j)
    ensures |r| == |items|
  {
    seq(|items|, i requires 0 <= i < |items| => TextOf(items[i]))
  }

  /** What the two decoding attempts amount to. */
  function KeptUris(raw: Json): seq<string> {
    if !raw.Array? then []
    else if raw.items != [] && forall j | j in raw.items :: DecodesAsObject(j) then NonEmpty(Urls(raw.items))
    else if forall j | j in raw.items :: DecodesAsText(j) then Texts(raw.items)
    else []
  }

  method ParseRedirectUris(raw: Json) returns (uris: seq<string>)
    ensures uris == KeptUris(raw)
  {
    uris := [];
    if raw.Array? {
      var items := raw.items;
      if items != [] && forall j | j in items :: DecodesAsObject(j) {
        ghost var urls := Urls(items);
        for i := 0 to |items|
          invariant uris == NonEmpty(urls[..i])
        {
          assert urls[..i + 1][..i] == urls[..i];
          if UrlOf(items[i]) != "" {
            uris := uris + [UrlOf(items[i])];
          }
        }
        assert urls[..|items|] == urls;
      } else if forall j | j in items :: DecodesAsText(j) {
        uris := Texts(items);
      }
    }
  }

  /** From the structured shape no empty URI is kept and no other is lost or reordered. */
  lemma {:induction false} NonEmptyKeepsOrder(s: seq<string>)
    ensures forall u :: u in NonEmpty(s) <==> u in s && u != ""
    ensures forall t :: NonEmpty(s + t) == NonEmpty(s) + NonEmpty(t)
  {
    if s != [] {
      NonEmptyKeepsOrder(s[..|s| - 1]);
      assert s == s[..|s| - 1] + [s[|s| - 1]];
    }
    forall t ensures NonEmpty(s + t) == NonEmpty(s) + NonEmpty(t) {
      NonEmptySplits(s, t);
    }
  }

  lemma {:induction false} NonEmptySplits(s: seq<string>, t: seq<string>)
    ensures NonEmpty(s + t) == NonEmpty(s) + NonEmpty(t)
  {
    if t == [] {
      assert s + t == s;
    } else {
      NonEmptySplits(s, t[..|t| - 1]);
      assert (s + t)[..|s + t| - 1] == s + t[..|t| - 1];
    }
  }

  /** The first element with a URL. */
  ghost predicate IsFirstUrl(items: seq<Json>, i: int)
    requires forall j | j in items :: DecodesAsObject(j)
  {
    0 <= i < |items| && UrlOf(items[i]) != "" && forall j :: 0 <= j < i ==> UrlOf(items[j]) == ""
  }

  lemma {:induction false} NoneKept(s: seq<string>)
    requires forall j :: 0 <= j < |s| ==> s[j] == ""
    ensures NonEmpty(s) == []
  {
    if s != [] { NoneKept(s[..|s| - 1]); }
  }

  lemma {:induction false} FirstNonEmpty(s: seq<string>, i: nat)
    requires i < |s| && s[i] != "" && forall j :: 0 <= j < i ==> s[j] == ""
    ensures NonEmpty(s) != [] && NonEmpty(s)[0] == s[i]
  {
    if i == |s| - 1 {
      NoneKept(s[..i]);
    } else {
      FirstNonEmpty(s[..|s| - 1], i);
    }
  }

  /** The first URI that is kept comes from the first element with a URL. */
  lemma {:induction false} FirstKeptUri(items: seq<Json>, i: nat)
    requires forall j | j in items :: DecodesAsObject(j)
    requires IsFirstUrl(items, i)
    ensures KeptUris(Array(items)) != [] && KeptUris(Array(items))[0] == UrlOf(items[i])
  {
    hide NonEmpty, DecodesAsObject;
    FirstNonEmpty(Urls(items), i);
  }

  /** From an array of objects, a URI is kept exactly when it is some element's URL and not empty. */
  lemma {:induction false} ObjectsKeepTheirUrls(items: seq<Json>, uri: string)
    requires forall j | j in items :: DecodesAsObject(j)
    ensures uri in KeptUris(Array(items)) <==> uri != "" && exists i :: 0 <= i < |items| && UrlOf(items[i]) == uri
  {
    hide NonEmpty, DecodesAsObject;
    var urls := Urls(items);
    NonEmptyKeepsOrder(urls);
    if items != [] {
      assert forall i :: 0 <= i < |items| ==> urls[i] == UrlOf(items[i]) && urls[i] in urls;
    }
  }

  /** From an array with a string and otherwise strings and nulls, every element is kept, the empty ones too. */
  lemma {:induction false} TextsAreKept(items: seq<Json>)
    requires exists i :: 0 <= i < |items| && items[i].Text?
    requires forall i :: 0 <= i < |items| ==> items[i].Text? || items[i].Null?
    ensures |KeptUris(Array(items))| == |items|
    ensures forall i :: 0 <= i < |items| ==> KeptUris(Array(items))[i] == if items[i].Text? then items[i].text else ""
  {
    var i :| 0 <= i < |items| && items[i].Text?;
    assert items[i] in items && !DecodesAsObject(items[i]);
  }

  /** From anything else nothing is kept. */
  lemma {:induction false} OthersKeepNothing(raw: Json)
    requires raw.Array? ==>
               && (exists j :: j in raw.items && !DecodesAsObject(j))
               && (exists j :: j in raw.items && !DecodesAsText(j))
    ensures KeptUris(raw) == []
  {
  }
}
