/**
 * The `$imgUrl` helper: joins the content server's base URL and an image
 * path with exactly one slash between them.
 */
module ImageUrl {
  import opened Js

  /** The base URL without its trailing slash, if it has one (`slice(0, -1)`). */
  function DropTrailingSlash(base: string): (r: string)
    ensures EndsWith(base, "/") ==> base == r + "/"
    ensures !EndsWith(base, "/") ==> r == base
  {
    if EndsWith(base, "/") then base[..|base| - 1] else base
  }

  /** The image path without its leading slash, if it has one. */
  function DropLeadingSlash(img: string): (r: string)
    ensures StartsWith(img, "/") ==> img == "/" + r
    ensures !StartsWith(img, "/") ==> r == img
  {
    if StartsWith(img, "/") then img[1..] else img
  }

  /**
   * `imgUrl(img)` with the configured base URL `base`; `None` stands for a
   * null or undefined path.
   */
  function ImgUrl(base: string, img: Option<string>): (r: string)
    ensures r == "" <==> !Present(img)
  {
    if !Present(img) then ""
    else if StartsWith(img.value, "/") && EndsWith(base, "/") then base[..|base| - 1] + img.value
    else if !StartsWith(img.value, "/") && !EndsWith(base, "/") then base + "/" + img.value
    else base + img.value
  }

  /**
   * Whatever slashes the two halves bring, the result is the base without its
   * trailing slash, one slash, and the path without its leading slash.
   */
  lemma ImgUrlOneSlash(base: string, img: string)
    requires img != ""
    ensures ImgUrl(base, Some(img)) == DropTrailingSlash(base) + "/" + DropLeadingSlash(img)
  {
    var b := DropTrailingSlash(base);
    var p := DropLeadingSlash(img);
    if StartsWith(img, "/") && EndsWith(base, "/") {
      assert base[..|base| - 1] == b;
    } else if StartsWith(img, "/") {
      assert base + img == b + "/" + p;
    } else if EndsWith(base, "/") {
      assert base + img == b + "/" + p;
    }
  }

  /** The result begins with the base URL up to its trailing slash and ends with the path. */
  lemma ImgUrlParts(base: string, img: string)
    requires img != ""
    ensures StartsWith(ImgUrl(base, Some(img)), DropTrailingSlash(base))
    ensures EndsWith(ImgUrl(base, Some(img)), DropLeadingSlash(img))
  {
    ImgUrlOneSlash(base, img);
    var b := DropTrailingSlash(base);
    var p := DropLeadingSlash(img);
    var r := b + "/" + p;
    assert r[..|b|] == b;
    assert r[|r| - |p|..] == p;
  }

  /**
   * All four slash combinations give the same URL: for a base without a
   * trailing slash and a non-empty path without a leading slash, adding a
   * slash to either side, both or neither changes nothing.
   */
  lemma ImgUrlSlashCombinations(b: string, p: string)
    requires !EndsWith(b, "/") && p != "" && !StartsWith(p, "/")
    ensures ImgUrl(b, Some(p)) == b + "/" + p
    ensures ImgUrl(b + "/", Some(p)) == b + "/" + p
    ensures ImgUrl(b, Some("/" + p)) == b + "/" + p
    ensures ImgUrl(b + "/", Some("/" + p)) == b + "/" + p
  {
    SlashedBase(b);
    SlashedPath(p);
    ImgUrlOneSlash(b, p);
    ImgUrlOneSlash(b + "/", p);
    ImgUrlOneSlash(b, "/" + p);
    ImgUrlOneSlash(b + "/", "/" + p);
  }

  lemma SlashedBase(b: string)
    ensures DropTrailingSlash(b + "/") == b
  {
    var s := b + "/";
    assert s[|s| - 1..] == "/";
    assert s[..|s| - 1] == b;
  }

  lemma SlashedPath(p: string)
    ensures DropLeadingSlash("/" + p) == p
  {
    var s := "/" + p;
    assert s[..1] == "/";
    assert s[1..] == p;
  }
}
