/**
 * scripts/head-loader.js: every page loads the shared head template. The
 * page's own stylesheets are taken out, the template is fetched from
 * `baseUrl + "/head.html"` ('..' under /games/, '.' elsewhere), its
 * root-relative paths are prefixed with the base, each of its elements is
 * appended to the head unless the `[attr="value"]` lookup for its href/src
 * finds an element of the document, and the page stylesheets are put back
 * after it. Meanwhile the
 * ad-loader script is appended once.
 */
module HeadLoader {

  /** `Other` is any element without a `src` property: meta, title, style and the like. */
  datatype Tag = Link | Script | Img | Other

  /** The element's `href` attribute, else its `src` attribute, else neither. */
  datatype Url = Href(v: string) | Src(v: string) | NoUrl

  /** An element of the document or of the template: tag, `rel` attribute and URL attribute. */
  datatype Elem = Elem(tag: Tag, rel: string, url: Url)

  /** The attribute name and value `document.querySelector('[attr="value"]')` looks up. */
  datatype Key = Key(attr: string, value: string)

  /** The result of fetching and reading the head template. */
  datatype FetchResult = Fetched(template: seq<Elem>) | Failed

  const GamesSegment: string := "/games/"

  predicate OccursAt(s: string, sub: string, i: int)
  {
    0 <= i <= |s| - |sub| && s[i..i + |sub|] == sub
  }

  /** `s.includes(sub)`. */
  predicate Contains(s: string, sub: string)
  {
    exists i :: 0 <= i <= |s| - |sub| && OccursAt(s, sub, i)
  }

  /** `baseUrl`: '..' for a page whose path contains '/games/', '.' for any other. */
  function BaseUrl(pathname: string): (base: string)
    ensures base == ".." <==> Contains(pathname, GamesSegment)
    ensures base == "." <==> !Contains(pathname, GamesSegment)
  {
    if Contains(pathname, GamesSegment) then ".." else "."
  }

  lemma GamePageUsesParent(rest: string)
    ensures BaseUrl("/games/" + rest) == ".."
  {
    var s := "/games/" + rest;
    assert OccursAt(s, GamesSegment, 0);
  }

  /** A path too short to hold '/games/', such as the site root '/', uses '.'. */
  lemma ShortPathUsesDot(pathname: string)
    requires |pathname| < |GamesSegment|
    ensures BaseUrl(pathname) == "."
  {
  }

  /** The element carries an `href` or `src` attribute. */
  predicate HasUrl(e: Elem) { !e.url.NoUrl? }

  /**
   * The lookup of the insert loop: `el.hasAttribute('href') ? 'href' : 'src'`
   * and `el[attr]`. Without either attribute, `el.src` is "" on a script or
   * an img, and undefined on any other element, which the selector spells
   * "undefined".
   */
  function KeyOf(e: Elem): Key
  {
    match e.url
    case Href(v) => Key("href", v)
    case Src(v) => Key("src", v)
    case NoUrl => if e.tag == Script || e.tag == Img then Key("src", "") else Key("src", "undefined")
  }

  /** The elements `link[href], script[src], img[src]` whose paths get rewritten. */
  predicate Rewritable(e: Elem)
  {
    (e.tag == Link && e.url.Href?) || ((e.tag == Script || e.tag == Img) && e.url.Src?)
  }

  predicate RootRelative(v: string) { 0 < |v| && v[0] == '/' }

  /** The path fix: a rewritable element's URL that starts with '/' gets `base` in front; nothing else changes. */
  function Rewrite(base: string, e: Elem): (r: Elem)
    ensures r.tag == e.tag && r.rel == e.rel
    ensures Rewritable(e) && RootRelative(e.url.v) ==>
      !r.url.NoUrl? && r.url.v == base + e.url.v && r.url.Href? == e.url.Href?
    ensures !(Rewritable(e) && RootRelative(e.url.v)) ==> r == e
  {
    if Rewritable(e) && RootRelative(e.url.v) then
      e.(url := if e.url.Href? then Href(base + e.url.v) else Src(base + e.url.v))
    else e
  }

  /** With a base of '.' or '..', a rewritten path no longer starts with '/', so rewriting twice changes nothing more. */
  lemma RewriteIdempotent(base: string, e: Elem)
    requires base == "." || base == ".."
    ensures Rewrite(base, Rewrite(base, e)) == Rewrite(base, e)
  {
    var r := Rewrite(base, e);
    if Rewritable(e) && RootRelative(e.url.v) {
      assert r.url.v[0] == '.';
    }
  }

  /** The template after the path fix: each element rewritten in place. */
  function Rewritten(base: string, template: seq<Elem>): seq<Elem>
  {
    seq(|template|, k requires 0 <= k < |template| => Rewrite(base, template[k]))
  }

  /**
   * With a base of '.' or '..', the fixed template has no `link[href]`,
   * `script[src]` or `img[src]` left whose path starts with '/', and every
   * other element is as it was.
   */
  lemma RewrittenHasNoRootPaths(base: string, template: seq<Elem>)
    requires base == "." || base == ".."
    ensures forall k :: 0 <= k < |template| && Rewritable(Rewritten(base, template)[k]) ==>
      !RootRelative(Rewritten(base, template)[k].url.v)
    ensures forall k :: 0 <= k < |template| && !Rewritable(template[k]) ==> Rewritten(base, template)[k] == template[k]
  {
    var r := Rewritten(base, template);
    forall k | 0 <= k < |template| && Rewritable(r[k]) ensures !RootRelative(r[k].url.v) {
      if Rewritable(template[k]) && RootRelative(template[k].url.v) {
        assert r[k].url.v[0] == '.';
      }
    }
  }

  /** The path-fixing loop: every template element, in order, gets its root-relative path prefixed. */
  method RewritePaths(base: string, template: seq<Elem>) returns (fixed: seq<Elem>)
    ensures fixed == Rewritten(base, template)
  {
    fixed := template;
    for i := 0 to |template|
      invariant |fixed| == |template|
      invariant forall k :: 0 <= k < i ==> fixed[k] == Rewrite(base, template[k])
      invariant forall k :: i <= k < |template| ==> fixed[k] == template[k]
    {
      fixed := fixed[i := Rewrite(base, fixed[i])];
    }
  }

  /** The key an element carries: its href/src attribute and value, if it has one. */
  function Carried(e: Elem): set<Key>
  {
    if HasUrl(e) then {KeyOf(e)} else {}
  }

  /** The attribute values the document's elements carry, which `[attr="value"]` selectors can match. */
  function Keys(s: seq<Elem>): (ks: set<Key>)
    ensures forall e :: e in s && HasUrl(e) ==> KeyOf(e) in ks
  {
    set e | e in s && HasUrl(e) :: KeyOf(e)
  }

  lemma KeysAppend(a: seq<Elem>, b: seq<Elem>)
    ensures Keys(a + b) == Keys(a) + Keys(b)
  {
    assert forall e :: e in a + b <==> e in a || e in b;
  }

  lemma KeysOne(e: Elem)
    ensures Keys([e]) == Carried(e)
  {
    assert forall x :: x in [e] <==> x == e;
  }

  /** Appending `e` to the head adds the key `e` carries, if any, to the document's keys. */
  lemma KeysInsert(head: seq<Elem>, e: Elem, body: seq<Elem>)
    ensures Keys(head + [e] + body) == Keys(head + body) + Carried(e)
  {
    KeysAppend(head, body);
    KeysAppend(head + [e], body);
    KeysAppend(head, [e]);
    KeysOne(e);
  }

  /**
   * The template elements the insert loop appends, in order: each one whose
   * lookup key is not among `present`, the keys the document carries so far
   * (earlier appended template elements included).
   */
  function Admitted(present: set<Key>, template: seq<Elem>): (r: seq<Elem>)
    ensures forall e :: e in r ==> e in template
    decreases |template|
  {
    if |template| == 0 then []
    else if KeyOf(template[0]) in present then Admitted(present, template[1..])
    else [template[0]] + Admitted(present + Carried(template[0]), template[1..])
  }

  /** One pass of the insert loop, at template position `i`. */
  lemma AdmittedStep(present: set<Key>, template: seq<Elem>, i: nat)
    requires i < |template|
    ensures Admitted(present, template[i..]) ==
      if KeyOf(template[i]) in present then Admitted(present, template[i + 1..])
      else [template[i]] + Admitted(present + Carried(template[i]), template[i + 1..])
  {
    assert template[i..][0] == template[i] && template[i..][1..] == template[i + 1..];
  }

  /**
   * No appended element's lookup matches the document as it was, and no
   * appended element that carries href/src is followed by another one with
   * the same lookup.
   */
  lemma {:induction false} AdmittedFresh(present: set<Key>, template: seq<Elem>)
    ensures forall e :: e in Admitted(present, template) ==> KeyOf(e) !in present
    ensures forall i, j :: 0 <= i < j < |Admitted(present, template)| && HasUrl(Admitted(present, template)[i]) ==>
      KeyOf(Admitted(present, template)[i]) != KeyOf(Admitted(present, template)[j])
    decreases |template|
  {
    if 0 < |template| {
      var t := template[0];
      if KeyOf(t) in present {
        AdmittedFresh(present, template[1..]);
      } else {
        var more := present + Carried(t);
        AdmittedFresh(more, template[1..]);
        var r := Admitted(present, template);
        assert r == [t] + Admitted(more, template[1..]);
        forall i, j | 0 <= i < j < |r| && HasUrl(r[i]) ensures KeyOf(r[i]) != KeyOf(r[j]) {
          assert r[j] in Admitted(more, template[1..]);
        }
      }
    }
  }

  /** Afterwards the document carries the href/src of every template element that has one: skipped ones were already there. */
  lemma {:induction false} AdmittedCovers(present: set<Key>, template: seq<Elem>)
    ensures forall e :: e in template && HasUrl(e) ==> KeyOf(e) in present + Keys(Admitted(present, template))
    decreases |template|
  {
    if 0 < |template| {
      var t := template[0];
      var more := if KeyOf(t) in present then present else present + Carried(t);
      AdmittedCovers(more, template[1..]);
      var r := Admitted(present, template);
      if KeyOf(t) in present {
        assert r == Admitted(more, template[1..]);
      } else {
        assert r == [t] + Admitted(more, template[1..]);
        KeysAppend([t], Admitted(more, template[1..]));
        KeysOne(t);
      }
      forall e | e in template && HasUrl(e) ensures KeyOf(e) in present + Keys(r) {
        if e != t {
          assert e in template[1..];
        }
      }
    }
  }

  /** The elements of `s` without href/src, in order. */
  function Urlless(s: seq<Elem>): (r: seq<Elem>)
    ensures forall e :: e in r ==> e in s && !HasUrl(e)
  {
    if |s| == 0 then []
    else (if HasUrl(s[0]) then [] else [s[0]]) + Urlless(s[1..])
  }

  /**
   * Every template element without href/src is appended, in order, as long
   * as no element of the document or of the template carries the value its
   * lookup asks for (`src=""` or `src="undefined"`).
   */
  lemma {:induction false} AdmittedKeepsUrlless(present: set<Key>, template: seq<Elem>)
    requires forall e :: e in template && !HasUrl(e) ==> KeyOf(e) !in present + Keys(template)
    ensures Urlless(Admitted(present, template)) == Urlless(template)
    decreases |template|
  {
    if 0 < |template| {
      var t, rest := template[0], template[1..];
      assert template == [t] + rest;
      KeysAppend([t], rest);
      var more := if KeyOf(t) in present then present else present + Carried(t);
      KeysOne(t);
      AdmittedKeepsUrlless(more, rest);
      var r := Admitted(present, template);
      if KeyOf(t) in present {
        assert r == Admitted(more, rest);
      } else {
        assert r == [t] + Admitted(more, rest);
        assert ([t] + Admitted(more, rest))[1..] == Admitted(more, rest);
      }
    }
  }

  /**
   * The shared head's meta, title and style elements are always appended
   * when nothing on the page carries `src="undefined"`, whatever meta,
   * title or style elements the page already has.
   */
  lemma {:induction false} UrllessTagsAppended(document: seq<Elem>, template: seq<Elem>)
    requires forall e :: e in template ==> e.tag == Other && !HasUrl(e)
    requires Key("src", "undefined") !in Keys(document)
    ensures Admitted(Keys(document), template) == template
    decreases |template|
  {
    if 0 < |template| {
      assert Carried(template[0]) == {};
      UrllessTagsAppended(document, template[1..]);
    }
  }

  /** `link[rel="stylesheet"]`. */
  predicate IsStyle(e: Elem) { e.tag == Link && e.rel == "stylesheet" }

  /** The page stylesheets of `s`, in order. */
  function Styles(s: seq<Elem>): (r: seq<Elem>)
    ensures forall e :: e in r ==> e in s && IsStyle(e)
  {
    if |s| == 0 then []
    else Styles(s[..|s| - 1]) + (if IsStyle(s[|s| - 1]) then [s[|s| - 1]] else [])
  }

  /** The rest of `s`, in order. */
  function Others(s: seq<Elem>): (r: seq<Elem>)
    ensures forall e :: e in r ==> e in s && !IsStyle(e)
  {
    if |s| == 0 then []
    else Others(s[..|s| - 1]) + (if IsStyle(s[|s| - 1]) then [] else [s[|s| - 1]])
  }

  /** Taking the stylesheets out splits the elements in two: nothing is lost or duplicated. */
  lemma {:induction false} StylesPartition(s: seq<Elem>)
    ensures multiset(Styles(s)) + multiset(Others(s)) == multiset(s)
  {
    if 0 < |s| {
      StylesPartition(s[..|s| - 1]);
      assert s == s[..|s| - 1] + [s[|s| - 1]];
    }
  }

  lemma {:induction false} StylesAppend(a: seq<Elem>, b: seq<Elem>)
    ensures Styles(a + b) == Styles(a) + Styles(b)
    decreases |b|
  {
    if 0 < |b| {
      StylesAppend(a, b[..|b| - 1]);
      assert (a + b)[..|a + b| - 1] == a + b[..|b| - 1];
    } else {
      assert a + b == a;
    }
  }

  /** The number of elements of `s` that carry key `k`. */
  function KeyCount(s: seq<Elem>, k: Key): (n: nat)
    ensures n == 0 <==> forall e :: e in s && HasUrl(e) ==> KeyOf(e) != k
  {
    if |s| == 0 then 0
    else KeyCount(s[..|s| - 1], k) + (if HasUrl(s[|s| - 1]) && KeyOf(s[|s| - 1]) == k then 1 else 0)
  }

  lemma {:induction false} KeyCountAppend(a: seq<Elem>, b: seq<Elem>, k: Key)
    ensures KeyCount(a + b, k) == KeyCount(a, k) + KeyCount(b, k)
    decreases |b|
  {
    if 0 < |b| {
      KeyCountAppend(a, b[..|b| - 1], k);
      assert (a + b)[..|a + b| - 1] == a + b[..|b| - 1];
    } else {
      assert a + b == a;
    }
  }

  /** The script element the loader appends: `src` = base + '/scripts/ad-loader.js'. */
  function AdScript(base: string): Elem
  {
    Elem(Script, "", Src(base + "/scripts/ad-loader.js"))
  }

  class Document {
    var head: seq<Elem>
    var body: seq<Elem>

    constructor (head: seq<Elem>, body: seq<Elem>)
      ensures this.head == head && this.body == body
    {
      this.head := head;
      this.body := body;
    }

    /**
     * The synchronous start of `loadHeadContent`: every page stylesheet, in
     * document order, is taken out of the document and kept.
     */
    method TakeStyles() returns (pageStyles: seq<Elem>)
      modifies this
      ensures pageStyles == Styles(old(head + body))
      ensures head == Others(old(head)) && body == Others(old(body))
    {
      var headStyles, kept := Split(head);
      var bodyStyles, keptBody := Split(body);
      StylesAppend(head, body);
      pageStyles := headStyles + bodyStyles;
      head, body := kept, keptBody;
    }

    /** `document.head.appendChild(adScript)`. */
    method AppendAdScript(base: string)
      modifies this`head
      ensures head == old(head) + [AdScript(base)]
    {
      head := head + [AdScript(base)];
    }

    /**
     * The insert loop: each template element, in order, is appended to the
     * head unless its lookup finds an element of the document.
     */
    method AppendTemplate(template: seq<Elem>)
      modifies this`head
      ensures head == old(head) + Admitted(Keys(old(head + body)), template)
    {
      for i := 0 to |template|
        invariant old(head) + Admitted(Keys(old(head + body)), template) == head + Admitted(Keys(head + body), template[i..])
      {
        var t := template[i];
        AdmittedStep(Keys(head + body), template, i);
        if KeyOf(t) !in Keys(head + body) {
          KeysInsert(head, t, body);
          head := head + [t];
        }
      }
    }

    /** The re-add loop: the page stylesheets go back at the end of the head, in their order. */
    method AppendStyles(pageStyles: seq<Elem>)
      modifies this`head
      ensures head == old(head) + pageStyles
    {
      for i := 0 to |pageStyles|
        invariant head == old(head) + pageStyles[..i]
      {
        head := head + [pageStyles[i]];
        assert pageStyles[..i + 1] == pageStyles[..i] + [pageStyles[i]];
      }
      assert pageStyles[..|pageStyles|] == pageStyles;
    }

    /**
     * The rest of `loadHeadContent`, as written: with the template, the
     * paths are fixed, the template elements inserted and the page
     * stylesheets put back; when the fetch fails the error is only logged,
     * and the stylesheets taken out stay out.
     */
    method FinishLoad(base: string, pageStyles: seq<Elem>, result: FetchResult)
      modifies this`head
      ensures result.Fetched? ==>
        head == old(head) + Admitted(Keys(old(head + body)), Rewritten(base, result.template)) + pageStyles
      ensures result.Failed? ==> head == old(head)
    {
      if result.Fetched? {
        var fixed := RewritePaths(base, result.template);
        AppendTemplate(fixed);
        AppendStyles(pageStyles);
      }
    }

    /** `loadHeadContent` with the stylesheets put back on both paths. */
    method FinishLoadRestoring(base: string, pageStyles: seq<Elem>, result: FetchResult)
      modifies this`head
      ensures result.Fetched? ==>
        head == old(head) + Admitted(Keys(old(head + body)), Rewritten(base, result.template)) + pageStyles
      ensures result.Failed? ==> head == old(head) + pageStyles
    {
      if result.Fetched? {
        var fixed := RewritePaths(base, result.template);
        AppendTemplate(fixed);
      }
      AppendStyles(pageStyles);
    }

    /**
     * What runs before the fetch settles (either readiness path): the page
     * stylesheets are taken out and kept, and the ad-loader script is
     * appended to the head.
     */
    method StartLoad(base: string) returns (pageStyles: seq<Elem>)
      modifies this
      ensures pageStyles == Styles(old(head + body))
      ensures head == Others(old(head)) + [AdScript(base)] && body == Others(old(body))
    {
      pageStyles := TakeStyles();
      AppendAdScript(base);
    }

    /**
     * The page start-up as written: the load finishes when the fetch
     * settles. A failed fetch leaves the page without any stylesheet.
     */
    method BootAsWritten(pathname: string, result: FetchResult)
      modifies this
      ensures var base := BaseUrl(pathname);
        result.Fetched? ==>
          head == Others(old(head)) + [AdScript(base)]
            + Admitted(Keys(Others(old(head)) + [AdScript(base)] + Others(old(body))), Rewritten(base, result.template))
            + Styles(old(head + body))
      ensures result.Failed? ==> head == Others(old(head)) + [AdScript(BaseUrl(pathname))]
      ensures body == Others(old(body))
      ensures result.Failed? ==> Styles(head + body) == []
    {
      var base := BaseUrl(pathname);
      var pageStyles := StartLoad(base);
      FinishLoad(base, pageStyles, result);
      if result.Failed? {
        StylesGone(old(head), AdScript(base), old(body));
      }
    }

    /**
     * The page start-up with the stylesheets restored: on both fetch results
     * the page stylesheets end up at the end of the head in their order, and
     * when the document had no ad-loader script, it ends with exactly one.
     */
    method Boot(pathname: string, result: FetchResult)
      modifies this
      ensures var base := BaseUrl(pathname);
        result.Fetched? ==>
          head == Others(old(head)) + [AdScript(base)]
            + Admitted(Keys(Others(old(head)) + [AdScript(base)] + Others(old(body))), Rewritten(base, result.template))
            + Styles(old(head + body))
      ensures result.Failed? ==> head == Others(old(head)) + [AdScript(BaseUrl(pathname))] + Styles(old(head + body))
      ensures body == Others(old(body))
      ensures var ad := KeyOf(AdScript(BaseUrl(pathname)));
        KeyCount(old(head + body), ad) == 0 ==> KeyCount(head + body, ad) == 1
    {
      var base := BaseUrl(pathname);
      var pageStyles := StartLoad(base);
      ghost var present := head + body;
      FinishLoadRestoring(base, pageStyles, result);
      ghost var kept := Others(old(head));
      assert forall e :: e in kept || e in pageStyles || e in body ==> e in old(head + body);
      if result.Fetched? {
        var admitted := Admitted(Keys(present), Rewritten(base, result.template));
        AdmittedFresh(Keys(present), Rewritten(base, result.template));
        assert AdScript(base) in present;
        OneAdScript(old(head + body), kept, AdScript(base), admitted, pageStyles, body);
      } else {
        OneAdScript(old(head + body), kept, AdScript(base), [], pageStyles, body);
        assert kept + [AdScript(base)] + [] == kept + [AdScript(base)];
      }
    }
  }

  /**
   * The counting step of the start-up: the elements kept from a document
   * without the ad script, the ad script, template elements whose keys are
   * new, and the page stylesheets hold the ad script's key exactly once.
   */
  lemma OneAdScript(before: seq<Elem>, kept: seq<Elem>, ad: Elem, admitted: seq<Elem>,
                    pageStyles: seq<Elem>, body: seq<Elem>)
    requires HasUrl(ad)
    requires forall e :: e in kept || e in pageStyles || e in body ==> e in before
    requires forall e :: e in admitted ==> KeyOf(e) != KeyOf(ad)
    ensures KeyCount(before, KeyOf(ad)) == 0 ==> KeyCount(kept + [ad] + admitted + pageStyles + body, KeyOf(ad)) == 1
  {
    var k := KeyOf(ad);
    if KeyCount(before, k) == 0 {
      var s1 := kept + [ad];
      assert KeyCount(s1, k) == 1 by {
        assert [ad][..0] == [];
        assert KeyCount([ad], k) == 1;
        KeyCountAppend(kept, [ad], k);
      }
      var s2 := s1 + admitted;
      assert KeyCount(s2, k) == 1 by {
        KeyCountAppend(s1, admitted, k);
      }
      var s3 := s2 + pageStyles;
      assert KeyCount(s3, k) == 1 by {
        KeyCountAppend(s2, pageStyles, k);
      }
      assert KeyCount(s3 + body, k) == 1 by {
        KeyCountAppend(s3, body, k);
      }
    }
  }

  /** One pass over a list of elements, stylesheets to one side and the rest to the other. */
  method Split(s: seq<Elem>) returns (styles: seq<Elem>, others: seq<Elem>)
    ensures styles == Styles(s) && others == Others(s)
  {
    styles, others := [], [];
    for i := 0 to |s|
      invariant styles == Styles(s[..i]) && others == Others(s[..i])
    {
      assert s[..i + 1][..i] == s[..i];
      if IsStyle(s[i]) {
        styles := styles + [s[i]];
      } else {
        others := others + [s[i]];
      }
    }
    assert s[..|s|] == s;
  }

  lemma NoStyles(s: seq<Elem>)
    requires forall e :: e in s ==> !IsStyle(e)
    ensures Styles(s) == []
  {
    if Styles(s) != [] {
      assert Styles(s)[0] in Styles(s);
    }
  }

  /** Once the stylesheets are taken out and a script appended, the document has no stylesheet left. */
  lemma StylesGone(head: seq<Elem>, ad: Elem, body: seq<Elem>)
    requires !IsStyle(ad)
    ensures Styles(Others(head) + [ad] + Others(body)) == []
  {
    NoStyles(Others(head) + [ad] + Others(body));
  }

  /**
   * With the loader as written, a page whose only stylesheet is its own
   * loses it when the template cannot be fetched.
   */
  lemma FailedFetchDropsPageStyles(style: Elem)
    requires IsStyle(style)
    ensures Styles([style]) == [style]
    ensures Styles(Others([style]) + [AdScript(".")]) == []
  {
    assert [style][..0] == [];
    NoStyles(Others([style]) + [AdScript(".")]);
  }
}
