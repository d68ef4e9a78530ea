/** The universal features script (public/universal-features.js): it makes
    sure the page has a `#universal-features` container, renders the
    timeline, gallery and gift sections into it, keeps a single floating
    music player at the end of the body, and re-renders on every
    `UPDATE_CONFIG` message. The body is modelled as its flat list of
    top-level elements. */
module UniversalFeatures {
  import opened Js
  import opened Builder
  import opened Queries

  const ContainerId := "universal-features"
  const PlayerId := "u-audio-player"

  // ----- the sections' markup -----

  const StoryOpen := "<div class=\"u-section-title\">Our Story</div><div class=\"u-timeline\">"
  const MemoriesOpen := "<div class=\"u-section-title\">Memories</div><div class=\"u-gallery-grid\">"
  const SectionClose := "</div>"
  const GiftTitle := "<div class=\"u-section-title\">A Special Gift</div>"
  const GiftImageStyle := "\" style=\"max-width: 100%; border-radius: 10px; box-shadow: 0 10px 30px rgba(0,0,0,0.3);\" />"
  const PlayerCaption := "<div style=\"font-size: 0.8em; margin-right: 10px;\">Playing our song...</div>"
  const AudioOpen := "<audio controls autoplay loop style=\"height: 20px; max-width: 150px;\">"

  /** One `.u-timeline-item`; an undefined field prints as "undefined". */
  function TimelineItemHtml(t: TimelineEntry): string
  {
    "\n" + Spaces(20) + "<div class=\"u-timeline-item\">\n"
    + Spaces(24) + "<div class=\"u-timeline-dot\"></div>\n"
    + Spaces(24) + "<div class=\"u-timeline-date\">" + Text(t.date) + "</div>\n"
    + Spaces(24) + "<div class=\"u-timeline-title\">" + Text(t.title) + "</div>\n"
    + Spaces(24) + "<div>" + Text(t.description) + "</div>\n"
    + Spaces(20) + "</div>\n" + Spaces(16)
  }

  /** The pieces of `s`, rendered by `f`, one after the other: what a
      `forEach` that appends to a string builds. */
  function ConcatMap<T>(s: seq<T>, f: T -> string): string
  {
    if s == [] then "" else ConcatMap(s[..|s| - 1], f) + f(s[|s| - 1])
  }

  /** One piece per element, in the elements' order. */
  lemma {:induction false} ConcatMapAppend<T>(a: seq<T>, b: seq<T>, f: T -> string)
    ensures ConcatMap(a + b, f) == ConcatMap(a, f) + ConcatMap(b, f)
  {
    if b == [] {
      assert a + b == a;
    } else {
      var init, last := b[..|b| - 1], b[|b| - 1];
      assert (a + b)[..|a + b| - 1] == a + init;
      assert (a + b)[|a + b| - 1] == last;
      ConcatMapAppend(a, init, f);
    }
  }

  lemma ConcatMapSnoc<T>(s: seq<T>, x: T, f: T -> string)
    ensures ConcatMap(s + [x], f) == ConcatMap(s, f) + f(x)
  {
    assert (s + [x])[..|s|] == s;
  }

  /** The items of a timeline, in order. */
  function TimelineItems(ts: seq<TimelineEntry>): string
  {
    ConcatMap(ts, TimelineItemHtml)
  }

  function ImageTag(url: string): string
  {
    "<img src=\"" + url + "\" class=\"u-gallery-img\" />"
  }

  /** The gallery URLs that get an image: the truthy ones, in order. */
  function TruthyUrls(urls: seq<Option<string>>): (r: seq<string>)
    ensures |r| <= |urls|
    ensures forall u :: u in r <==> u != "" && Some(u) in urls
  {
    if urls == [] then []
    else
      var last := urls[|urls| - 1];
      assert forall u :: Some(u) in urls <==> Some(u) in urls[..|urls| - 1] || Some(u) == last;
      TruthyUrls(urls[..|urls| - 1]) + (if Truthy(last) then [last.value] else [])
  }

  function ImageTags(urls: seq<string>): string
  {
    ConcatMap(urls, ImageTag)
  }

  predicate HasTimeline(p: Payload)
  {
    p.timeline.Some? && |p.timeline.value| > 0
  }

  predicate HasGallery(p: Payload)
  {
    p.gallery.Some? && |p.gallery.value| > 0
  }

  function TimelineSection(p: Payload): string
  {
    if HasTimeline(p) then StoryOpen + TimelineItems(p.timeline.value) + SectionClose else ""
  }

  /** The gallery section: its title appears for any non-empty list, even
      one whose every URL is empty. */
  function GallerySection(p: Payload): string
  {
    if HasGallery(p) then MemoriesOpen + ImageTags(TruthyUrls(p.gallery.value)) + SectionClose else ""
  }

  function GiftSection(p: Payload): string
  {
    if Truthy(p.giftUrl) then
      "\n" + Spaces(16) + GiftTitle + "\n"
      + Spaces(16) + "<div class=\"u-gift-section\">\n"
      + Spaces(20) + "<img src=\"" + p.giftUrl.value + GiftImageStyle + "\n"
      + Spaces(16) + "</div>\n" + Spaces(13)
    else ""
  }

  /** What `renderUniversalFeatures` puts into the container. */
  function FeaturesHtml(p: Payload): string
  {
    TimelineSection(p) + GallerySection(p) + GiftSection(p)
  }

  /** The floating player's markup for a song. */
  function PlayerHtml(url: string): string
  {
    "\n" + Spaces(16) + "<div class=\"u-music-icon\">\U{1F3B5}</div>\n"
    + Spaces(16) + PlayerCaption + "\n"
    + Spaces(16) + AudioOpen + "\n"
    + Spaces(20) + "<source src=\"" + url + "\" type=\"audio/mpeg\">\n"
    + Spaces(16) + "</audio>\n" + Spaces(12)
  }

  /** Each section is present exactly when its payload field asks for it. */
  lemma SectionsPresence(p: Payload)
    ensures TimelineSection(p) != "" <==> HasTimeline(p)
    ensures GallerySection(p) != "" <==> HasGallery(p)
    ensures GiftSection(p) != "" <==> Truthy(p.giftUrl)
  {
    if HasTimeline(p) { assert |TimelineSection(p)| >= |StoryOpen|; }
    if HasGallery(p) { assert |GallerySection(p)| >= |MemoriesOpen|; }
  }

  /** Every truthy URL has an image, each at most once per occurrence, and
      no falsy entry does. */
  lemma {:induction false} GalleryImageCount(urls: seq<Option<string>>)
    ensures |TruthyUrls(urls)| == CountTruthy(urls)
  {
    if urls != [] {
      TruthyUrlsCons(urls[0], urls[1..]);
      assert urls == [urls[0]] + urls[1..];
      GalleryImageCount(urls[1..]);
    }
  }

  lemma {:induction false} TruthyUrlsCons(x: Option<string>, rest: seq<Option<string>>)
    ensures TruthyUrls([x] + rest) == (if Truthy(x) then [x.value] else []) + TruthyUrls(rest)
  {
    if rest != [] {
      var init := rest[..|rest| - 1];
      assert ([x] + rest)[..|[x] + rest| - 1] == [x] + init;
      TruthyUrlsCons(x, init);
    }
  }

  function CountTruthy(urls: seq<Option<string>>): nat
  {
    if urls == [] then 0 else CountTruthy(urls[1..]) + (if Truthy(urls[0]) then 1 else 0)
  }

  /** `renderUniversalFeatures`' string building, section by section. */
  method AssembleHtml(p: Payload) returns (html: string)
    ensures html == FeaturesHtml(p)
  {
    var timeline, gallery, gift := "", "", "";
    if p.timeline.Some? && |p.timeline.value| > 0 {
      var items := AppendTimelineItems(p.timeline.value);
      timeline := StoryOpen + items + SectionClose;
    }
    if p.gallery.Some? && |p.gallery.value| > 0 {
      var images := AppendImages(p.gallery.value);
      gallery := MemoriesOpen + images + SectionClose;
    }
    if Truthy(p.giftUrl) {
      gift := GiftSection(p);
    }
    html := timeline + gallery + gift;
  }

  /** The `forEach` over the timeline. */
  method AppendTimelineItems(ts: seq<TimelineEntry>) returns (html: string)
    ensures html == TimelineItems(ts)
  {
    html := "";
    for i := 0 to |ts|
      invariant html == TimelineItems(ts[..i])
    {
      assert ts[..i + 1] == ts[..i] + [ts[i]];
      ConcatMapSnoc(ts[..i], ts[i], TimelineItemHtml);
      html := html + TimelineItemHtml(ts[i]);
    }
    assert ts[..|ts|] == ts;
  }

  /** The `forEach` over the gallery, skipping falsy URLs. */
  method AppendImages(urls: seq<Option<string>>) returns (html: string)
    ensures html == ImageTags(TruthyUrls(urls))
  {
    html := "";
    for i := 0 to |urls|
      invariant html == ImageTags(TruthyUrls(urls[..i]))
    {
      assert urls[..i + 1][..i] == urls[..i];
      ghost var shown := TruthyUrls(urls[..i]);
      if Truthy(urls[i]) {
        assert TruthyUrls(urls[..i + 1]) == shown + [urls[i].value];
        ConcatMapSnoc(shown, urls[i].value, ImageTag);
        html := html + ImageTag(urls[i].value);
      } else {
        assert TruthyUrls(urls[..i + 1]) == shown + [];
        assert shown + [] == shown;
      }
    }
    assert urls[..|urls|] == urls;
  }

  // ----- the body -----

  /** A top-level element of the body: its id and its markup. */
  datatype Element = Element(id: string, html: string)

  /** `getElementById` over the body: the first element with that id. */
  function FirstIndex(b: seq<Element>, id: string): (r: Option<nat>)
    ensures r.Some? ==> r.value < |b| && b[r.value].id == id && forall k :: 0 <= k < r.value ==> b[k].id != id
    ensures r.None? <==> forall k :: 0 <= k < |b| ==> b[k].id != id
  {
    FindOne(b, (e: Element) => e.id == id)
  }

  /** The number of elements with an id. */
  function Count(b: seq<Element>, id: string): nat
  {
    if b == [] then 0 else (if b[0].id == id then 1 else 0) + Count(b[1..], id)
  }

  function RemoveAt(b: seq<Element>, i: nat): seq<Element>
    requires i < |b|
  {
    b[..i] + b[i + 1..]
  }

  predicate HasContainer(b: seq<Element>)
  {
    FirstIndex(b, ContainerId).Some?
  }

  /** The body after the script's first lines: a container is appended when
      none exists. */
  function Installed(b: seq<Element>): (r: seq<Element>)
    ensures HasContainer(r)
  {
    if HasContainer(b) then b
    else
      var r := b + [Element(ContainerId, "")];
      assert r[|b|].id == ContainerId;
      r
  }

  /** With a song, the first player is removed and a new one appended. */
  function WithPlayer(b: seq<Element>, p: Payload): seq<Element>
  {
    if Truthy(p.musicUrl) then
      var kept := if FirstIndex(b, PlayerId).Some? then RemoveAt(b, FirstIndex(b, PlayerId).value) else b;
      kept + [Element(PlayerId, PlayerHtml(p.musicUrl.value))]
    else b
  }

  /** The whole effect of one `renderUniversalFeatures(p)` on the body. */
  function RenderBody(b: seq<Element>, p: Payload): (r: seq<Element>)
    requires HasContainer(b)
    ensures HasContainer(r)
  {
    WithPlayerKeepsContainer(b, p);
    var b1 := WithPlayer(b, p);
    var c := FirstIndex(b1, ContainerId).value;
    var r := b1[c := Element(ContainerId, FeaturesHtml(p))];
    FirstIndexAt(r, ContainerId, c);
    r
  }

  // ----- lemmas about the body -----

  /** The start-up never makes a second container: it adds one only to a
      body without any. */
  lemma InstalledContainerCount(b: seq<Element>)
    ensures Count(Installed(b), ContainerId) == (if Count(b, ContainerId) == 0 then 1 else Count(b, ContainerId))
  {
    CountZero(b, ContainerId);
    if !HasContainer(b) {
      CountAppend(b, [Element(ContainerId, "")], ContainerId);
      assert Count([Element(ContainerId, "")], ContainerId) == 1;
    }
  }

  /** A position whose element has the id and which no earlier one has is
      what `getElementById` finds. */
  lemma FirstIndexAt(b: seq<Element>, id: string, k: nat)
    requires k < |b| && b[k].id == id
    requires forall j :: 0 <= j < k ==> b[j].id != id
    ensures FirstIndex(b, id) == Some(k)
  {
  }

  lemma {:induction false} CountAppend(a: seq<Element>, c: seq<Element>, id: string)
    ensures Count(a + c, id) == Count(a, id) + Count(c, id)
  {
    if a == [] {
      assert a + c == c;
    } else {
      assert (a + c)[0] == a[0];
      assert (a + c)[1..] == a[1..] + c;
      CountAppend(a[1..], c, id);
    }
  }

  /** Removing or replacing one element changes the count by that element only. */
  lemma CountSplit(b: seq<Element>, i: nat, id: string)
    requires i < |b|
    ensures Count(b, id) == Count(b[..i], id) + (if b[i].id == id then 1 else 0) + Count(b[i + 1..], id)
  {
    assert b == b[..i] + ([b[i]] + b[i + 1..]);
    CountAppend(b[..i], [b[i]] + b[i + 1..], id);
    CountAppend([b[i]], b[i + 1..], id);
  }

  lemma CountRemoveAt(b: seq<Element>, i: nat, id: string)
    requires i < |b|
    ensures Count(RemoveAt(b, i), id) == Count(b, id) - (if b[i].id == id then 1 else 0)
  {
    CountSplit(b, i, id);
    CountAppend(b[..i], b[i + 1..], id);
  }

  lemma CountUpdate(b: seq<Element>, i: nat, e: Element, id: string)
    requires i < |b| && e.id == b[i].id
    ensures Count(b[i := e], id) == Count(b, id)
  {
    CountSplit(b, i, id);
    CountSplit(b[i := e], i, id);
    assert b[i := e][..i] == b[..i] && b[i := e][i + 1..] == b[i + 1..];
  }

  lemma CountZero(b: seq<Element>, id: string)
    ensures Count(b, id) == 0 <==> FirstIndex(b, id).None?
  {
    if FirstIndex(b, id).Some? {
      CountSplit(b, FirstIndex(b, id).value, id);
    } else if b != [] {
      CountZero(b[1..], id);
    }
  }

  /** Taking out or adding a player never loses the container. */
  lemma WithPlayerKeepsContainer(b: seq<Element>, p: Payload)
    requires HasContainer(b)
    ensures HasContainer(WithPlayer(b, p))
  {
    if Truthy(p.musicUrl) {
      var c := FirstIndex(b, ContainerId).value;
      var kept := b;
      var k := c;
      if FirstIndex(b, PlayerId).Some? {
        var i := FirstIndex(b, PlayerId).value;
        kept := RemoveAt(b, i);
        k := if i < c then c - 1 else c;
        RemoveAtKeeps(b, i, c);
      }
      var r := kept + [Element(PlayerId, PlayerHtml(p.musicUrl.value))];
      assert r == WithPlayer(b, p);
      assert r[k].id == ContainerId;
    }
  }

  /** Where an element other than the removed one ends up. */
  lemma RemoveAtKeeps(b: seq<Element>, i: nat, c: nat)
    requires i < |b| && c < |b| && c != i
    ensures c < i ==> RemoveAt(b, i)[c] == b[c]
    ensures c > i ==> RemoveAt(b, i)[c - 1] == b[c]
  {
  }

  /** A render with a song leaves exactly one more player than it removed:
      the count stays the same when there was one and becomes one when there
      was none, and the new player is the last element. */
  lemma RenderPlayers(b: seq<Element>, p: Payload)
    requires HasContainer(b) && Truthy(p.musicUrl)
    ensures var r := RenderBody(b, p);
      && Count(r, PlayerId) == (if Count(b, PlayerId) == 0 then 1 else Count(b, PlayerId))
      && r[|r| - 1] == Element(PlayerId, PlayerHtml(p.musicUrl.value))
  {
    WithPlayerKeepsContainer(b, p);
    WithPlayerCount(b, p);
    var b1 := WithPlayer(b, p);
    var c := FirstIndex(b1, ContainerId).value;
    CountUpdate(b1, c, Element(ContainerId, FeaturesHtml(p)), PlayerId);
    assert c != |b1| - 1;
  }

  lemma WithPlayerCount(b: seq<Element>, p: Payload)
    requires Truthy(p.musicUrl)
    ensures var b1 := WithPlayer(b, p);
      && Count(b1, PlayerId) == (if Count(b, PlayerId) == 0 then 1 else Count(b, PlayerId))
      && b1[|b1| - 1] == Element(PlayerId, PlayerHtml(p.musicUrl.value))
  {
    var e := Element(PlayerId, PlayerHtml(p.musicUrl.value));
    var kept := if FirstIndex(b, PlayerId).Some? then RemoveAt(b, FirstIndex(b, PlayerId).value) else b;
    assert WithPlayer(b, p) == kept + [e];
    CountAppend(kept, [e], PlayerId);
    assert Count([e], PlayerId) == 1;
    CountZero(b, PlayerId);
    if FirstIndex(b, PlayerId).Some? {
      CountRemoveAt(b, FirstIndex(b, PlayerId).value, PlayerId);
    }
  }

  /** So the page never shows two players once it has at most one. */
  lemma AtMostOnePlayer(b: seq<Element>, p: Payload)
    requires HasContainer(b) && Count(b, PlayerId) <= 1
    ensures Count(RenderBody(b, p), PlayerId) <= 1
  {
    if Truthy(p.musicUrl) {
      RenderPlayers(b, p);
    } else {
      var c := FirstIndex(b, ContainerId).value;
      CountUpdate(b, c, Element(ContainerId, FeaturesHtml(p)), PlayerId);
    }
  }

  /** Without a song only the container's markup changes. */
  lemma RenderWithoutSong(b: seq<Element>, p: Payload)
    requires HasContainer(b) && !Truthy(p.musicUrl)
    ensures var r := RenderBody(b, p);
      && |r| == |b|
      && (forall k :: 0 <= k < |b| && k != FirstIndex(b, ContainerId).value ==> r[k] == b[k])
      && r[FirstIndex(b, ContainerId).value] == Element(ContainerId, FeaturesHtml(p))
  {
  }

  /** After a render the container holds exactly the new sections. */
  lemma RenderFillsContainer(b: seq<Element>, p: Payload)
    requires HasContainer(b)
    ensures var r := RenderBody(b, p);
      r[FirstIndex(r, ContainerId).value] == Element(ContainerId, FeaturesHtml(p))
  {
    WithPlayerKeepsContainer(b, p);
    var b1 := WithPlayer(b, p);
    var c := FirstIndex(b1, ContainerId).value;
    FirstIndexAt(b1[c := Element(ContainerId, FeaturesHtml(p))], ContainerId, c);
  }

  /** The page as the script finds and changes it. */
  class Page {
    var body: seq<Element>

    ghost predicate Valid()
      reads this
    {
      HasContainer(body)
    }

    /** The script's start-up: the container, then an initial render when
        `window.VALENTINE_CONFIG` is set. */
    constructor (initialBody: seq<Element>, valentineConfig: Option<Payload>)
      ensures Valid()
      ensures body == (if valentineConfig.Some? then RenderBody(Installed(initialBody), valentineConfig.value)
                       else Installed(initialBody))
    {
      var found := Locate(initialBody, ContainerId);
      var installed := initialBody;
      if found.None? {
        installed := initialBody + [Element(ContainerId, "")];
      }
      assert installed == Installed(initialBody);
      body := installed;
      new;
      if valentineConfig.Some? {
        Render(valentineConfig.value);
      }
    }

    /** `renderUniversalFeatures(config)`. */
    method Render(p: Payload)
      requires Valid()
      modifies this
      ensures Valid() && body == RenderBody(old(body), p)
    {
      var html := AssembleHtml(p);
      ghost var start := body;
      if Truthy(p.musicUrl) {
        var existing := Locate(body, PlayerId);
        if existing.Some? {
          body := RemoveAt(body, existing.value);
        }
        body := body + [Element(PlayerId, PlayerHtml(p.musicUrl.value))];
      }
      assert body == WithPlayer(start, p);
      WithPlayerKeepsContainer(start, p);
      var c := Locate(body, ContainerId);
      body := body[c.value := Element(ContainerId, html)];
      assert body == RenderBody(start, p);
    }

    /** The `message` listener: only `UPDATE_CONFIG` re-renders. */
    method OnMessage(msg: Message)
      requires Valid()
      modifies this
      ensures Valid()
      ensures body == if msg.kind == UpdateConfig then RenderBody(old(body), msg.payload) else old(body)
    {
      if msg.kind == UpdateConfig {
        Render(msg.payload);
      }
    }
  }

  /** `getElementById`: a scan from the front of the body. */
  method Locate(b: seq<Element>, id: string) returns (r: Option<nat>)
    ensures r == FirstIndex(b, id)
  {
    var i := 0;
    while i < |b|
      invariant 0 <= i <= |b|
      invariant forall k :: 0 <= k < i ==> b[k].id != id
    {
      if b[i].id == id {
        FirstIndexAt(b, id, i);
        return Some(i);
      }
      i := i + 1;
    }
    return None;
  }
}
