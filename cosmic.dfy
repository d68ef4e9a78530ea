/** The cosmic template's settings object `CONFIG` and its live-preview
    handler (server/templates/cosmic/config.js): on an `UPDATE_CONFIG`
    message, `CONFIG` is merged field by field under truthiness and array
    guards, and the parts of the page that show those fields are rebuilt. */
module Cosmic {
  import opened Js
  import opened Builder

  // ----- CONFIG -----

  datatype FirstQuestion = FirstQuestion(text: string, yesBtn: string, noBtn: string, secretAnswer: string)
  datatype SecondQuestion = SecondQuestion(text: string, startText: string, nextBtn: string)
  datatype ThirdQuestion = ThirdQuestion(text: string, yesBtn: string, noBtn: string)
  datatype Questions = Questions(first: FirstQuestion, second: SecondQuestion, third: ThirdQuestion)
  datatype LoveLetter = LoveLetter(title: string, message: string)
  datatype Music = Music(enabled: bool, autoplay: bool, musicUrl: string, startText: string, stopText: string, volume: real)
  datatype Gift = Gift(imageUrl: string, message: string)
  datatype Colors = Colors(backgroundStart: string, backgroundEnd: string, buttonBackground: string,
                           buttonHover: string, textColor: string)

  /** `CONFIG`. `senderName` and `partnerName` are not in the literal and
      start undefined. */
  datatype Settings = Settings(
    valentineName: string,
    pageTitle: string,
    floatingEmojis: seq<string>,
    backgroundVideo: string,
    questions: Questions,
    loveLetter: LoveLetter,
    music: Music,
    galleryImages: seq<Option<string>>,
    timeline: seq<TimelineEntry>,
    quiz: Quiz,
    gift: Gift,
    colors: Colors,
    senderName: Option<string>,
    partnerName: Option<string>)

  const Photo := "https://images.unsplash.com/photo-"
  const PhotoQuery := "?w=500&auto=format&fit=crop&q=60&ixlib=rb-4.0.3"

  /** The literal `CONFIG` of the template. */
  const InitialConfig := Settings(
    valentineName := "My Love",
    pageTitle := "Will You Be My Valentine?",
    floatingEmojis := ["\U{2728}", "\U{1F319}", "\U{1FA90}", "\U{1F6F8}", "\U{1F4AB}", "\U{2B50}"],
    backgroundVideo := "",
    questions := Questions(
      FirstQuestion("Do you like me?", "Yes", "No", "I don't like you, I love you! \U{2764}\U{FE0F}"),
      SecondQuestion("How much do you love me?", "This much!", "Next \U{2764}\U{FE0F}"),
      ThirdQuestion("Will you be my Valentine?", "Yes!", "No")),
    loveLetter := LoveLetter(
      "My Universe,",
      "You are my sun, my moon, and all my stars. In this vast infinite universe, finding you was the greatest miracle of my life. Happy Valentine's Day! \U{1FA90}\U{2764}\U{FE0F}"),
    music := Music(
      enabled := true,
      autoplay := true,
      musicUrl := "https://res.cloudinary.com/dncywqfpb/video/upload/v1738399057/music_qzh0xk.mp3",
      startText := "\U{1F3B5} Play Music",
      stopText := "\U{1F507} Stop Music",
      volume := 0.5),
    galleryImages := [
      Some(Photo + "1517841905240-472988babdf9" + PhotoQuery),
      Some(Photo + "1522673607200-1645062ac2d4" + PhotoQuery),
      Some(Photo + "1516589178581-6cd7833ae3b2" + PhotoQuery),
      Some(Photo + "1494790108377-be9c29b29330" + PhotoQuery),
      Some(Photo + "1529333166437-7750a6dd5a70" + PhotoQuery)],
    timeline := [
      TimelineEntry(Some("2023"), Some("Star Collision"), Some("The day our worlds collided.")),
      TimelineEntry(Some("August 2023"), Some("First Orbit"), Some("I was so nervous, but your smile melted the galaxy.")),
      TimelineEntry(Some("Dec 2023"), Some("Space Travel"), Some("Our amazing adventure to the mountains.")),
      TimelineEntry(Some("Today"), Some("Valentine's Day"), Some("Celebrating my love for you!"))],
    quiz := Quiz(
      Some("Where did we orbit for our first date?"),
      ["Coffee Shop", "The Park", "Movie Theater", "Fancy Restaurant"],
      0,
      Some("Correct! You remember! \U{2764}\U{FE0F}")),
    gift := Gift(
      "https://images.unsplash.com/photo-1549465220-1a8b9238cd48?w=500&auto=format&fit=crop&q=60",
      "A cosmic bloom just for you! \U{1F490}"),
    colors := Colors("#0f0c29", "#302b63", "#6c5ce7", "#a29bfe", "#ffffff"),
    senderName := None,
    partnerName := None)

  /** How the handler merges a payload into `CONFIG`: the five scalar fields
      only when truthy (an empty string keeps the old value), `music.enabled`
      from an array `features`, the timeline and gallery only when arrays, and
      the quiz whenever it is truthy. Nothing else is touched. */
  function Merge(c: Settings, p: Payload): (r: Settings)
    ensures r.senderName == (if Truthy(p.senderName) then p.senderName else c.senderName)
    ensures r.partnerName == (if Truthy(p.partnerName) then p.partnerName else c.partnerName)
    ensures r.loveLetter.message == (if Truthy(p.message) then p.message.value else c.loveLetter.message)
    ensures r.music.musicUrl == (if Truthy(p.musicUrl) then p.musicUrl.value else c.music.musicUrl)
    ensures r.gift.imageUrl == (if Truthy(p.giftUrl) then p.giftUrl.value else c.gift.imageUrl)
    ensures r.music.enabled == (if p.features.Some? then "feature_music" in p.features.value else c.music.enabled)
    ensures r.timeline == (if p.timeline.Some? then p.timeline.value else c.timeline)
    ensures r.galleryImages == (if p.gallery.Some? then p.gallery.value else c.galleryImages)
    ensures r.quiz == (if p.quiz.Some? then p.quiz.value else c.quiz)
  {
    var letter := LoveLetter(c.loveLetter.title, if Truthy(p.message) then p.message.value else c.loveLetter.message);
    var music := Music(
      if p.features.Some? then "feature_music" in p.features.value else c.music.enabled,
      c.music.autoplay,
      if Truthy(p.musicUrl) then p.musicUrl.value else c.music.musicUrl,
      c.music.startText, c.music.stopText, c.music.volume);
    var gift := Gift(if Truthy(p.giftUrl) then p.giftUrl.value else c.gift.imageUrl, c.gift.message);
    Settings(
      c.valentineName, c.pageTitle, c.floatingEmojis, c.backgroundVideo, c.questions, letter, music,
      if p.gallery.Some? then p.gallery.value else c.galleryImages,
      if p.timeline.Some? then p.timeline.value else c.timeline,
      if p.quiz.Some? then p.quiz.value else c.quiz,
      gift, c.colors,
      if Truthy(p.senderName) then p.senderName else c.senderName,
      if Truthy(p.partnerName) then p.partnerName else c.partnerName)
  }

  /** The fields no message can change. */
  predicate SameFixedFields(a: Settings, b: Settings)
  {
    && a.valentineName == b.valentineName && a.pageTitle == b.pageTitle
    && a.floatingEmojis == b.floatingEmojis && a.backgroundVideo == b.backgroundVideo
    && a.questions == b.questions && a.colors == b.colors
    && a.loveLetter.title == b.loveLetter.title && a.gift.message == b.gift.message
    && a.music.autoplay == b.music.autoplay && a.music.startText == b.music.startText
    && a.music.stopText == b.music.stopText && a.music.volume == b.music.volume
  }

  lemma MergeKeepsFixedFields(c: Settings, p: Payload)
    ensures SameFixedFields(Merge(c, p), c)
  {
  }

  /** The countdown is never stored in `CONFIG`. */
  lemma MergeIgnoresCountdown(c: Settings, p: Payload, countdown: Option<Countdown>)
    ensures Merge(c, p.(countdown := countdown)) == Merge(c, p)
  {
  }

  /** Every update is a plain assignment, so merging the same payload again
      changes nothing. */
  lemma MergeIdempotent(c: Settings, p: Payload)
    ensures Merge(Merge(c, p), p) == Merge(c, p)
  {
  }

  /** With an array `features`, music is on exactly when `feature_music` is
      listed; without one it stays as it was. */
  lemma MusicFollowsFeatures(c: Settings, p: Payload)
    ensures p.features.Some? ==> (Merge(c, p).music.enabled <==> "feature_music" in p.features.value)
    ensures p.features.None? ==> Merge(c, p).music.enabled == c.music.enabled
  {
  }

  // ----- the page -----

  /** A container element: whether it is shown (`offsetParent !== null`) and
      its children. */
  datatype Panel<T> = Panel(visible: bool, children: seq<T>)

  datatype Image = Image(src: string, alt: string)

  /** What the handler reads and writes: `CONFIG` and the page elements.
      None means the element is not in the document. */
  datatype PageState = PageState(
    config: Settings,
    title: string,                   // document.title
    timeline: Option<Panel<string>>, // #timeline, each child by its markup
    quizQuestion: Option<string>,    // #quiz-question text
    quizOptions: Option<Panel<string>>, // #quiz-options, each button by its label
    gallery: Option<Panel<Image>>,   // #gallery
    countdown: Option<string>,       // #countdown-container markup
    letterTitle: Option<string>,     // #letter-title text
    letterBody: Option<string>,      // #letter-body text
    senderLabel: Option<string>)     // #sender-name text

  predicate Visible<T>(panel: Option<Panel<T>>)
  {
    panel.Some? && panel.value.visible
  }

  /** The markup of one `.timeline-item`. */
  function TimelineCard(e: TimelineEntry): string
  {
    "\n" + Spaces(24) + "<div class=\"timeline-date\">" + Text(e.date) + "</div>\n"
    + Spaces(24) + "<h3>" + Text(e.title) + "</h3>\n"
    + Spaces(24) + "<p>" + Text(e.description) + "</p>\n" + Spaces(20)
  }

  function TimelineCards(ts: seq<TimelineEntry>): (r: seq<string>)
    ensures |r| == |ts| && forall i :: 0 <= i < |ts| ==> r[i] == TimelineCard(ts[i])
  {
    seq(|ts|, i requires 0 <= i < |ts| => TimelineCard(ts[i]))
  }

  function GalleryImages(urls: seq<Option<string>>): (r: seq<Image>)
    ensures |r| == |urls| && forall i :: 0 <= i < |urls| ==> r[i] == Image(Text(urls[i]), MemoryAlt)
  {
    seq(|urls|, i requires 0 <= i < |urls| => Image(Text(urls[i]), MemoryAlt))
  }

  const MemoryAlt := "Memory"
  const CountdownTargetOpen := "<div style=\"font-size:1.2rem; color:#d63031; font-weight:bold; margin-top:1rem;\">Target: "
  const CountdownActiveLine := "<div style=\"font-size:0.9rem; opacity:0.7;\">(Countdown Active)</div>"

  /** The countdown markup: the target date when enabled, nothing otherwise. */
  function CountdownHtml(c: Countdown): string
  {
    if c.enabled then
      "\n" + Spaces(20)
      + CountdownTargetOpen
      + Text(c.date) + "</div>\n"
      + Spaces(20) + CountdownActiveLine + "\n" + Spaces(16)
    else ""
  }

  /** The timeline, rebuilt from the stored entries only while shown. */
  function TimelineAfter(t: Option<Panel<string>>, p: Payload, c: Settings): Option<Panel<string>>
  {
    if p.timeline.Some? && Visible(t) then Some(Panel(true, TimelineCards(c.timeline))) else t
  }

  /** The quiz question, set whenever its element exists. */
  function QuestionAfter(q: Option<string>, p: Payload, c: Settings): Option<string>
  {
    if p.quiz.Some? && q.Some? then Some(TextContent(c.quiz.question)) else q
  }

  /** The quiz buttons, one per option, rebuilt only while shown. */
  function OptionsAfter(o: Option<Panel<string>>, p: Payload, c: Settings): Option<Panel<string>>
  {
    if p.quiz.Some? && Visible(o) then Some(Panel(true, c.quiz.options)) else o
  }

  /** The gallery, rebuilt whenever it exists; it keeps its visibility. */
  function GalleryAfter(g: Option<Panel<Image>>, p: Payload, c: Settings): Option<Panel<Image>>
  {
    if p.gallery.Some? && g.Some? then Some(Panel(g.value.visible, GalleryImages(c.galleryImages))) else g
  }

  /** The countdown container; a missing one is created, and stays outside
      the document when there is no `.paper` element. */
  function CountdownAfter(d: Option<string>, p: Payload, hasPaper: bool): Option<string>
  {
    if p.countdown.Some? && (d.Some? || hasPaper) then Some(CountdownHtml(p.countdown.value)) else d
  }

  /** The whole effect of one message on the page. `hasPaper` says whether a
      `.paper` element exists to hold a newly created countdown container; a
      container created without one stays outside the document. */
  function Handle(s: PageState, msg: Message, hasPaper: bool): (r: PageState)
    ensures msg.kind != UpdateConfig ==> r == s
    ensures msg.kind == UpdateConfig ==> r.config == Merge(s.config, msg.payload)
  {
    if msg.kind != UpdateConfig then s
    else
      var p := msg.payload;
      var c := Merge(s.config, p);
      PageState(
        config := c,
        title := if Truthy(p.partnerName) then "For " + p.partnerName.value else s.title,
        timeline := TimelineAfter(s.timeline, p, c),
        quizQuestion := QuestionAfter(s.quizQuestion, p, c),
        quizOptions := OptionsAfter(s.quizOptions, p, c),
        gallery := GalleryAfter(s.gallery, p, c),
        countdown := CountdownAfter(s.countdown, p, hasPaper),
        letterTitle :=
          if Truthy(p.partnerName) && s.letterTitle.Some? then Some("My Dearest " + p.partnerName.value + ",")
          else s.letterTitle,
        letterBody := if s.letterBody.Some? && Truthy(p.message) then Some(p.message.value) else s.letterBody,
        senderLabel := if s.senderLabel.Some? && Truthy(c.senderName) then Some(c.senderName.value) else s.senderLabel)
  }

  /** Handling the same message twice leaves the page as handling it once. */
  lemma HandleIdempotent(s: PageState, msg: Message, hasPaper: bool)
    ensures Handle(Handle(s, msg, hasPaper), msg, hasPaper) == Handle(s, msg, hasPaper)
  {
    if msg.kind == UpdateConfig {
      MergeIdempotent(s.config, msg.payload);
    }
  }

  /** The timeline and the quiz buttons are rebuilt only while visible; a
      hidden one keeps its old children even though `CONFIG` changed. The
      gallery is rebuilt whenever it exists, shown or not. */
  lemma VisibilityGating(s: PageState, msg: Message, hasPaper: bool)
    requires msg.kind == UpdateConfig
    ensures var r := Handle(s, msg, hasPaper);
      && (s.timeline.Some? && !s.timeline.value.visible ==> r.timeline == s.timeline)
      && (s.quizOptions.Some? && !s.quizOptions.value.visible ==> r.quizOptions == s.quizOptions)
      && (msg.payload.timeline.Some? && Visible(s.timeline) ==>
            r.timeline.value.children == TimelineCards(msg.payload.timeline.value))
      && (msg.payload.gallery.Some? && s.gallery.Some? ==>
            r.gallery.value.children == GalleryImages(msg.payload.gallery.value) &&
            r.gallery.value.visible == s.gallery.value.visible)
  {
  }

  /** A partner name retitles the page and the letter. */
  lemma PartnerTitles(s: PageState, msg: Message, hasPaper: bool, name: string)
    requires msg.kind == UpdateConfig && msg.payload.partnerName == Some(name) && name != ""
    ensures Handle(s, msg, hasPaper).title == "For " + name
    ensures s.letterTitle.Some? ==> Handle(s, msg, hasPaper).letterTitle == Some("My Dearest " + name + ",")
  {
  }

  /** The sender label shows the stored sender name, which may come from an
      earlier message. */
  lemma SenderFromEarlierMessage(s: PageState, msg: Message, hasPaper: bool)
    requires msg.kind == UpdateConfig && s.senderLabel.Some?
    requires !Truthy(msg.payload.senderName) && Truthy(s.config.senderName)
    ensures Handle(s, msg, hasPaper).senderLabel == Some(s.config.senderName.value)
  {
  }

  /** The template page: `CONFIG` plus the elements the handler touches. */
  class CosmicPage {
    var config: Settings
    var title: string
    var timeline: Option<Panel<string>>
    var quizQuestion: Option<string>
    var quizOptions: Option<Panel<string>>
    var gallery: Option<Panel<Image>>
    var countdown: Option<string>
    var letterTitle: Option<string>
    var letterBody: Option<string>
    var senderLabel: Option<string>
    /** Whether the page has a `.paper` element. */
    const hasPaper: bool

    function State(): PageState
      reads this
    {
      PageState(config, title, timeline, quizQuestion, quizOptions, gallery, countdown,
                letterTitle, letterBody, senderLabel)
    }

    /** A freshly loaded page: the markup's elements and the literal `CONFIG`. */
    constructor (dom: PageState, hasPaper: bool)
      ensures State() == dom.(config := InitialConfig)
      ensures this.hasPaper == hasPaper
    {
      config := InitialConfig;
      title := dom.title;
      timeline := dom.timeline;
      quizQuestion := dom.quizQuestion;
      quizOptions := dom.quizOptions;
      gallery := dom.gallery;
      countdown := dom.countdown;
      letterTitle := dom.letterTitle;
      letterBody := dom.letterBody;
      senderLabel := dom.senderLabel;
      this.hasPaper := hasPaper;
    }

    /** The `message` listener: merge into `CONFIG`, then refresh each part
        of the page that shows a merged field. */
    method OnMessage(msg: Message)
      modifies this
      ensures State() == Handle(old(State()), msg, hasPaper)
    {
      if msg.kind != UpdateConfig {
        return;
      }
      var p := msg.payload;
      MergeConfig(p);
      RenderTimeline(p);
      RenderQuiz(p);
      RenderGallery(p);
      RenderCountdown(p);
      RenderNames(p);
    }

    /** The assignments to `CONFIG`, in the handler's order. */
    method MergeConfig(p: Payload)
      modifies `config
      ensures config == Merge(old(config), p)
    {
      var sender, partner := config.senderName, config.partnerName;
      var letter, music, gift := config.loveLetter, config.music, config.gift;
      var timeline, quiz, images := config.timeline, config.quiz, config.galleryImages;
      if Truthy(p.senderName) { sender := p.senderName; }
      if Truthy(p.partnerName) { partner := p.partnerName; }
      if Truthy(p.message) { letter := letter.(message := p.message.value); }
      if p.features.Some? { music := music.(enabled := "feature_music" in p.features.value); }
      if Truthy(p.musicUrl) { music := music.(musicUrl := p.musicUrl.value); }
      if Truthy(p.giftUrl) { gift := gift.(imageUrl := p.giftUrl.value); }
      if p.timeline.Some? { timeline := p.timeline.value; }
      if p.quiz.Some? { quiz := p.quiz.value; }
      if p.gallery.Some? { images := p.gallery.value; }
      config := config.(senderName := sender, partnerName := partner, loveLetter := letter, music := music,
                        gift := gift, timeline := timeline, quiz := quiz, galleryImages := images);
    }

    /** One `.timeline-item` per entry of the stored timeline, while shown. */
    method RenderTimeline(p: Payload)
      modifies `timeline
      ensures timeline == TimelineAfter(old(timeline), p, config)
    {
      if p.timeline.Some? && Visible(timeline) {
        var items := config.timeline;
        var children: seq<string> := [];
        for i := 0 to |items|
          invariant |children| == i
          invariant forall k :: 0 <= k < i ==> children[k] == TimelineCard(items[k])
        {
          children := children + [TimelineCard(items[i])];
        }
        assert children == TimelineCards(items);
        timeline := Some(Panel(true, children));
      }
    }

    /** The question text whenever its element exists; one button per option
        while the options are shown. */
    method RenderQuiz(p: Payload)
      modifies `quizQuestion, `quizOptions
      ensures quizQuestion == QuestionAfter(old(quizQuestion), p, config)
      ensures quizOptions == OptionsAfter(old(quizOptions), p, config)
    {
      if p.quiz.Some? {
        if quizQuestion.Some? { quizQuestion := Some(TextContent(config.quiz.question)); }
        if Visible(quizOptions) {
          var options := config.quiz.options;
          var buttons: seq<string> := [];
          for i := 0 to |options|
            invariant buttons == options[..i]
          {
            buttons := buttons + [options[i]];
          }
          assert buttons == options;
          quizOptions := Some(Panel(true, buttons));
        }
      }
    }

    /** One image per stored URL, `alt="Memory"`, whether shown or not. */
    method RenderGallery(p: Payload)
      modifies `gallery
      ensures gallery == GalleryAfter(old(gallery), p, config)
    {
      if p.gallery.Some? && gallery.Some? {
        var urls := config.galleryImages;
        var images: seq<Image> := [];
        for i := 0 to |urls|
          invariant |images| == i
          invariant forall k :: 0 <= k < i ==> images[k] == Image(Text(urls[k]), MemoryAlt)
        {
          images := images + [Image(Text(urls[i]), MemoryAlt)];
        }
        assert images == GalleryImages(urls);
        gallery := Some(Panel(gallery.value.visible, images));
      }
    }

    /** The title, the letter's heading and body, and the sender line. */
    method RenderNames(p: Payload)
      modifies `title, `letterTitle, `letterBody, `senderLabel
      ensures title == (if Truthy(p.partnerName) then "For " + p.partnerName.value else old(title))
      ensures letterTitle == (if Truthy(p.partnerName) && old(letterTitle).Some?
                              then Some("My Dearest " + p.partnerName.value + ",") else old(letterTitle))
      ensures letterBody == (if old(letterBody).Some? && Truthy(p.message) then Some(p.message.value) else old(letterBody))
      ensures senderLabel == (if old(senderLabel).Some? && Truthy(config.senderName)
                              then Some(config.senderName.value) else old(senderLabel))
    {
      if Truthy(p.partnerName) {
        title := "For " + p.partnerName.value;
        if letterTitle.Some? { letterTitle := Some("My Dearest " + p.partnerName.value + ","); }
      }
      if letterBody.Some? && Truthy(p.message) { letterBody := Some(p.message.value); }
      if senderLabel.Some? && Truthy(config.senderName) { senderLabel := Some(config.senderName.value); }
    }

    /** The countdown container, created under `.paper` when missing. */
    method RenderCountdown(p: Payload)
      modifies `countdown
      ensures countdown == CountdownAfter(old(countdown), p, hasPaper)
    {
      if p.countdown.Some? {
        // A new container only enters the document through `.paper`.
        if countdown.Some? || hasPaper {
          countdown := Some(CountdownHtml(p.countdown.value));
        }
      }
    }
  }
}
