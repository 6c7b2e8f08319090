/**
 * Rendering of alerts into Slack webhook payloads (`sendAlert`).
 *
 * A plain-text alert is one message on its own. A structured alert is one
 * post per session of the time block, in list order, each carrying one
 * attachment built from the session record and its id.
 */
module Alert {
  import opened Wrappers
  import opened Schedule

  /** One labelled field of an attachment; a missing `short` reads as false. */
  datatype Field = Field(title: string, value: string, short: bool)

  /** The Slack attachment object built for one session. */
  datatype Attachment = Attachment(thumbUrl: string, pretext: string, fallback: string,
                                   color: string, title: string, titleLink: string,
                                   text: string, fields: seq<Field>)

  /**
   * The body given to `sendWebhook`: either text alone, or `text: false`
   * with a list of attachments.
   */
  datatype Payload =
    | Plain(text: string)
    | Structured(attachments: seq<Attachment>)

  const ThumbUrl: string := "https://srccon.org/media/img/logo75.png"
  const Pretext: string := ":speech_balloon::tada: A SRCCON 2017 session with live transcription is about to start!"
  const FallbackLead: string := "A SRCCON 2017 session with live transcription is about to start: "
  const Color: string := "#F79797"
  const TranscriptBase: string := "https://aloft.nu/srccon/2017-"
  const ScheduleBase: string := "http://schedule.srccon.org/#_session-"

  /** A Slack link in message markup: `<url|caption>`. */
  function SlackLink(url: string, caption: string): string {
    "<" + url + "|" + caption + ">"
  }

  function TranscriptUrl(id: string): string {
    TranscriptBase + id
  }

  function ScheduleUrl(id: string): string {
    ScheduleBase + id
  }

  /** The attachment of one session, as `sendAlert` builds it. */
  function RenderAttachment(s: Session): (a: Attachment)
    ensures a.thumbUrl == ThumbUrl && a.pretext == Pretext && a.color == Color
    ensures a.title == s.title && a.text == s.description
    ensures a.titleLink == TranscriptUrl(s.id)
    ensures a.fallback == FallbackLead + s.title + ". Open the live transcript at " + a.titleLink + "."
    ensures |a.fields| == 3
    ensures a.fields[0].title == "Facilitator(s)" && a.fields[0].value == s.facilitators
    ensures a.fields[1].title == "Transcript" && a.fields[1].value == SlackLink(a.titleLink, "Open the live transcript")
    ensures a.fields[2].title == "Schedule" && a.fields[2].value == SlackLink(ScheduleUrl(s.id), "Open in SRCCON schedule")
    ensures !a.fields[0].short && a.fields[1].short && a.fields[2].short
  {
    var link := TranscriptUrl(s.id);
    Attachment(
      ThumbUrl, Pretext, FallbackLead + s.title + ". Open the live transcript at " + link + ".",
      Color, s.title, link, s.description,
      [ Field("Facilitator(s)", s.facilitators, false),
        Field("Transcript", SlackLink(link, "Open the live transcript"), true),
        Field("Schedule", SlackLink(ScheduleUrl(s.id), "Open in SRCCON schedule"), true) ])
  }

  // ---------------------------------------------------------------------
  // Reading links back out of the rendered attachment

  /** The first position of `c` in `s`. */
  function IndexOf(s: string, c: char): (r: Option<nat>)
    ensures r.Some? ==> r.value < |s| && s[r.value] == c && c !in s[..r.value]
    ensures r.None? ==> c !in s
  {
    if s == [] then None
    else if s[0] == c then Some(0)
    else match IndexOf(s[1..], c)
      case Some(k) =>
        assert s[..k + 1] == [s[0]] + s[1..][..k];
        Some(k + 1)
      case None => None
  }

  /** The target of a `<url|caption>` or `<url>` link; `None` if `m` is not a link. */
  function LinkTarget(m: string): Option<string> {
    if |m| >= 2 && m[0] == '<' && m[|m| - 1] == '>' then
      var inner := m[1..|m| - 1];
      match IndexOf(inner, '|')
      case Some(k) => Some(inner[..k])
      case None => Some(inner)
    else None
  }

  lemma {:induction false} IndexOfFirst(a: string, c: char, b: string)
    requires c !in a
    ensures IndexOf(a + [c] + b, c) == Some(|a|)
  {
    var s := a + [c] + b;
    assert s[..|a|] == a;
    assert s[|a|] == c;
  }

  /** A link whose url holds no `|` reads back as that url. */
  lemma {:induction false} SlackLinkTarget(url: string, caption: string)
    requires '|' !in url
    ensures LinkTarget(SlackLink(url, caption)) == Some(url)
  {
    var m := SlackLink(url, caption);
    var inner := m[1..|m| - 1];
    assert inner == url + ['|'] + caption;
    IndexOfFirst(url, '|', caption);
    assert inner[..|url|] == url;
  }

  /** The Transcript field links to the same url as the attachment's title. */
  lemma {:induction false} TranscriptFieldLinksToTitle(s: Session)
    requires '|' !in s.id
    ensures LinkTarget(RenderAttachment(s).fields[1].value) == Some(RenderAttachment(s).titleLink)
  {
    assert '|' !in TranscriptUrl(s.id) by {
      assert forall i :: 0 <= i < |TranscriptBase| ==> TranscriptBase[i] != '|';
      assert forall i :: 0 <= i < |s.id| ==> TranscriptUrl(s.id)[|TranscriptBase| + i] == s.id[i];
    }
    SlackLinkTarget(TranscriptUrl(s.id), "Open the live transcript");
  }

  /** The Schedule field links to the session's anchor in the public schedule. */
  lemma {:induction false} ScheduleFieldLinksToSession(s: Session)
    requires '|' !in s.id
    ensures LinkTarget(RenderAttachment(s).fields[2].value) == Some(ScheduleBase + s.id)
  {
    assert '|' !in ScheduleUrl(s.id) by {
      assert forall i :: 0 <= i < |ScheduleBase| ==> ScheduleBase[i] != '|';
      assert forall i :: 0 <= i < |s.id| ==> ScheduleUrl(s.id)[|ScheduleBase| + i] == s.id[i];
    }
    SlackLinkTarget(ScheduleUrl(s.id), "Open in SRCCON schedule");
  }

  /** The deep link is stable: two sessions share it exactly when they share an id. */
  lemma {:induction false} TitleLinkDeterminesId(s1: Session, s2: Session)
    ensures RenderAttachment(s1).titleLink == RenderAttachment(s2).titleLink <==> s1.id == s2.id
  {
    var n := |TranscriptBase|;
    if TranscriptUrl(s1.id) == TranscriptUrl(s2.id) {
      assert s1.id == TranscriptUrl(s1.id)[n..];
      assert s2.id == TranscriptUrl(s2.id)[n..];
    }
  }

  // ---------------------------------------------------------------------
  // sendAlert

  /** JavaScript truthiness of the optional `message` argument. */
  predicate HasMessage(message: Option<string>): (r: bool)
    ensures r ==> message.Some? && |message.value| > 0
    ensures message == None ==> !r
  {
    message.Some? && message.value != ""
  }

  /** The `forEach` over the time block: one single-attachment post per session. */
  function StructuredPosts(timeblock: seq<Session>): (posts: seq<Payload>)
    ensures |posts| == |timeblock|
    ensures forall i :: 0 <= i < |timeblock| ==> posts[i] == Structured([RenderAttachment(timeblock[i])])
  {
    if timeblock == [] then []
    else [Structured([RenderAttachment(timeblock[0])])] + StructuredPosts(timeblock[1..])
  }

  /**
   * `sendAlert(timeblock, message)`: the posts handed to `postToSlack`, in
   * order. A non-empty message is posted alone and the time block ignored.
   */
  function SendAlert(timeblock: seq<Session>, message: Option<string>): (posts: seq<Payload>)
    ensures HasMessage(message) ==> posts == [Plain(message.value)]
    ensures !HasMessage(message) ==> |posts| == |timeblock|
    ensures !HasMessage(message) ==>
      forall i :: 0 <= i < |timeblock| ==> posts[i] == Structured([RenderAttachment(timeblock[i])])
  {
    if HasMessage(message) then [Plain(message.value)] else StructuredPosts(timeblock)
  }

  /** An empty message is falsy, so it falls through to the structured path. */
  lemma EmptyMessageIsStructured(timeblock: seq<Session>)
    ensures SendAlert(timeblock, Some("")) == SendAlert(timeblock, None)
  {
  }
}
