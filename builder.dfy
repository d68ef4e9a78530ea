/** The live-preview message the builder page posts into a template frame:
    `{ type: 'UPDATE_CONFIG', payload }`. Both the cosmic template's handler
    and the universal features script read the payload. */
module Builder {
  import opened Js

  const UpdateConfig := "UPDATE_CONFIG"

  /** One timeline entry; an undefined field prints as "undefined". */
  datatype TimelineEntry = TimelineEntry(date: Option<string>, title: Option<string>, description: Option<string>)

  datatype Quiz = Quiz(question: Option<string>, options: seq<string>, correctIndex: int, successMessage: Option<string>)

  datatype Countdown = Countdown(enabled: bool, date: Option<string>)

  /** The payload fields the handlers look at. A list field is None when it
      is absent or not an array; `quiz` and `countdown` are None when falsy. */
  datatype Payload = Payload(
    senderName: Option<string>,
    partnerName: Option<string>,
    message: Option<string>,
    musicUrl: Option<string>,
    giftUrl: Option<string>,
    features: Option<seq<string>>,
    timeline: Option<seq<TimelineEntry>>,
    gallery: Option<seq<Option<string>>>,
    quiz: Option<Quiz>,
    countdown: Option<Countdown>)

  datatype Message = Message(kind: string, payload: Payload)
}
