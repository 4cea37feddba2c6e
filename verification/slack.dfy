/** The response constructors of the internal/slack package. */
module Slack {
  import opened Payload

  /** A reply visible to the whole channel, carrying `text` and nothing else. */
  function NewInChannelCommandResponse(text: string): (r: CommandResponse)
    ensures r.responseType == InChannel
    ensures r.text == text
    ensures r.attachments == []
  {
    CommandResponse(InChannel, text, [])
  }

  /** Appends one attachment, leaving everything already in the response as it was. */
  function AddAttachment(cr: CommandResponse, a: Attachment): (r: CommandResponse)
    ensures |r.attachments| == |cr.attachments| + 1
    ensures r.attachments[..|cr.attachments|] == cr.attachments
    ensures r.attachments[|cr.attachments|] == a
    ensures r.responseType == cr.responseType && r.text == cr.text
  {
    cr.(attachments := cr.attachments + [a])
  }
}
