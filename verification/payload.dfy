/**
 * The record types shared by the two Slack client packages of the
 * repository (internal/slack and slash): the decoded slash-command request,
 * the response and its attachments, and Go's `error` result.
 */
module Payload {

  /** Go's `error`: `nil` or an error carrying a message. */
  datatype Error = Nil | Failure(message: string)

  datatype Option<+T> = None | Some(value: T)

  /** The one slash command the handlers answer. */
  const Command: string := "/wfh"

  const InChannel: string := "in_channel"
  const Ephemeral: string := "ephemeral"

  datatype Field = Field(title: string, value: string, short: string)

  /** An attachment; every field but the title and the image URL is left at its zero value by the handlers. */
  datatype Attachment = Attachment(
    fallback: string,
    color: string,
    pretext: string,
    authorName: string,
    authorLink: string,
    authorIcon: string,
    title: string,
    titleLink: string,
    text: string,
    fields: seq<Field>,
    imageUrl: string,
    thumbUrl: string,
    footer: string,
    footerIcon: string,
    timestamp: int)

  /** The Go literal `Attachment{Title: title, ImageUrl: imageUrl}`. */
  function ImageAttachment(title: string, imageUrl: string): Attachment {
    Attachment("", "", "", "", "", "", title, "", "", [], imageUrl, "", "", "", 0)
  }

  /** A slash-command invocation; the user id is one field whatever its Go spelling. */
  datatype CommandRequest = CommandRequest(
    token: string,
    teamId: string,
    teamDomain: string,
    enterpriseId: string,
    enterpriseName: string,
    channelId: string,
    channelName: string,
    userId: string,
    userName: string,
    command: string,
    text: string,
    responseUrl: string,
    triggerId: string)

  /** The zero value `CommandRequest{}`. */
  const ZeroRequest: CommandRequest :=
    CommandRequest("", "", "", "", "", "", "", "", "", "", "", "", "")

  datatype CommandResponse = CommandResponse(
    responseType: string,
    text: string,
    attachments: seq<Attachment>)

  /** The zero value `CommandResponse{}`. */
  const ZeroResponse: CommandResponse := CommandResponse("", "", [])
}
