/**
 * The handler closure of the repository's root main.go, served behind
 * `Server.ServeHttp`. It always draws among 250 images and links them
 * through the package variable `bucket`, a format string that main.go
 * itself never assigns; `bucketFormat(hex)` stands for
 * `fmt.Sprintf(bucket, hex)`.
 */
module Root {
  import opened Payload
  import opened Calendar
  import opened Announce
  import opened Picker
  import Slash
  import Server

  const ImageCount: nat := 250
  const ImageTitle: string := "My excuse is ..."

  function Handler(req: CommandRequest, now: LocalTime, draw: nat, digest: nat -> string,
                   bucketFormat: string -> string): (r: (CommandResponse, Error))
    requires draw < ImageCount
    ensures r.1 == Nil
    ensures r.0.responseType == InChannel
    ensures Parse(Canonical, r.0.text) == Some((Select(now), req.userId))
    ensures r.0.attachments == [ImageAttachment(ImageTitle, bucketFormat(digest(ImageIndex(draw, ImageCount))))]
    ensures exists i: nat :: 1 <= i <= 249 && r.0.attachments[0].imageUrl == bucketFormat(digest(i))
  {
    var message := Render(Canonical, Select(now), req.userId);
    ParseRender(Canonical, Select(now), req.userId);
    var index := ImageIndex(draw, ImageCount);
    var hashed := digest(index);
    var res := Slash.NewInChannelCommandResponse(message);
    (Slash.AddAttachment(res, ImageAttachment(ImageTitle, bucketFormat(hashed))), Nil)
  }

  /**
   * Served over HTTP: a decoded POST is answered 404 exactly when its
   * command is not "/wfh" (the handler never fails), and otherwise 200 with
   * the handler's response unless encoding fails.
   */
  lemma ServeMain(form: Slash.Form, now: LocalTime, draw: nat, digest: nat -> string,
                  bucketFormat: string -> string, encode: CommandResponse -> Error)
    requires draw < ImageCount
    ensures var req := Slash.NewCommandRequest(Slash.Parsed(form)).0;
            var r := Server.ServeHttp(Server.MethodPost, Slash.Parsed(form),
                                      q => Handler(q, now, draw, digest, bucketFormat), encode);
            && (r.status == Server.StatusNotFound <==> req.command != Command)
            && (req.command == Command && encode(Handler(req, now, draw, digest, bucketFormat).0) == Nil ==>
                  r.status == Server.StatusOK && r.body == Some(Handler(req, now, draw, digest, bucketFormat).0))
  {
  }
}
