/**
 * The handler closure of the generator package's `NewHandler`, served
 * behind `Server.ServeHttp`. It uses the older selector, its own wording,
 * 250 images and a fixed bucket URL.
 */
module Generator {
  import opened Payload
  import opened Calendar
  import opened Announce
  import opened Picker
  import Slash
  import Server

  const ImageCount: nat := 250
  const ImageTitle: string := "Excuse"

  /** The part of the bucket format string before "%x.jpg". */
  const BucketDir: string := "https://storage.googleapis.com/wfh/"

  function Handler(req: CommandRequest, now: LocalTime, draw: nat, digest: nat -> string): (r: (CommandResponse, Error))
    requires draw < ImageCount
    ensures r.1 == Nil
    ensures r.0.responseType == InChannel
    ensures Parse(Generator, r.0.text) == Some((SelectWeekdayOver4(now), req.userId))
    ensures r.0.attachments == [ImageAttachment(ImageTitle, BucketDir + digest(ImageIndex(draw, ImageCount)) + ".jpg")]
    ensures exists i: nat :: 1 <= i <= 249 && r.0.attachments[0].imageUrl == BucketDir + digest(i) + ".jpg"
  {
    var message := Render(Generator, SelectWeekdayOver4(now), req.userId);
    ParseRender(Generator, SelectWeekdayOver4(now), req.userId);
    var index := ImageIndex(draw, ImageCount);
    var res := Slash.NewInChannelCommandResponse(message);
    (Slash.AddAttachment(res, ImageAttachment(ImageTitle, BucketDir + digest(index) + ".jpg")), Nil)
  }

  /** Served over HTTP: a decoded POST is answered 404 exactly when its command is not "/wfh". */
  lemma ServeGenerator(form: Slash.Form, now: LocalTime, draw: nat, digest: nat -> string,
                       encode: CommandResponse -> Error)
    requires draw < ImageCount
    ensures var req := Slash.NewCommandRequest(Slash.Parsed(form)).0;
            var r := Server.ServeHttp(Server.MethodPost, Slash.Parsed(form),
                                      q => Handler(q, now, draw, digest), encode);
            && (r.status == Server.StatusNotFound <==> req.command != Command)
            && (req.command == Command && encode(Handler(req, now, draw, digest).0) == Nil ==>
                  r.status == Server.StatusOK && r.body == Some(Handler(req, now, draw, digest).0))
  {
  }
}
