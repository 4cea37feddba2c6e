/**
 * The internal/wfh package: the configured handler (`New`) and the reply
 * builder (`Handle`). The clock, the random draw and the image digest are
 * inputs: `now` is the local time, `draw` the value of `rand.Intn(n)`, and
 * `digest(i)` the lowercase hex SHA-1 of the decimal text of `i`.
 */
module Wfh {
  import opened Strings
  import opened Payload
  import opened Calendar
  import opened Announce
  import opened Picker
  import Slack

  /** The formatting verb `New` appends to the image base URL. */
  const Verb: string := "%x.jpg"

  /** The attachment title, used as is: it is never formatted. */
  const ImageTitle: string := "My excuse is %s"

  /** An image URL template: empty (no images) or ending with "/%x.jpg". */
  type ImageTemplate = s: string | s == "" || HasSuffix(s, "/" + Verb)

  /** The configured handler; the time zone is folded into the `LocalTime` inputs. */
  datatype Handler = Handler(imageBaseUrl: ImageTemplate, numberOfImages: nat)

  function WithTrailingSlash(base: string): (dir: string)
    ensures HasSuffix(dir, "/")
    ensures HasPrefix(dir, base)
    ensures HasSuffix(base, "/") ==> dir == base
    ensures |dir| <= |base| + 1
  {
    if HasSuffix(base, "/") then base else base + "/"
  }

  /**
   * The template `New` makes of a base URL: an empty base stays empty;
   * otherwise the base, one "/" only if it lacks one, then "%x.jpg".
   */
  function TemplateOf(base: string): (t: ImageTemplate)
    ensures t == "" <==> base == ""
    ensures base != "" ==> HasPrefix(t, base) && HasSuffix(t, "/" + Verb)
    ensures base != "" && HasSuffix(base, "/") ==> |t| == |base| + |Verb|
    ensures base != "" && !HasSuffix(base, "/") ==> |t| == |base| + 1 + |Verb| && !HasSuffix(t, "//" + Verb)
  {
    if base == "" then ""
    else
      var t := WithTrailingSlash(base) + Verb;
      assert t[|t| - |"/" + Verb|..] == "/" + Verb;
      assert t[..|base|] == base;
      assert !HasSuffix(base, "/") ==> t[|t| - |"//" + Verb|..][0] == base[|base| - 1] != '/';
      t
  }

  /** The directory part of a non-empty template: everything before "%x.jpg". */
  function DirOf(t: ImageTemplate): string
    requires t != ""
  {
    t[..|t| - |Verb|]
  }

  /** The template keeps the slash-terminated base, and normalising that again changes nothing. */
  lemma TemplateIdempotent(base: string)
    requires base != ""
    ensures DirOf(TemplateOf(base)) == WithTrailingSlash(base)
    ensures TemplateOf(DirOf(TemplateOf(base))) == TemplateOf(base)
  {
    var t := TemplateOf(base);
    assert t == WithTrailingSlash(base) + Verb;
    assert DirOf(t) == WithTrailingSlash(base);
  }

  /** `fmt.Sprintf(template, hash)`: the hex digest takes the place of "%x". */
  function ImageUrl(t: ImageTemplate, hex: string): (url: string)
    requires t != ""
    ensures |url| == |t| - |Verb| + |hex| + |".jpg"|
    ensures HasPrefix(url, DirOf(t)) && HasSuffix(DirOf(t), "/")
    ensures url[|DirOf(t)|..|DirOf(t)| + |hex|] == hex
    ensures HasSuffix(url, ".jpg")
  {
    var dir := DirOf(t);
    var url := dir + hex + ".jpg";
    assert t[|t| - |"/" + Verb|..][0] == t[|t| - |Verb| - 1] == dir[|dir| - 1];
    assert url[..|dir|] == dir;
    assert url[|dir|..|dir| + |hex|] == hex;
    assert url[|url| - |".jpg"|..] == ".jpg";
    url
  }

  /** The URL of an image is the slash-terminated base, the digest, then ".jpg". */
  lemma ImageUrlOfBase(base: string, hex: string)
    requires base != ""
    ensures ImageUrl(TemplateOf(base), hex) == WithTrailingSlash(base) + hex + ".jpg"
    ensures HasPrefix(ImageUrl(TemplateOf(base), hex), base)
  {
    TemplateIdempotent(base);
    var u := ImageUrl(TemplateOf(base), hex);
    assert u[..|base|] == WithTrailingSlash(base)[..|base|];
  }

  /**
   * `New`: an unknown non-empty time zone is an error and no handler;
   * otherwise the handler with the normalised template. `loadLocation` is
   * `time.LoadLocation`'s error result.
   */
  function New(timezone: string, imageBaseUrl: string, numberOfImages: nat,
               loadLocation: string -> Error): (r: (Option<Handler>, Error))
    ensures timezone != "" && loadLocation(timezone).Failure? ==> r == (None, loadLocation(timezone))
    ensures timezone == "" || loadLocation(timezone) == Nil ==>
              r == (Some(Handler(TemplateOf(imageBaseUrl), numberOfImages)), Nil)
  {
    if timezone != "" && loadLocation(timezone).Failure? then (None, loadLocation(timezone))
    else
      (Some(Handler(TemplateOf(imageBaseUrl), numberOfImages)), Nil)
  }

  /** Whether `Handle` attaches an image. */
  predicate HasImages(h: Handler) {
    h.imageBaseUrl != "" && h.numberOfImages > 0
  }

  /**
   * `Handle`: a command other than "/wfh" is an error with the zero
   * response; otherwise an in-channel announcement for the request's user,
   * with one image attachment exactly when images are configured.
   */
  function Handle(h: Handler, req: CommandRequest, now: LocalTime, draw: nat,
                  digest: nat -> string): (r: (CommandResponse, Error))
    requires h.numberOfImages == 0 || draw < h.numberOfImages
    ensures req.command != Command ==> r == (ZeroResponse, Failure("invalid command " + req.command))
    ensures req.command == Command ==>
              && r.1 == Nil
              && r.0.responseType == InChannel
              && Parse(Canonical, r.0.text) == Some((Select(now), req.userId))
              && |r.0.attachments| == (if HasImages(h) then 1 else 0)
    ensures req.command == Command && HasImages(h) ==>
              var index := ImageIndex(draw, h.numberOfImages);
              && 1 <= index <= Max(1, h.numberOfImages - 1)
              && r.0.attachments[0] == ImageAttachment(ImageTitle, ImageUrl(h.imageBaseUrl, digest(index)))
  {
    if req.command != Command then
      (ZeroResponse, Failure("invalid command " + req.command))
    else
      var msg := Render(Canonical, Select(now), req.userId);
      ParseRender(Canonical, Select(now), req.userId);
      var res := Slack.NewInChannelCommandResponse(msg);
      if HasImages(h) then
        var index := ImageIndex(draw, h.numberOfImages);
        (Slack.AddAttachment(res, ImageAttachment(ImageTitle, ImageUrl(h.imageBaseUrl, digest(index)))), Nil)
      else
        (res, Nil)
  }

  /** End to end: a handler built from a non-empty base URL links an image under that base. */
  lemma NewThenHandle(imageBaseUrl: string, numberOfImages: nat, req: CommandRequest,
                      now: LocalTime, draw: nat, digest: nat -> string)
    requires imageBaseUrl != "" && draw < numberOfImages
    requires req.command == Command
    ensures var h := Handler(TemplateOf(imageBaseUrl), numberOfImages);
            var r := Handle(h, req, now, draw, digest);
            && |r.0.attachments| == 1
            && exists i: nat :: 1 <= i <= Max(1, numberOfImages - 1)
                 && r.0.attachments[0].imageUrl == WithTrailingSlash(imageBaseUrl) + digest(i) + ".jpg"
  {
    var h := Handler(TemplateOf(imageBaseUrl), numberOfImages);
    var i := ImageIndex(draw, numberOfImages);
    ImageUrlOfBase(imageBaseUrl, digest(i));
    assert Handle(h, req, now, draw, digest).0.attachments[0].imageUrl == WithTrailingSlash(imageBaseUrl) + digest(i) + ".jpg";
  }
}
