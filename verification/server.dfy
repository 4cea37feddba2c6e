/**
 * The `ServeHTTP` method shared, line for line, by main.go's
 * slashCommandHandler and the generator package's SlashCommandHandler:
 * the order in which it decides the HTTP status.
 */
module Server {
  import opened Payload
  import Slash

  const MethodPost: string := "POST"

  const StatusOK: int := 200
  const StatusBadRequest: int := 400
  const StatusNotFound: int := 404
  const StatusMethodNotAllowed: int := 405
  const StatusInternalServerError: int := 500

  /** The status written, and the response encoded in the body on success. */
  datatype Reply = Reply(status: int, body: Option<CommandResponse>)

  /** The wrapped handler function. */
  type Handler = CommandRequest -> (CommandResponse, Error)

  /**
   * Method check, form decoding, the handler, then the command check, then
   * encoding. `encode` is the error result of the JSON encoder.
   */
  function ServeHttp(verb: string, parse: Slash.FormParse, handler: Handler,
                     encode: CommandResponse -> Error): (r: Reply)
    ensures r.status in {StatusOK, StatusBadRequest, StatusNotFound, StatusMethodNotAllowed, StatusInternalServerError}
    ensures r.status == StatusMethodNotAllowed <==> verb != MethodPost
    ensures r.status == StatusBadRequest <==> verb == MethodPost && parse.Malformed?
    ensures var req := Slash.NewCommandRequest(parse).0;
            r.status == StatusNotFound <==>
              verb == MethodPost && parse.Parsed? && handler(req).1 == Nil && req.command != Command
    ensures var req := Slash.NewCommandRequest(parse).0;
            r.status == StatusOK <==>
              && verb == MethodPost && parse.Parsed?
              && handler(req).1 == Nil && req.command == Command && encode(handler(req).0) == Nil
    ensures r.body.Some? <==> r.status == StatusOK
    ensures r.body.Some? ==> r.body.value == handler(Slash.NewCommandRequest(parse).0).0
  {
    if verb != MethodPost then Reply(StatusMethodNotAllowed, None)
    else
      var (req, err) := Slash.NewCommandRequest(parse);
      if err != Nil then Reply(StatusBadRequest, None)
      else
        var (res, err) := handler(req);
        if err != Nil then Reply(StatusInternalServerError, None)
        else if req.command != Command then Reply(StatusNotFound, None)
        else if encode(res) != Nil then Reply(StatusInternalServerError, None)
        else Reply(StatusOK, Some(res))
  }

  /**
   * The handler runs before the command check: behind a handler that
   * itself rejects every other command, a wrong command is answered 500,
   * never 404.
   */
  lemma RejectingHandlerNever404(verb: string, parse: Slash.FormParse, handler: Handler,
                                 encode: CommandResponse -> Error)
    requires forall req: CommandRequest :: req.command != Command ==> handler(req).1.Failure?
    ensures ServeHttp(verb, parse, handler, encode).status != StatusNotFound
    ensures verb == MethodPost && parse.Parsed? && Slash.NewCommandRequest(parse).0.command != Command ==>
              ServeHttp(verb, parse, handler, encode).status == StatusInternalServerError
  {
  }
}
