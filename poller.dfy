/** `get`: which server list is requested, and what becomes of the response
    body before it is parsed. The HTTP request and the JSON decoder are not
    modelled: the response is an input and the decoder a function parameter. */
module Poller {
  import opened Wrappers
  import opened Utf8
  import opened Types

  const DefaultGame := "bf1"
  const BfvListUrl := "https://marne.io/api/v/srvlst/"
  const Bf1ListUrl := "https://marne.io/api/srvlst/"

  /** The lead byte 0xEF: the first byte of the UTF-8 byte order mark, and of
      every other character from U+F000 to U+FFFF. */
  const MarkerLead: byte := 239

  /** `statics.game.clone().unwrap_or("bf1")`. */
  function GameOrDefault(game: Option<string>): (g: string)
    ensures game.Some? ==> g == game.value
    ensures game.None? ==> g == DefaultGame
  {
    if game.Some? then game.value else DefaultGame
  }

  /** The Battlefield V list for "bfv", the Battlefield 1 list for any other game. */
  function Endpoint(game: string): (url: string)
    ensures url == BfvListUrl <==> game == "bfv"
    ensures url == Bf1ListUrl <==> game != "bfv"
  {
    if game == "bfv" then BfvListUrl else Bf1ListUrl
  }

  /** The body is checked at its first byte; when that is 0xEF the first
      character, which then takes three bytes, is removed. Indexing the first
      byte of an empty body panics in the source, so the body must be
      non-empty here; Get handles the empty body. */
  function StripMarker(body: seq<byte>): (r: seq<byte>)
    requires Valid(body) && body != []
    ensures Valid(r)
    ensures body[0] == MarkerLead ==> |body| >= 3 && r == body[3..]
    ensures body[0] != MarkerLead ==> r == body
  {
    if body[0] == MarkerLead then RemoveFirstChar(body) else body
  }

  /** The byte order mark in UTF-8. */
  const ByteOrderMark: seq<byte> := [0xEF, 0xBB, 0xBF]

  /** A body that starts with the byte order mark loses exactly the mark. */
  lemma StripRemovesByteOrderMark(rest: seq<byte>)
    requires Valid(rest)
    ensures Valid(ByteOrderMark + rest)
    ensures StripMarker(ByteOrderMark + rest) == rest
  {
    var body := ByteOrderMark + rest;
    assert body[3..] == rest;
  }

  /** One character at most is removed per call: a body that starts with two
      byte order marks still starts with one afterwards, so stripping twice is
      not the same as stripping once. */
  lemma StripRemovesOneCharOnly(rest: seq<byte>)
    requires Valid(rest)
    ensures Valid(ByteOrderMark + ByteOrderMark + rest)
    ensures StripMarker(ByteOrderMark + ByteOrderMark + rest) == ByteOrderMark + rest
    ensures StripMarker(StripMarker(ByteOrderMark + ByteOrderMark + rest)) == rest
    ensures rest != ByteOrderMark + rest
  {
    StripRemovesByteOrderMark(rest);
    StripRemovesByteOrderMark(ByteOrderMark + rest);
    assert ByteOrderMark + ByteOrderMark + rest == ByteOrderMark + (ByteOrderMark + rest);
  }

  /** On a body that does not start with 0xEF stripping does nothing, and
      stripping again after a strip that leaves such a body does nothing. */
  lemma StripIdempotentWhenClean(body: seq<byte>)
    requires Valid(body) && body != []
    requires StripMarker(body) != [] && StripMarker(body)[0] != MarkerLead
    ensures StripMarker(StripMarker(body)) == StripMarker(body)
  {
  }

  /** What the HTTP client returned: the request failed, or a response whose
      text could or could not be read. */
  datatype Response = SendFailed | Received(text: Option<seq<byte>>)

  predicate WellFormed(response: Response) {
    response.Received? && response.text.Some? ==> Valid(response.text.value)
  }

  /** `resp.text().await.unwrap_or_default()`. */
  function BodyOf(response: Response): (body: seq<byte>)
    requires response.Received?
    ensures response.text.Some? ==> body == response.text.value
    ensures response.text.None? ==> body == []
  {
    if response.text.Some? then response.text.value else []
  }

  datatype GetError = UrlFailed | JsonIncorrect

  /** The outcome of `get`; Panicked is the panic of indexing an empty body. */
  datatype GetResult = Fetched(servers: seq<ServerInfo>) | Failed(error: GetError) | Panicked

  /** `get` after the request: the decoder sees the body with the marker
      character stripped. */
  function Get(response: Response, parse: seq<byte> -> Option<seq<ServerInfo>>): (r: GetResult)
    requires WellFormed(response)
    ensures r == Failed(UrlFailed) <==> response.SendFailed?
    ensures r.Panicked? <==> response.Received? && BodyOf(response) == []
    ensures r.Fetched? <==>
      response.Received? && BodyOf(response) != [] && parse(StripMarker(BodyOf(response))).Some?
    ensures r.Fetched? ==> Some(r.servers) == parse(StripMarker(BodyOf(response)))
    ensures r == Failed(JsonIncorrect) <==>
      response.Received? && BodyOf(response) != [] && parse(StripMarker(BodyOf(response))).None?
  {
    match response
    case SendFailed => Failed(UrlFailed)
    case Received(_) =>
      var body := BodyOf(response);
      if body == [] then Panicked
      else
        match parse(StripMarker(body))
        case Some(list) => Fetched(list)
        case None => Failed(JsonIncorrect)
  }
}
