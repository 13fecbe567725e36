// HTTPRequest: reading header after header from one socket, one readable
// event at a time.
module HttpRequest {
  import opened HttpParser
  import Data

  const LIMIT := 4 * 1024

  datatype RequestState = PARSING_HEADERS | READING_BODY

  datatype Session = Session(state: RequestState, parser: Parser, body: string)

  const NewSession := Session(PARSING_HEADERS, Fresh(REQUEST, LIMIT), "")

  // What can happen to a request.  onCanRead runs only when the socket worker
  // sees a readable event: `incoming` is what the socket would then give, and
  // `resets` says whether the delegate calls reset() in the callback it gets.
  datatype Happening =
    | Readable(incoming: string, resets: bool)
    | Reset

  datatype Notice = Nothing | OnHeaders(fields: Fields) | OnCanReadBody

  function AfterCallback(state: RequestState, resets: bool): RequestState {
    if resets then PARSING_HEADERS else state
  }

  // onCanRead and reset.  The socket is read only when the body is empty; a
  // ready parser is replaced, and the rest of the body is kept.
  function After(s: Session, h: Happening): (Session, Notice) {
    match h
    case Reset => (s.(state := PARSING_HEADERS), Nothing)
    case Readable(incoming, resets) =>
      if s.state == READING_BODY then (s.(state := AfterCallback(READING_BODY, resets)), OnCanReadBody)
      else
        var (q, rest) := Consume(s.parser, if s.body == "" then incoming else s.body);
        if q.ready then
          (Session(AfterCallback(READING_BODY, resets), Fresh(REQUEST, LIMIT), rest), OnHeaders(q.fields))
        else (Session(PARSING_HEADERS, q, rest), Nothing)
  }

  class HTTPRequest {
    var state: RequestState
    var body: Data.Data
    var parser: HTTPHeadersParser

    ghost predicate Valid()
      reads this, body
    {
      body.Valid()
    }

    ghost function Model(): Session
      requires Valid()
      reads this, body, body.impl, parser
    {
      Session(state, parser.Model(), body.View())
    }

    constructor ()
      ensures Valid() && Model() == NewSession
      ensures fresh(body) && fresh(parser)
    {
      state := PARSING_HEADERS;
      body := new Data.Data();
      parser := new HTTPHeadersParser(REQUEST);
    }

    method ResetState()
      requires Valid()
      modifies this`state
      ensures Valid() && Model() == After(old(Model()), Reset).0
    {
      state := PARSING_HEADERS;
    }

    // RWSocket::read into the body
    method ReadSocket(incoming: seq<char>)
      requires Valid()
      modifies body
      ensures Valid() && body.View() == incoming
    {
      var d := new Data.Data.FromBytes(incoming);
      body.Assign(d);
    }

    method OnCanRead(incoming: seq<char>, resets: bool) returns (notice: Notice)
      requires Valid()
      modifies this, body, parser
      ensures Valid() && body == old(body)
      ensures (Model(), notice) == After(old(Model()), Readable(incoming, resets))
    {
      if state == READING_BODY {
        notice := OnCanReadBody;
        if resets {
          ResetState();
        }
        return;
      }
      if body.size == 0 {
        ReadSocket(incoming);
      }
      parser.Write(body);
      notice := Nothing;
      if parser.ready {
        notice := Announce(resets);
      }
    }

    // A head is complete.
    method Announce(resets: bool) returns (notice: Notice)
      requires Valid()
      modifies this
      ensures Valid() && body == old(body) && notice == OnHeaders(old(Model()).parser.fields)
      ensures Model() == Session(AfterCallback(READING_BODY, resets), Fresh(REQUEST, LIMIT), old(Model()).body)
    {
      state := READING_BODY;
      notice := Report();
      if resets {
        ResetState();
      }
      parser := new HTTPHeadersParser(REQUEST);
    }

    // delegate->onHeaders(*this, *parser)
    method Report() returns (notice: Notice)
      ensures notice == OnHeaders(parser.Model().fields)
    {
      notice := OnHeaders(
        Fields(parser.verb, parser.action, parser.version, parser.status, parser.code, parser.headers));
    }
  }
}
