/** The request handler `HTTPRequest`: a GET whose path starts with `/play/`
    or `/301/` goes to `main_play`, in redirect mode for `/301/`; every
    other GET and every HEAD gets a 404 header block. What `main_play` does
    with the request is not part of this model: the handler's outcome names
    the mode it is called in. */
module Dispatch {

  datatype Verb = GET | HEAD

  datatype Header = Header(name: string, value: string)

  /** What the handler does with a request: call `main_play(self,
      redirect=...)`, or send a status line and headers of its own. */
  datatype Outcome = MainPlay(redirect: bool) | Reply(status: int, headers: seq<Header>)

  const PlayPrefix := "/play/"
  const RedirectPrefix := "/301/"

  /** `_headers(status, content)`: the status line, the `Server` header and
      the `Content-type` header, in that order. */
  function HeaderBlock(status: int, content: string): (r: Outcome)
    ensures r.Reply? && r.status == status
    ensures |r.headers| == 2
    ensures r.headers[0] == Header("Server", "LiveProxy")
    ensures r.headers[1] == Header("Content-type", content)
  {
    Reply(status, [Header("Server", "LiveProxy"), Header("Content-type", content)])
  }

  /** The 404 reply both handlers send. */
  function NotFound(): Outcome {
    HeaderBlock(404, "text/html")
  }

  /** `do_HEAD`: every path gets the 404 reply. */
  function DoHead(path: string): (r: Outcome)
    ensures r == Reply(404, [Header("Server", "LiveProxy"), Header("Content-type", "text/html")])
  {
    NotFound()
  }

  /** `do_GET`. */
  function DoGet(path: string): Outcome {
    if PlayPrefix <= path then MainPlay(false)
    else if RedirectPrefix <= path then MainPlay(true)
    else NotFound()
  }

  /** The handler for a request, by its verb. */
  function Handle(verb: Verb, path: string): Outcome {
    match verb
    case GET => DoGet(path)
    case HEAD => DoHead(path)
  }

  /** No path starts with both prefixes: they differ in their second
      character. */
  lemma PrefixesExclusive(path: string)
    ensures !(PlayPrefix <= path && RedirectPrefix <= path)
  {
    if PlayPrefix <= path {
      assert path[1] == 'p' != RedirectPrefix[1];
    }
  }

  /** A GET goes to `main_play` in play mode exactly when its path starts
      with `/play/`, in redirect mode exactly when it starts with `/301/`,
      and gets the 404 reply exactly when it starts with neither. */
  lemma GetRoutes(path: string)
    ensures DoGet(path) == MainPlay(false) <==> PlayPrefix <= path
    ensures DoGet(path) == MainPlay(true) <==> RedirectPrefix <= path
    ensures DoGet(path) == NotFound() <==> !(PlayPrefix <= path) && !(RedirectPrefix <= path)
  {
    PrefixesExclusive(path);
  }

  /** Every header block the handler sends itself is a 404 `text/html`
      reply that carries `Server: LiveProxy`. */
  lemma RepliesAreNotFound(verb: Verb, path: string)
    ensures Handle(verb, path).Reply? ==>
      Handle(verb, path).status == 404 &&
      Header("Server", "LiveProxy") in Handle(verb, path).headers &&
      Header("Content-type", "text/html") in Handle(verb, path).headers
  {
    if Handle(verb, path).Reply? {
      assert Handle(verb, path) == NotFound();
      assert NotFound().headers[0] == Header("Server", "LiveProxy");
      assert NotFound().headers[1] == Header("Content-type", "text/html");
    }
  }
}
