/** Request admission (limitMiddleware, main.go:178-186) and the handling
    decision of HandlePostRequest (main.go:78-138).

    The configured allowed origin (GetEnv("ALLOWED_ORIGIN")) and the HTML
    sanitizer (sanitize.HTML) are parameters; a call to SendEmail is the
    contact returned in `sent`. */
module Handler {
  import opened Validation
  import opened Registry

  datatype Option<T> = None | Some(value: T)

  /** The parts of an *http.Request the handler and the middleware read: verb
      is r.Method, origin the Origin header ("" when absent), and the form
      holds the first value submitted for each field. */
  datatype Request = Request(
    path: string,
    verb: string,
    origin: string,
    form: map<string, string>,
    remoteAddr: string)

  /** r.FormValue(key): the field's value, "" when it was not submitted. */
  function FormValue(req: Request, key: string): string {
    if key in req.form then req.form[key] else ""
  }

  /** Contact (main.go:18-22). */
  datatype Contact = Contact(name: string, email: string, message: string)

  /** One http.Error call: a status code and the text written as the body. */
  datatype Write = Write(status: int, text: string)

  const NotFoundWrite := Write(404, "404 page not found")
  const ForbiddenWrite := Write(403, "Forbidden")
  const MethodNotAllowedWrite := Write(405, "Method Not Allowed")
  const InvalidNameWrite := Write(400, "Invalid name.")
  const InvalidEmailWrite := Write(400, "Invalid email address.")
  const TooManyRequestsWrite := Write(429, "Too Many Requests")

  /** The CORS headers of main.go:85-86. */
  function CorsHeaders(allowedOrigin: string): map<string, string> {
    map["Access-Control-Allow-Origin" := allowedOrigin, "Access-Control-Allow-Methods" := "POST"]
  }

  /** What one call of HandlePostRequest does: the headers it sets, the errors
      it writes in order, and the contact it hands to SendEmail, if any. */
  datatype Outcome = Outcome(header: map<string, string>, writes: seq<Write>, sent: Option<Contact>)

  /** The status the client receives: the first error written fixes it (a
      later WriteHeader call is ignored by net/http); with none, 200. */
  function StatusOnWire(writes: seq<Write>): int {
    if writes == [] then 200 else writes[0].status
  }

  /** The decision of HandlePostRequest (main.go:78-138). */
  function Handle(req: Request, allowedOrigin: string, sanitize: string -> string): (o: Outcome)
    // another path: only a 404, no CORS headers, nothing sent (main.go:80-83)
    ensures req.path != "/" ==> o == Outcome(map[], [NotFoundWrite], None)
    ensures req.path == "/" ==> o.header == CorsHeaders(allowedOrigin)
    // the origin check writes a 403 first but does not stop (main.go:94-97)
    ensures req.path == "/" && req.origin != allowedOrigin ==> |o.writes| >= 1 && o.writes[0] == ForbiddenWrite
    // dispatch happens iff the method is POST and both fields pass, whatever the origin
    ensures o.sent.Some? <==>
      && req.path == "/"
      && req.verb == "POST"
      && Accepts(NamePattern, FormValue(req, "name"))
      && Accepts(EmailPattern, FormValue(req, "email"))
    ensures o.sent.Some? ==>
      o.sent.value == Contact(sanitize(FormValue(req, "name")), sanitize(FormValue(req, "email")),
                              sanitize(FormValue(req, "message")))
    // a dispatched request has no error written but the 403 of a foreign origin
    ensures o.sent.Some? ==> o.writes == if req.origin != allowedOrigin then [ForbiddenWrite] else []
    // each refusal ends with its own error, the name being checked before the email
    ensures req.path == "/" && req.verb != "POST" ==>
      |o.writes| >= 1 && o.writes[|o.writes| - 1] == MethodNotAllowedWrite
    ensures req.path == "/" && req.verb == "POST" && !Accepts(NamePattern, FormValue(req, "name")) ==>
      |o.writes| >= 1 && o.writes[|o.writes| - 1] == InvalidNameWrite
    ensures (req.path == "/" && req.verb == "POST" && Accepts(NamePattern, FormValue(req, "name"))
             && !Accepts(EmailPattern, FormValue(req, "email"))) ==>
      |o.writes| >= 1 && o.writes[|o.writes| - 1] == InvalidEmailWrite
    // exactly one 403 for a foreign origin, none for the allowed one, and one
    // more error unless the contact is sent
    ensures req.path == "/" ==>
      |o.writes| == (if req.origin != allowedOrigin then 1 else 0) + (if o.sent.None? then 1 else 0)
  {
    if req.path != "/" then
      Outcome(map[], [NotFoundWrite], None)
    else
      var header := CorsHeaders(allowedOrigin);
      var forbidden := if req.origin != allowedOrigin then [ForbiddenWrite] else [];
      var name, email, message := FormValue(req, "name"), FormValue(req, "email"), FormValue(req, "message");
      if req.verb != "POST" then
        Outcome(header, forbidden + [MethodNotAllowedWrite], None)
      else if !Accepts(NamePattern, name) then
        Outcome(header, forbidden + [InvalidNameWrite], None)
      else if !Accepts(EmailPattern, email) then
        Outcome(header, forbidden + [InvalidEmailWrite], None)
      else
        Outcome(header, forbidden, Some(Contact(sanitize(name), sanitize(email), sanitize(message))))
  }

  /** The origin only ever adds the leading 403: with the allowed origin in its
      place, the same errors follow and the same contact is sent. */
  lemma OriginOnlyAddsForbidden(req: Request, allowedOrigin: string, sanitize: string -> string)
    requires req.path == "/"
    ensures var o := Handle(req, allowedOrigin, sanitize);
            var o' := Handle(req.(origin := allowedOrigin), allowedOrigin, sanitize);
            && o.sent == o'.sent
            && o.writes == (if req.origin != allowedOrigin then [ForbiddenWrite] else []) + o'.writes
  {
  }

  /** The status each refusal on "/" gets: a foreign origin always answers
      403; from the allowed origin a non-POST answers 405 and an invalid name
      or email 400. */
  lemma RefusalStatus(req: Request, allowedOrigin: string, sanitize: string -> string)
    requires req.path == "/"
    ensures var o := Handle(req, allowedOrigin, sanitize);
            && (req.origin != allowedOrigin ==> StatusOnWire(o.writes) == 403)
            && (req.origin == allowedOrigin && req.verb != "POST" ==> StatusOnWire(o.writes) == 405)
            && (req.origin == allowedOrigin && req.verb == "POST" && o.sent.None? ==> StatusOnWire(o.writes) == 400)
  {
  }

  /** Every valid submission from a foreign origin gets a 403 answer and is
      still sent on, with its sanitized fields (main.go:94-97 has no return). */
  lemma ForbiddenYetSent(req: Request, allowedOrigin: string, sanitize: string -> string)
    requires req.path == "/" && req.verb == "POST" && req.origin != allowedOrigin
    requires Accepts(NamePattern, FormValue(req, "name")) && Accepts(EmailPattern, FormValue(req, "email"))
    ensures var o := Handle(req, allowedOrigin, sanitize);
            && StatusOnWire(o.writes) == 403 && o.writes == [ForbiddenWrite]
            && o.sent == Some(Contact(sanitize(FormValue(req, "name")), sanitize(FormValue(req, "email")),
                                      sanitize(FormValue(req, "message"))))
  {
  }

  /** Every valid submission from the allowed origin writes no error, so the
      client gets 200, and hands its sanitized fields to SendEmail. */
  lemma ValidSubmissionSent(req: Request, allowedOrigin: string, sanitize: string -> string)
    requires req.path == "/" && req.verb == "POST" && req.origin == allowedOrigin
    requires Accepts(NamePattern, FormValue(req, "name")) && Accepts(EmailPattern, FormValue(req, "email"))
    ensures var o := Handle(req, allowedOrigin, sanitize);
            && StatusOnWire(o.writes) == 200 && o.writes == []
            && o.sent == Some(Contact(sanitize(FormValue(req, "name")), sanitize(FormValue(req, "email")),
                                      sanitize(FormValue(req, "message"))))
  {
  }

  /** Sample input: "Al" / "a@b.co" posted from a foreign origin. */
  lemma ForbiddenYetSentSample(sanitize: string -> string)
    ensures var req := Request("/", "POST", "https://elsewhere.example",
                               map["name" := "Al", "email" := "a@b.co"], "192.0.2.1:5000");
            var o := Handle(req, "https://allowed.example", sanitize);
            StatusOnWire(o.writes) == 403 && o.sent == Some(Contact(sanitize("Al"), sanitize("a@b.co"), sanitize("")))
  {
    EmailExamples();
  }

  /** Sample input, end to end: the Jane Doe form from the allowed origin. */
  lemma ValidSubmissionSample(sanitize: string -> string)
    ensures var req := Request("/", "POST", "https://allowed.example",
                               map["name" := "Jane Doe", "email" := "jane@example.com",
                                   "message" := "<script>alert(1)</script>Hello"], "192.0.2.1:5000");
            var o := Handle(req, "https://allowed.example", sanitize);
            && StatusOnWire(o.writes) == 200
            && o.sent == Some(Contact(sanitize("Jane Doe"), sanitize("jane@example.com"),
                                      sanitize("<script>alert(1)</script>Hello")))
  {
    EmailExamples();
  }

  /** The http.ResponseWriter the handler writes to: its header map and the
      errors written so far. */
  class ResponseWriter {
    var header: map<string, string>
    var written: seq<Write>

    constructor ()
      ensures header == map[] && written == []
    {
      header := map[];
      written := [];
    }

    /** w.Header().Set(key, value) */
    method SetHeader(key: string, value: string)
      modifies this
      ensures header == old(header)[key := value] && written == old(written)
    {
      header := header[key := value];
    }

    /** http.Error(w, text, status) */
    method Error(text: string, status: int)
      modifies this
      ensures written == old(written) + [Write(status, text)] && header == old(header)
    {
      written := written + [Write(status, text)];
    }

    /** http.NotFound(w, r) */
    method NotFound()
      modifies this
      ensures written == old(written) + [NotFoundWrite] && header == old(header)
    {
      Error("404 page not found", 404);
    }
  }

  /** HandlePostRequest (main.go:78-138), writing into w step by step. */
  method HandlePostRequest(w: ResponseWriter, req: Request, allowedOrigin: string, sanitize: string -> string)
    returns (sent: Option<Contact>)
    modifies w
    ensures var o := Handle(req, allowedOrigin, sanitize);
            w.header == old(w.header) + o.header && w.written == old(w.written) + o.writes && sent == o.sent
  {
    sent := None;
    if req.path != "/" {
      w.NotFound();
      return;
    }
    w.SetHeader("Access-Control-Allow-Origin", allowedOrigin);
    w.SetHeader("Access-Control-Allow-Methods", "POST");
    assert w.header == old(w.header) + CorsHeaders(allowedOrigin);
    ghost var forbidden: seq<Write> := [];
    if req.origin != allowedOrigin {
      w.Error("Forbidden", 403);
      forbidden := [ForbiddenWrite];
    }
    assert w.written == old(w.written) + forbidden;
    if req.verb != "POST" {
      w.Error("Method Not Allowed", 405);
      return;
    }
    var details := Contact(FormValue(req, "name"), FormValue(req, "email"), FormValue(req, "message"));
    var nameOk := ValidateParameter(NamePattern, details.name);
    if !nameOk {
      w.Error("Invalid name.", 400);
      return;
    }
    var emailOk := ValidateParameter(EmailPattern, details.email);
    if !emailOk {
      w.Error("Invalid email address.", 400);
      return;
    }
    sent := Some(Contact(sanitize(details.name), sanitize(details.email), sanitize(details.message)));
  }

  /** limitMiddleware (main.go:178-186) around the mux of main.go:27-29, whose
      pattern "/" sends every path to HandlePostRequest. `granted` is what
      Allow() answers on the limiter GetLimiter returns for the client's
      address. */
  method LimitMiddleware(registry: IPRateLimiter, w: ResponseWriter, req: Request, granted: bool,
                         allowedOrigin: string, sanitize: string -> string)
    returns (limiter: Limiter, nextCalls: nat, sent: Option<Contact>)
    requires registry.Valid()
    modifies registry, w
    ensures registry.Valid()
    ensures req.remoteAddr in registry.ips && registry.ips[req.remoteAddr] == limiter
    ensures req.remoteAddr in old(registry.ips) ==> registry.ips == old(registry.ips)
    ensures req.remoteAddr !in old(registry.ips) ==> registry.ips == old(registry.ips)[req.remoteAddr := limiter]
    // refused: exactly a 429, the handler is not run
    ensures !granted ==>
      && nextCalls == 0 && sent == None
      && w.written == old(w.written) + [TooManyRequestsWrite] && w.header == old(w.header)
    // admitted: the handler runs once and the middleware itself writes nothing
    ensures granted ==>
      var o := Handle(req, allowedOrigin, sanitize);
      && nextCalls == 1 && sent == o.sent
      && w.written == old(w.written) + o.writes && w.header == old(w.header) + o.header
  {
    limiter := registry.GetLimiter(req.remoteAddr);
    nextCalls, sent := 0, None;
    if !granted {
      w.Error("Too Many Requests", 429);
      return;
    }
    sent := HandlePostRequest(w, req, allowedOrigin, sanitize);
    nextCalls := 1;
  }
}
