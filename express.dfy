/** The part of an Express `Response` the handlers use. */
module Express {
  import opened GoogleTypes

  /** The status `res.redirect` answers with when none is given. */
  const FoundStatus := 302

  /** What a handler has sent. */
  datatype Sent = Redirect(url: string) | Json(status: int, body: SigninOutput)

  class Response {
    /** The status code set so far (Express starts from 200). */
    var statusCode: int
    /** Everything sent, oldest first. */
    var sent: seq<Sent>

    constructor ()
      ensures statusCode == 200 && sent == []
    {
      statusCode := 200;
      sent := [];
    }

    /** `res.redirect(url)`: answers 302 Found with the URL as its location. */
    method Redirect(url: string)
      modifies this
      ensures statusCode == FoundStatus
      ensures sent == old(sent) + [Sent.Redirect(url)]
    {
      statusCode := FoundStatus;
      sent := sent + [Sent.Redirect(url)];
    }

    /** `res.status(code)`. */
    method Status(code: int)
      modifies this
      ensures statusCode == code && sent == old(sent)
    {
      statusCode := code;
    }

    /** `res.json(body)`, sent with the status set so far. */
    method Json(body: SigninOutput)
      modifies this
      ensures statusCode == old(statusCode)
      ensures sent == old(sent) + [Sent.Json(old(statusCode), body)]
    {
      sent := sent + [Sent.Json(statusCode, body)];
    }
  }
}
