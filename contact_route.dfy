/**
 * The contact endpoint: parse the body against the contact schema, write the
 * parsed submission, answer 201 with its id; any failure, of validation or of
 * the write, gives the same 500 response.
 */
module ContactRoute {
  import opened Common
  import Store

  const NAME_MIN := 2
  const SUBJECT_MIN := 5
  const MESSAGE_MIN := 10
  const FAILED_MESSAGE := "Failed to submit contact form"

  /** The JSON body as received; a field is None when absent or not a string. */
  datatype ContactBody = ContactBody(name: Option<string>, email: Option<string>,
                                     subject: Option<string>, message: Option<string>)

  /** A submission that passed the schema; it is what the store receives. */
  datatype ContactSubmission = ContactSubmission(name: string, email: string, subject: string, message: string)

  /** The JSON body of a response. */
  datatype Body = IdBody(id: nat) | ErrorBody(error: string)

  /** A JSON response with its status code. */
  datatype Response = Response(status: nat, body: Body)

  /** The one failure response of this endpoint. */
  const FAILURE: Response := Response(500, ErrorBody(FAILED_MESSAGE))

  /** The field constraints of the server schema; `isEmail` is the email-format check. */
  predicate SchemaAccepts(name: string, email: string, subject: string, message: string,
                          isEmail: string -> bool)
  {
    |name| >= NAME_MIN && isEmail(email) && |subject| >= SUBJECT_MIN && |message| >= MESSAGE_MIN
  }

  /**
   * `schema.parse(body)`: the submission when every field is a string that
   * meets its constraint, otherwise a failure (a thrown validation error).
   */
  function Parse(body: ContactBody, isEmail: string -> bool): (r: Option<ContactSubmission>)
    ensures r.Some? <==> body.name.Some? && body.email.Some? && body.subject.Some? && body.message.Some?
                         && SchemaAccepts(body.name.value, body.email.value, body.subject.value,
                                          body.message.value, isEmail)
    ensures r.Some? ==> r.value == ContactSubmission(body.name.value, body.email.value,
                                                     body.subject.value, body.message.value)
  {
    if body.name.None? || body.email.None? || body.subject.None? || body.message.None? then None
    else
      var s := ContactSubmission(body.name.value, body.email.value, body.subject.value, body.message.value);
      if |s.name| < NAME_MIN then None
      else if !isEmail(s.email) then None
      else if |s.subject| < SUBJECT_MIN then None
      else if |s.message| < MESSAGE_MIN then None
      else Some(s)
  }

  /**
   * The endpoint as a function of the store before the request: `body` is
   * None when the request body is not JSON, `writeAccepted` is whether the
   * store accepts the write.
   */
  function Handle(rows: seq<ContactSubmission>, body: Option<ContactBody>, isEmail: string -> bool,
                  writeAccepted: bool): (seq<ContactSubmission>, Response)
  {
    if body.None? then (rows, FAILURE)
    else
      match Parse(body.value, isEmail)
      case None => (rows, FAILURE)
      case Some(data) =>
        if writeAccepted then (rows + [data], Response(201, IdBody(|rows|)))
        else (rows, FAILURE)
  }

  /** POST: parse first, write only what parsed, and answer as `Handle` describes. */
  method Post(table: Store.Table<ContactSubmission>, body: Option<ContactBody>, isEmail: string -> bool,
              writeAccepted: bool) returns (resp: Response)
    modifies table
    ensures (table.rows, resp) == Handle(old(table.rows), body, isEmail, writeAccepted)
  {
    if body.None? {
      return FAILURE;
    }
    var data := Parse(body.value, isEmail);
    if data.None? {
      return FAILURE;
    }
    var id := table.Create(data.value, writeAccepted);
    if id.Some? {
      resp := Response(201, IdBody(id.value));
    } else {
      resp := FAILURE;
    }
  }

  /**
   * Values exactly at the bounds pass; one character short on the name fails.
   */
  lemma BoundaryValues(isEmail: string -> bool)
    requires isEmail("a@b.com")
    ensures Parse(ContactBody(Some("Al"), Some("a@b.com"), Some("Hello!"), Some("1234567890")), isEmail).Some?
    ensures Parse(ContactBody(Some("A"), Some("a@b.com"), Some("Hello!"), Some("1234567890")), isEmail).None?
  {
  }

  /** A valid body with an accepted write creates one record and answers 201 with its id. */
  lemma ValidBodyCreatesOneRecord(rows: seq<ContactSubmission>, body: ContactBody, isEmail: string -> bool)
    requires Parse(body, isEmail).Some?
    ensures Handle(rows, Some(body), isEmail, true) ==
              (rows + [Parse(body, isEmail).value], Response(201, IdBody(|rows|)))
    ensures Handle(rows, Some(body), isEmail, true).0[|rows|].name == body.name.value
  {
  }

  /**
   * An invalid body creates no record whatever the store would do, because
   * parsing comes before the write.
   */
  lemma InvalidBodyCreatesNothing(rows: seq<ContactSubmission>, body: ContactBody, isEmail: string -> bool,
                                  writeAccepted: bool)
    requires Parse(body, isEmail).None?
    ensures Handle(rows, Some(body), isEmail, writeAccepted) == (rows, FAILURE)
  {
  }

  /**
   * A validation failure and a write failure give the identical response, and
   * the only statuses are 201 and 500; the store grows exactly when 201 is sent.
   */
  lemma FailuresIndistinguishable(rows: seq<ContactSubmission>, body: Option<ContactBody>,
                                                     isEmail: string -> bool, writeAccepted: bool)
    ensures var (rows', resp) := Handle(rows, body, isEmail, writeAccepted);
      && (resp.status == 201 || resp == FAILURE)
      && (resp.status == 201 <==> body.Some? && Parse(body.value, isEmail).Some? && writeAccepted)
      && (resp.status == 201 ==> |rows'| == |rows| + 1 && rows'[..|rows|] == rows)
      && (resp.status != 201 ==> rows' == rows)
  {
    var (rows', resp) := Handle(rows, body, isEmail, writeAccepted);
    if resp.status == 201 {
      assert rows'[..|rows|] == rows;
    }
  }
}
