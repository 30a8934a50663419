/** The contact relay: the serverless handler that takes one contact-form
    submission, checks it, builds the outgoing e-mail and reports whether the
    SMTP server took it. The handler is modelled on an already-parsed request
    body; the SMTP send is the `SendOutcome` parameter. */
module SendEmail {
  import opened Js
  import Text

  /** The three fields of the JSON request body; a field missing from the
      body is `None`. */
  datatype ContactBody = ContactBody(name: Option<string>, email: Option<string>, message: Option<string>)

  /** The request as the hosting platform passes it in. */
  datatype Event = Event(httpMethod: string, body: ContactBody)

  /** The environment variables the handler reads; an unset one is `None`. */
  datatype Env = Env(
    smtpHost: Option<string>,
    smtpPort: Option<string>,
    smtpSecure: Option<string>,
    smtpUser: Option<string>,
    smtpPass: Option<string>,
    contactEmail: Option<string>)

  /** The settings the SMTP transport is created with. */
  datatype Transport = Transport(
    host: Option<string>,
    port: Option<string>,
    secure: bool,
    user: Option<string>,
    pass: Option<string>)

  /** The message handed to the transport; `to` is missing when neither
      `CONTACT_EMAIL` nor `SMTP_USER` is set. */
  datatype Mail = Mail(
    from: string,
    to: Option<string>,
    replyTo: string,
    subject: string,
    text: string,
    html: string)

  /** What the SMTP server did with the message. The reason of a rejection
      is whatever the transport threw. */
  datatype SendOutcome = Accepted | Rejected(reason: string)

  datatype Response = Response(statusCode: int, body: string)

  /** One send attempt: the transport it went through and the message. */
  datatype Dispatch = Dispatch(transport: Transport, mail: Mail)

  /** The response, and the send attempt if the handler made one. */
  datatype HandlerResult = HandlerResult(response: Response, dispatched: Option<Dispatch>)

  const MethodNotAllowed := Response(405, "Method Not Allowed")
  const MissingFields := Response(400, "{\"error\":\"Missing fields\"}")
  const EmailSent := Response(200, "{\"message\":\"Email sent successfully\"}")
  const SendFailed := Response(500, "{\"error\":\"Failed to send email\"}")

  const SubjectPrefix := "Novo Contato do Portfólio: "

  /** The indentation the HTML template carries on its second and third lines. */
  const HtmlIndent := "             "

  /** The transport settings taken from the environment: the TLS flag is on
      only for the exact text "true". */
  function TransportFor(env: Env): (t: Transport)
    ensures t.secure <==> env.smtpSecure == Some("true")
    ensures t.host == env.smtpHost && t.port == env.smtpPort
    ensures t.user == env.smtpUser && t.pass == env.smtpPass
  {
    Transport(env.smtpHost, env.smtpPort, env.smtpSecure == Some("true"), env.smtpUser, env.smtpPass)
  }

  /** The plain-text body. */
  function TextBody(name: string, email: string, message: string): string
  {
    "Nome: " + name + "\nEmail: " + email + "\n\nMensagem:\n" + message
  }

  /** The HTML body: the fields are put in verbatim (no escaping) and only the
      message's line feeds become `<br/>`. */
  function HtmlBody(name: string, email: string, message: string): string
  {
    var nameLine := "<p><strong>Nome:</strong> " + name + "</p>";
    var emailLine := HtmlIndent + "<p><strong>Email:</strong> " + email + "</p>";
    var messageLine := HtmlIndent + "<p><strong>Mensagem:</strong><br/>" + Text.ReplaceNewlines(message) + "</p>";
    nameLine + "\n" + emailLine + "\n" + messageLine
  }

  /** The message for a submission: sent from the SMTP account under the
      submitter's display name, to the contact mailbox (or the SMTP account),
      with replies going to the submitter. */
  function BuildMail(name: string, email: string, message: string, env: Env): Mail
  {
    Mail(
      from := "\"" + name + "\" <" + Interpolate(env.smtpUser) + ">",
      to := OrElse(env.contactEmail, env.smtpUser),
      replyTo := email,
      subject := SubjectPrefix + name,
      text := TextBody(name, email, message),
      html := HtmlBody(name, email, message))
  }

  /** All three fields present and non-empty. */
  predicate Complete(b: ContactBody)
  {
    Truthy(b.name) && Truthy(b.email) && Truthy(b.message)
  }

  /** The handler. */
  function Handle(event: Event, env: Env, outcome: SendOutcome): (r: HandlerResult)
    // only a complete POST leads to a send attempt
    ensures r.dispatched.Some? <==> event.httpMethod == "POST" && Complete(event.body)
    ensures event.httpMethod != "POST" ==> r.response == MethodNotAllowed
    ensures event.httpMethod == "POST" && !Complete(event.body) ==> r.response == MissingFields
    // a send attempt answers 200 or 500 according to the SMTP outcome alone
    ensures r.dispatched.Some? ==> r.response == (if outcome.Accepted? then EmailSent else SendFailed)
    ensures r.response.statusCode == 200 <==> r.dispatched.Some? && outcome.Accepted?
    ensures r.response.statusCode in {200, 400, 405, 500}
    // what is sent, and through what
    ensures r.dispatched.Some? ==>
      var b := event.body;
      var d := r.dispatched.value;
      && d.transport == TransportFor(env)
      && d.mail.replyTo == b.email.value
      && d.mail.to == (if Truthy(env.contactEmail) then env.contactEmail else env.smtpUser)
      && d.mail.from == "\"" + b.name.value + "\" <" + Interpolate(env.smtpUser) + ">"
      && d.mail.subject == SubjectPrefix + b.name.value
      && d.mail.text == TextBody(b.name.value, b.email.value, b.message.value)
      && d.mail.html == HtmlBody(b.name.value, b.email.value, b.message.value)
  {
    if event.httpMethod != "POST" then
      HandlerResult(MethodNotAllowed, None)
    else if !Complete(event.body) then
      HandlerResult(MissingFields, None)
    else
      var b := event.body;
      var d := Dispatch(TransportFor(env), BuildMail(b.name.value, b.email.value, b.message.value, env));
      match outcome
      case Accepted => HandlerResult(EmailSent, Some(d))
      case Rejected(_) => HandlerResult(SendFailed, Some(d))
  }

  /** The transport's error never reaches the caller: two rejections with
      different reasons give the same result. */
  lemma RejectionReasonHidden(event: Event, env: Env, why1: string, why2: string)
    ensures Handle(event, env, Rejected(why1)) == Handle(event, env, Rejected(why2))
  {
  }

  /** The plain-text body is unambiguous: when the name and the address hold
      no line feed, its lines are the two header lines, an empty line, the
      "Mensagem:" label and then exactly the lines of the message. */
  lemma TextBodyLines(name: string, email: string, message: string)
    requires '\n' !in name && '\n' !in email
    ensures Text.Split(TextBody(name, email, message), '\n')
      == ["Nome: " + name, "Email: " + email, "", "Mensagem:"] + Text.Split(message, '\n')
  {
    var l1, l2, l4 := "Nome: " + name, "Email: " + email, "Mensagem:";
    var c := l4 + "\n" + message;
    var b := "" + "\n" + c;
    var a := l2 + "\n" + b;
    assert TextBody(name, email, message) == l1 + "\n" + a;
    assert '\n' !in l1 && '\n' !in l2 && '\n' !in l4 by {
      assert l1 == "Nome: " + name && l2 == "Email: " + email;
    }
    Text.SplitCons(l4, '\n', message);
    Text.SplitCons("", '\n', c);
    Text.SplitCons(l2, '\n', b);
    Text.SplitCons(l1, '\n', a);
  }

  /** The HTML body always has the same three lines, whatever the message:
      the name line, the address line and the message line, in which every
      line feed of the message has become `<br/>`. */
  lemma HtmlBodyLines(name: string, email: string, message: string)
    requires '\n' !in name && '\n' !in email
    ensures Text.Split(HtmlBody(name, email, message), '\n')
      == ["<p><strong>Nome:</strong> " + name + "</p>",
          HtmlIndent + "<p><strong>Email:</strong> " + email + "</p>",
          HtmlIndent + "<p><strong>Mensagem:</strong><br/>" + Text.ReplaceNewlines(message) + "</p>"]
  {
    var rendered := Text.ReplaceNewlines(message);
    var l1 := "<p><strong>Nome:</strong> " + name + "</p>";
    var l2 := HtmlIndent + "<p><strong>Email:</strong> " + email + "</p>";
    var l3 := HtmlIndent + "<p><strong>Mensagem:</strong><br/>" + rendered + "</p>";
    assert HtmlBody(name, email, message) == l1 + "\n" + l2 + "\n" + l3;
    Text.ReplaceNewlinesRemovesAll(message);
    NoLineFeed("<p><strong>Nome:</strong> ", name, "</p>");
    NoLineFeed(HtmlIndent + "<p><strong>Email:</strong> ", email, "</p>");
    NoLineFeed(HtmlIndent + "<p><strong>Mensagem:</strong><br/>", rendered, "</p>");
    ThreeLines(l1, l2, l3);
  }

  /** A line feed-free text put between two line feed-free literals. */
  lemma NoLineFeed(before: string, middle: string, after: string)
    requires '\n' !in before && '\n' !in middle && '\n' !in after
    ensures '\n' !in before + middle + after
  {
  }

  /** Three lines without line feeds, joined by line feeds, split back into
      those three lines. */
  lemma ThreeLines(l1: string, l2: string, l3: string)
    requires '\n' !in l1 && '\n' !in l2 && '\n' !in l3
    ensures Text.Split(l1 + "\n" + l2 + "\n" + l3, '\n') == [l1, l2, l3]
  {
    var b := l2 + "\n" + l3;
    assert l1 + "\n" + l2 + "\n" + l3 == l1 + "\n" + b;
    Text.SplitFree(l3, '\n');
    Text.SplitCons(l2, '\n', l3);
    Text.SplitCons(l1, '\n', b);
  }

  /** A well-formed submission with a working transport: answered 200, sent
      to the contact mailbox with replies to the submitter. */
  lemma AcceptedSubmission(contact: string, user: string)
    requires contact != ""
    ensures var env := Env(None, None, None, Some(user), None, Some(contact));
      var body := ContactBody(Some("Ana"), Some("ana@x.com"), Some("Oi\nTudo bem?"));
      var r := Handle(Event("POST", body), env, Accepted);
      && r.response == EmailSent
      && r.dispatched.Some?
      && r.dispatched.value.mail.to == Some(contact)
      && r.dispatched.value.mail.replyTo == "ana@x.com"
      && r.dispatched.value.mail.subject == SubjectPrefix + "Ana"
  {
  }

  /** A two-line message, such as "Oi\nTudo bem?", reaches the HTML body as
      its two lines joined by `<br/>`. */
  lemma TwoLineMessageHtml(first: string, second: string)
    requires '\n' !in first && '\n' !in second
    ensures Text.ReplaceNewlines(first + "\n" + second) == first + "<br/>" + second
  {
    Text.ReplaceNewlinesIdentity(first);
    LineFeedThen(second);
    Text.ReplaceNewlinesAppend(first, "\n" + second);
    assert first + "\n" + second == first + ("\n" + second);
  }

  /** A line feed followed by a line without one renders as `<br/>` and
      that line. */
  lemma LineFeedThen(second: string)
    requires '\n' !in second
    ensures Text.ReplaceNewlines("\n" + second) == "<br/>" + second
  {
    var tail := "\n" + second;
    assert tail[0] == '\n' && tail[1..] == second;
    Text.ReplaceNewlinesIdentity(second);
  }

  /** A submission with an empty name is refused with 400 and nothing is sent. */
  lemma EmptyNameRefused(env: Env, outcome: SendOutcome)
    ensures Handle(Event("POST", ContactBody(Some(""), Some("a@b.com"), Some("hi"))), env, outcome)
      == HandlerResult(MissingFields, None)
  {
  }
}
