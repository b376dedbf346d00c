/**
 * The HTTP email endpoint (EnviarEmailFunction): parse the JSON body, require
 * three truthy fields, attempt one send, map the outcome to a status code.
 *
 * SMTP is an input: the handler receives what the send attempt would give,
 * and reports the mail it attempts to send (None when it attempts nothing).
 */
module EmailEndpoint {
  import opened Wrappers
  import opened Json

  /** What the SMTP exchange gives: success, or an exception with its `str(e)`. */
  datatype SendResult = Delivered | SendFailed(error: string)

  /** The message handed to SMTP: recipient, subject and plain-text body. */
  datatype Mail = Mail(to: JsonValue, subject: JsonValue, text: JsonValue)

  datatype HttpResponse = HttpResponse(status: int, body: string)

  /** What `req.get_json()` does: raise ValueError (a body that is not JSON),
      raise RecursionError (a JSON document nested deeper than Python's
      recursion limit, which the `except ValueError` does not catch), or
      return the decoded value. */
  datatype RequestJson = InvalidJson | TooDeep | Parsed(value: JsonValue)

  /** A response with the send attempted (if any), or an exception that
      escapes the handler: the RecursionError of a too deeply nested body,
      or `.get` on a JSON body that is not an object, both raised outside
      every handler that would catch them. */
  datatype EmailReply =
    | Replied(response: HttpResponse, attempt: Option<Mail>)
    | Raised

  const InvalidBodyText: string := "❌ Corpo da requisição inválido."
  const MissingFieldsText: string := "❌ Campos obrigatórios: destinatario, assunto e mensagem."
  const SentPrefix: string := "E-mail enviado para "
  const FailedPrefix: string := "Erro ao enviar e-mail: "

  function DigitChar(d: nat): char
    requires d < 10
  {
    "0123456789"[d]
  }

  /** Decimal digits of a natural number, as `str` writes them. */
  function NatToDecimal(n: nat): string
  {
    if n < 10 then [DigitChar(n)] else NatToDecimal(n / 10) + [DigitChar(n % 10)]
  }

  /** `str(v)` for the JSON values a recipient can be; floats, lists and
      dicts are not rendered. */
  function Display(v: JsonValue): string
  {
    match v
    case JNull => "None"
    case JBool(b) => if b then "True" else "False"
    case JInt(i) => if i < 0 then "-" + NatToDecimal(-i) else NatToDecimal(i)
    case JString(s) => s
    case _ => ""
  }

  /** One call of the endpoint, given what `req.get_json()` does with the body. */
  function HandleEmailRequest(body: RequestJson, send: SendResult): (r: EmailReply)
    ensures r.Raised? <==> body.TooDeep? || (body.Parsed? && !body.value.JObject?)
    ensures r.Replied? && r.attempt.Some? ==> r.response.status in {200, 500}
    ensures r.Replied? && r.attempt.None? ==> r.response.status == 400
  {
    match body
    case InvalidJson => Replied(HttpResponse(400, InvalidBodyText), None)
    case TooDeep => Raised
    case Parsed(json) =>
      if !json.JObject? then Raised
      else
        var destinatario := Get(json.fields, "destinatario");
        var assunto := Get(json.fields, "assunto");
        var mensagem := Get(json.fields, "mensagem");
        if !Truthy(destinatario) || !Truthy(assunto) || !Truthy(mensagem) then
          Replied(HttpResponse(400, MissingFieldsText), None)
        else
          var mail := Mail(destinatario, assunto, mensagem);
          match send
          case Delivered => Replied(HttpResponse(200, SentPrefix + Display(destinatario)), Some(mail))
          case SendFailed(e) => Replied(HttpResponse(500, FailedPrefix + e), Some(mail))
  }

  /** All three fields present and truthy. */
  predicate Complete(fields: map<string, JsonValue>)
  {
    Truthy(Get(fields, "destinatario")) && Truthy(Get(fields, "assunto")) && Truthy(Get(fields, "mensagem"))
  }

  /** A body that is not JSON gives 400 and attempts no send. */
  lemma InvalidJsonRejected(send: SendResult)
    ensures HandleEmailRequest(InvalidJson, send) == Replied(HttpResponse(400, InvalidBodyText), None)
  {
  }

  /** A missing or falsy field gives 400 with the field list, attempts no
      send, and the SMTP side makes no difference. */
  lemma IncompleteRequestRejected(fields: map<string, JsonValue>, send: SendResult, other: SendResult)
    requires !Complete(fields)
    ensures HandleEmailRequest(Parsed(JObject(fields)), send) == Replied(HttpResponse(400, MissingFieldsText), None)
    ensures HandleEmailRequest(Parsed(JObject(fields)), send) == HandleEmailRequest(Parsed(JObject(fields)), other)
  {
  }

  /** A complete request attempts exactly one send, of those three values;
      200 with the recipient after delivery, 500 with the error text otherwise. */
  lemma CompleteRequestSends(fields: map<string, JsonValue>, send: SendResult)
    requires Complete(fields)
    ensures var r := HandleEmailRequest(Parsed(JObject(fields)), send);
      && r.Replied?
      && r.attempt == Some(Mail(fields["destinatario"], fields["assunto"], fields["mensagem"]))
      && (send.Delivered? ==> r.response == HttpResponse(200, SentPrefix + Display(fields["destinatario"])))
      && (send.SendFailed? ==> r.response == HttpResponse(500, FailedPrefix + send.error))
  {
  }

  /** 200 exactly when the body is an object with all three fields truthy and
      the send succeeded; a send is attempted exactly when the fields are complete. */
  lemma StatusCharacterised(body: RequestJson, send: SendResult)
    ensures var r := HandleEmailRequest(body, send);
      && (r.Replied? && r.response.status == 200 <==>
           body.Parsed? && body.value.JObject? && Complete(body.value.fields) && send.Delivered?)
      && (r.Replied? && r.attempt.Some? <==>
           body.Parsed? && body.value.JObject? && Complete(body.value.fields))
  {
  }

  /** A string recipient appears verbatim in the confirmation. */
  lemma ConfirmationNamesRecipient(fields: map<string, JsonValue>, to: string)
    requires Complete(fields) && fields["destinatario"] == JString(to)
    ensures HandleEmailRequest(Parsed(JObject(fields)), Delivered).response.body == "E-mail enviado para " + to
  {
  }

  /** {"destinatario":"a@b.com","assunto":"Hi","mensagem":"Hello"} with a working relay. */
  lemma ExampleSent()
    ensures var fields := map["destinatario" := JString("a@b.com"), "assunto" := JString("Hi"), "mensagem" := JString("Hello")];
      HandleEmailRequest(Parsed(JObject(fields)), Delivered)
      == Replied(HttpResponse(200, "E-mail enviado para a@b.com"),
                 Some(Mail(JString("a@b.com"), JString("Hi"), JString("Hello"))))
  {
  }

  /** The same body without "assunto": 400 and no send. */
  lemma ExampleMissingSubject(send: SendResult)
    ensures var fields := map["destinatario" := JString("a@b.com"), "mensagem" := JString("Hello")];
      HandleEmailRequest(Parsed(JObject(fields)), send) == Replied(HttpResponse(400, MissingFieldsText), None)
  {
  }
}
