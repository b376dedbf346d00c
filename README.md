# NFSe integration worker — Dafny model

This project models the decision logic of `function_app.py`, an Azure Functions
worker with two entry points:

- **EnviarNFSEFunction** (queue trigger on `integracao-nf`): decodes a queued
  invoice request, maps it to the NFE.io service-invoice payload with a fixed
  default per field (the address country is always `BRA`), refuses to post
  without both `NFE_API_KEY` and `NFE_COMPANY_ID`, posts to
  `https://api.nfe.io/v1/companies/{company}/serviceinvoices` with
  `Authorization: Basic {key}`, and classifies the reply (200 and 201 are
  success). Its whole body is one `try/except Exception`, so every failure is
  absorbed and logged; the model's `Outcome` type has no way for an exception
  to leave the handler.
- **EnviarEmailFunction** (HTTP POST): parses a JSON body, requires
  `destinatario`, `assunto` and `mensagem` to be truthy in Python's sense,
  attempts one SMTP send and answers 200, 400 or 500.

Everything that talks to the outside world is an input: the decoded queue
message, the two environment values (`Option<string>`), what the POST
returned (a status, text and parsed JSON, or a transport error), the parsed
HTTP body (or the exception parsing it raised) and the outcome of the SMTP send. Each handler returns what it
would send (`request` / `attempt`, `None` when nothing is sent) together with
its outcome, so "no POST" and "no send" are statements about that field.

Files:

- `wrappers.dfy` — `Option`.
- `json.dfy` — decoded JSON values, Python truthiness, `dict.get`, nested key lookup.
- `payload.dfy` — the payload mapper, the table of (key, JSON path, default) rules and the payload as a JSON dict.
- `nfse_handler.dfy` — credential guard, URL and headers, reply classification, the queue handler.
- `email_endpoint.dfy` — the HTTP email endpoint.

Behaviours of the code worth noting:

- The queue handler sends no notification email; it only logs the outcome (lines 66-71).
- A transport error is not turned into a status; it reaches the single
  `except` (`Failed(Transport(..))`).
- A 200/201 reply whose body is not JSON makes `response.json()` (line 69)
  raise inside the `try`, so that run also ends in the `except`
  (`Failed(SuccessReplyNotJson(..))`).
- The email endpoint rejects falsy values, not only missing ones (`""`, `0`,
  `false`, `[]`, `{}`, `null` all give 400). A JSON body that is not an
  object raises at line 90 outside any `try`, and a body nested deeper than
  Python's recursion limit raises `RecursionError`, which the
  `except ValueError` at line 87 does not catch; both escape the handler
  (`Raised`) rather than giving 400.

## Model

| member | source | states |
|---|---|---|
| `Payload.MapPayloadFollowsRule` | function_app.py:29-50 | For each of the 13 defaulted fields, the posted payload holds the message's value when the key is present and the fixed default (`"101"`, `"Serviço prestado"`, `0`, `"00000000000"`, `"Cliente não informado"`, `""`, `"00000000"`, `"Rua não informada"`, `"0"`, `""`, `"3550308"`, `"São Paulo"`, `"SP"`) when it is absent, at the field's nested position |
| `Payload.NullIsKept` | function_app.py:30-47 | A key present with value null yields null in the payload, not the default |
| `Payload.CountryIsAlwaysBra` | function_app.py:38 | `borrower.address.country` is `"BRA"` for every message |
| `Payload.OnlyRuleKeysMatter` | function_app.py:29-50 | Keys other than the 13 listed ones never influence the payload |
| `NfseHandler.HandleQueueMessage` | function_app.py:22-74 | A request is built iff the message decodes to a JSON object and both credentials are non-empty; it is exactly the mapped payload sent to the company URL with the key's header; a completed run carries the reply status and is accepted iff that status is 200 or 201 |
| `NfseHandler.NoPostWithoutCredentials` | function_app.py:52-56 | A missing or empty credential means no POST, an absorbed failure (`MissingCredentials` once the body decoded to an object), and an outcome independent of any POST result |
| `NfseHandler.DecodeFailureComesFirst` | function_app.py:23-29 | A body that is not UTF-8, not JSON or not an object ends in the except branch with that error, whatever the environment |
| `NfseHandler.SubmissionOutcome` | function_app.py:65-74 | After the POST: transport error is absorbed; 200/201 with a JSON reply is accepted; 200/201 with a non-JSON reply is absorbed; any other status is logged as rejected |
| `NfseHandler.SentRequest` | function_app.py:58-65 | The posted request targets the configured company, carries `Basic ` + key and JSON content type, and its body follows every field rule with country `BRA` |
| `NfseHandler.CompanyIdRoundTrip` | function_app.py:58 | Parsing the invoice URL gives back the company id it was built from |
| `NfseHandler.CompanyIdOfOnlyInvoiceUrls` | function_app.py:58 | A URL the parser accepts is exactly the invoice endpoint of the company it yields |
| `NfseHandler.InvoiceUrlInjective` | function_app.py:58 | Distinct companies are posted to distinct URLs |
| `NfseHandler.AuthorizationInjective` | function_app.py:62 | The Authorization header determines the API key it carries |
| `NfseHandler.AcmeAccepted` | function_app.py:27-71 | A message for Acme with amount 150 answered by 201 is accepted, and the payload has amount 150, borrower name Acme and the default state SP |
| `EmailEndpoint.HandleEmailRequest` | function_app.py:82-122 | The call raises iff the body is nested too deeply to parse or is JSON but not an object; a response with a send attempt is 200 or 500; one without is 400 |
| `EmailEndpoint.InvalidJsonRejected` | function_app.py:85-88 | A body that is not JSON gives 400 and no send |
| `EmailEndpoint.IncompleteRequestRejected` | function_app.py:90-98 | A missing or falsy field gives 400 with the field-list message, no send, whatever SMTP would do |
| `EmailEndpoint.CompleteRequestSends` | function_app.py:105-122 | With all three fields truthy exactly one send of those three values is attempted; 200 with the recipient after delivery, 500 with the error text on failure |
| `EmailEndpoint.StatusCharacterised` | function_app.py:85-122 | 200 iff the body is an object with three truthy fields and the send succeeds; a send is attempted iff the fields are complete |
| `EmailEndpoint.ConfirmationNamesRecipient` | function_app.py:117-118 | A string recipient appears verbatim in the 200 confirmation |
| `EmailEndpoint.ExampleSent` | function_app.py:86-118 | `{"destinatario":"a@b.com","assunto":"Hi","mensagem":"Hello"}` with a working relay gives 200 and one send of those values |
| `EmailEndpoint.ExampleMissingSubject` | function_app.py:90-98 | The same body without `assunto` gives 400 and no send |

## Left out

- `requests.post` and the parsing of the reply (lines 65, 69): the POST result is an input (`PostResult`).
- The UTF-8 decoding and `json.loads` of the queue message (lines 24, 27) and `req.get_json()` (line 86): their results are inputs (`Decoded`, `RequestJson`).
- `json.dumps` of the payload (line 65): the request body is the payload dict as a JSON value, not its text.
- SMTP and MIME construction (lines 106-115): the send outcome is an input (`SendResult`); the connection, TLS and login are not modelled.
- The literal sender address and password (lines 100-101) and the SMTP host and port (lines 102-103): placeholders, not logic.
- `os.getenv` (lines 52-53): the two values are inputs.
- Logging throughout, and the Azure Functions registration (lines 11, 17-21, 81): diagnostics and framework plumbing.
- JSON `NaN` and `Infinity`, which `json.loads` accepts: not representable; other JSON floats are modelled as exact reals, which only matters for truthiness and pass-through.
- EmailEndpoint.Display: renders a float, list or dict recipient as the empty string instead of Python's `str()` of it; strings, booleans, integers and null are rendered as Python does.
