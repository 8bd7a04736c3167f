/** The error taxonomy of the client: every class declared under `Mandrill`
    as a subclass of `Mandrill::Error`, and the table the call primitive uses
    to turn a server-reported error name into one of them. */
module Errors {
  import opened Wrappers
  import opened Json

  /** `Mandrill::Error` itself and its fourteen subclasses, flattened. */
  datatype ErrorKind =
    | Error
    | ValidationError
    | InvalidKeyError
    | PaymentRequiredError
    | UnknownTemplateError
    | ServiceUnavailableError
    | UnknownMessageError
    | InvalidTagNameError
    | InvalidRejectError
    | UnknownSenderError
    | UnknownUrlError
    | InvalidTemplateError
    | UnknownWebhookError
    | UnknownInboundDomainError
    | UnknownExportError

  /** A raised error: its class and the object handed to `raise` as its
      message (the server may send any JSON value there, or none). */
  datatype MandrillError = MandrillError(kind: ErrorKind, message: Json)

  /** The server error names the client recognises, with the class each one
      raises. */
  const ErrorMap: map<string, ErrorKind> := map[
    "ValidationError" := ValidationError,
    "Invalid_Key" := InvalidKeyError,
    "Unknown_Template" := UnknownTemplateError,
    "Invalid_Tag_Name" := InvalidTagNameError,
    "Invalid_Reject" := InvalidRejectError,
    "Unknown_Sender" := UnknownSenderError,
    "Unknown_Url" := UnknownUrlError,
    "Invalid_Template" := InvalidTemplateError,
    "Unknown_Webhook" := UnknownWebhookError
  ]

  /** Declared classes that no server error name leads to. */
  const Unmapped: set<ErrorKind> := {
    PaymentRequiredError, ServiceUnavailableError, UnknownMessageError,
    UnknownInboundDomainError, UnknownExportError
  }

  /** The server error name for a kind, read off the kind alone: the reverse
      direction of `ErrorMap`. */
  function NameOf(kind: ErrorKind): (n: Option<string>)
    ensures n.None? <==> kind == Error || kind in Unmapped
  {
    match kind
    case ValidationError => Some("ValidationError")
    case InvalidKeyError => Some("Invalid_Key")
    case UnknownTemplateError => Some("Unknown_Template")
    case InvalidTagNameError => Some("Invalid_Tag_Name")
    case InvalidRejectError => Some("Invalid_Reject")
    case UnknownSenderError => Some("Unknown_Sender")
    case UnknownUrlError => Some("Unknown_Url")
    case InvalidTemplateError => Some("Invalid_Template")
    case UnknownWebhookError => Some("Unknown_Webhook")
    case _ => None
  }

  /** `error_map[name]` where `name` is whatever the server put in the
      `name` field: only a string equal to one of the table's keys finds a
      class. */
  function Lookup(name: Json): (k: Option<ErrorKind>)
    ensures k.Some? <==> name.JString? && name.s in ErrorMap
    ensures k.Some? ==> NameOf(k.value) == Some(name.s)
    ensures k.Some? ==> k.value != Error && k.value !in Unmapped
  {
    if name.JString? && name.s in ErrorMap then Some(ErrorMap[name.s]) else None
  }

  /** The table and its reverse agree in both directions: a name maps to a
      kind exactly when that kind's name is that name. */
  lemma NameOfInvertsErrorMap(n: string, k: ErrorKind)
    ensures (n in ErrorMap && ErrorMap[n] == k) <==> NameOf(k) == Some(n)
  {
  }

  /** Distinct names raise distinct classes. */
  lemma ErrorMapInjective(n1: string, n2: string)
    requires n1 in ErrorMap && n2 in ErrorMap
    requires n1 != n2
    ensures ErrorMap[n1] != ErrorMap[n2]
  {
    NameOfInvertsErrorMap(n1, ErrorMap[n1]);
    NameOfInvertsErrorMap(n2, ErrorMap[n2]);
  }

  /** The nine server error names the source lists. */
  const ErrorNames: set<string> := {
    "ValidationError", "Invalid_Key", "Unknown_Template", "Invalid_Tag_Name",
    "Invalid_Reject", "Unknown_Sender", "Unknown_Url", "Invalid_Template",
    "Unknown_Webhook"
  }

  /** The table is keyed by exactly the listed names. */
  lemma ErrorMapKeys()
    ensures ErrorMap.Keys == ErrorNames
  {
  }

  /** The listed names are nine distinct strings. */
  lemma ErrorNamesCount()
    ensures |ErrorNames| == 9
  {
  }

  /** The table has exactly nine entries, keyed by the nine listed names. */
  lemma ErrorMapSize()
    ensures ErrorMap.Keys == ErrorNames
    ensures |ErrorMap| == 9
  {
    ErrorMapKeys();
    ErrorNamesCount();
  }

  /** The classes the table reaches are exactly the declared ones other than
      the base class and the five unmapped ones. */
  lemma ErrorMapRange(k: ErrorKind)
    ensures k in ErrorMap.Values <==> k != Error && k !in Unmapped
  {
    if k != Error && k !in Unmapped {
      NameOfInvertsErrorMap(NameOf(k).value, k);
    }
  }
}
