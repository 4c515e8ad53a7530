/**
 * JavaScript error values as the storefront inspects them, and the
 * classification `useErrorHandler().handleError` applies to them.
 */
module ErrorHandler {
  import opened Wrappers
  import opened JsText

  /** `error.response` of an HTTP client error. */
  datatype HttpResponse = HttpResponse(status: Option<int>, statusText: string, dataMessage: Option<string>)

  /**
   * A thrown value: its optional `response`, its optional `message`, and its
   * `String(err)` spelling.
   */
  datatype JsError = JsError(response: Option<HttpResponse>, message: Option<string>, repr: string)

  /** `new Error(m)`. */
  function ErrorOf(m: string): (e: JsError)
    ensures e.response.None? && e.message == Some(m)
  {
    JsError(None, Some(m), "Error: " + m)
  }

  /** A JavaScript string is truthy when it is not empty. */
  predicate Truthy(s: Option<string>) { s.Some? && s.value != "" }

  datatype ErrorInfo = ErrorInfo(title: string, message: string, status: Option<int>)

  /** The returned `{title, message, status}` and whether an error toast was shown. */
  datatype Handled = Handled(info: ErrorInfo, toast: bool)

  const DefaultTitle := "Error"
  const DefaultMessage := "Ha ocurrido un error inesperado."
  const ConnectionTitle := "Error de conexión"
  const ConnectionMessage := "Revisa tu conexión a internet e inténtalo de nuevo."

  /** The fixed (title, message) pair of a recognised HTTP status. */
  function KnownStatus(status: int): Option<(string, string)> {
    if status == 404 then Some(("No encontrado", "El recurso solicitado no fue encontrado."))
    else if status == 401 then Some(("No autorizado", "No tienes permisos para acceder a este recurso."))
    else if status == 403 then Some(("Acceso denegado", "No tienes permisos suficientes."))
    else if status == 500 then Some(("Error del servidor", "Error interno del servidor. Inténtalo más tarde."))
    else None
  }

  /** `${status}` in a template: the number, or "undefined". */
  function StatusText(status: Option<int>): string {
    if status.Some? then IntToString(status.value) else "undefined"
  }

  function TitleAndMessage(e: JsError): (string, string) {
    match e.response
    case Some(resp) =>
      if resp.status.Some? && KnownStatus(resp.status.value).Some? then KnownStatus(resp.status.value).value
      else if Truthy(resp.dataMessage) then (DefaultTitle, resp.dataMessage.value)
      else (DefaultTitle, "Error " + StatusText(resp.status) + ": " + resp.statusText)
    case None =>
      if !Truthy(e.message) then (DefaultTitle, DefaultMessage)
      else if Contains(e.message.value, "Network Error") then (ConnectionTitle, ConnectionMessage)
      else (DefaultTitle, e.message.value)
  }

  function HandleError(e: JsError): (h: Handled)
    ensures h.info.status == (if e.response.Some? then e.response.value.status else None)
    ensures h.toast <==> (h.info.status.Some? && h.info.status.value >= 500) || h.info.title == ConnectionTitle
  {
    var status := if e.response.Some? then e.response.value.status else None;
    var (title, message) := TitleAndMessage(e);
    Handled(ErrorInfo(title, message, status), (status.Some? && status.value != 0 && status.value >= 500) || title == ConnectionTitle)
  }

  /** The four recognised statuses map to their fixed pair; any other keeps "Error". */
  lemma ResponseClassification(e: JsError)
    requires e.response.Some?
    ensures var resp := e.response.value; var h := HandleError(e);
      && (resp.status.Some? && KnownStatus(resp.status.value).Some? ==>
            (h.info.title, h.info.message) == KnownStatus(resp.status.value).value)
      && (resp.status.None? || KnownStatus(resp.status.value).None? ==>
            h.info.title == DefaultTitle
            && h.info.message == (if Truthy(resp.dataMessage) then resp.dataMessage.value
                                  else "Error " + StatusText(resp.status) + ": " + resp.statusText))
    ensures HandleError(e).info.title != ConnectionTitle
  {
  }

  /** Without a response: a network failure, a plain message, or the defaults. */
  lemma NoResponseClassification(e: JsError)
    requires e.response.None?
    ensures var h := HandleError(e);
      && h.info.status.None?
      && (!Truthy(e.message) ==> h.info == ErrorInfo(DefaultTitle, DefaultMessage, None))
      && (Truthy(e.message) && Contains(e.message.value, "Network Error") ==>
            h.info == ErrorInfo(ConnectionTitle, ConnectionMessage, None) && h.toast)
      && (Truthy(e.message) && !Contains(e.message.value, "Network Error") ==>
            h.info == ErrorInfo(DefaultTitle, e.message.value, None) && !h.toast)
  {
  }

  /** A 503 from the server keeps the title "Error" but is toasted; a 404 is not toasted. */
  lemma ToastExamples(t: string)
    ensures HandleError(JsError(Some(HttpResponse(Some(503), t, None)), None, "")).toast
    ensures HandleError(JsError(Some(HttpResponse(Some(503), t, None)), None, "")).info.title == DefaultTitle
    ensures !HandleError(JsError(Some(HttpResponse(Some(404), t, None)), None, "")).toast
  {
  }
}
