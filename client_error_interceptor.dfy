/**
 * The client's error interceptor: every failed call is rethrown with a
 * `userMessage` in Portuguese chosen by an ordered chain of status checks.
 */
module ClientErrorInterceptor {
  import opened Common
  import opened ClientHttp

  const ConnectionFailed := "Não foi possível conectar ao servidor. Verifique sua conexão com a internet."
  const ServerFailed := "Erro interno do servidor. Tente novamente mais tarde."
  const SessionExpired := "Sessão expirada. Faça login novamente."
  const Forbidden := "Você não tem permissão para realizar esta ação."
  const NotFound := "Recurso não encontrado."
  const InvalidData := "Dados inválidos fornecidos."
  const Conflict := "Conflito de dados. O recurso já existe."
  const TimedOut := "Tempo limite excedido. Tente novamente."
  const Unexpected := "Ocorreu um erro inesperado. Tente novamente."

  /** `error.error?.message || fallback`. */
  function MessageOr(e: HttpFailure, fallback: string): string {
    if Truthy(BodyMessage(e)) then BodyMessage(e).value else fallback
  }

  /** `error.error?.errors?.length > 0`. */
  predicate HasErrorList(e: HttpFailure) {
    BodyErrors(e).Some? && |BodyErrors(e).value| > 0
  }

  /**
   * `getErrorMessage`: no connection (status 0) and server errors (500 and
   * up) first, then 401, 403 and 404 with fixed texts; a 400 shows its
   * `errors` entries' `message || msg` joined by ', ' when there are any, else
   * the server's message or a default; 409 the server's message or a default;
   * 408 a fixed text; anything else the server's message or a default.
   */
  function GetErrorMessage(e: HttpFailure): (m: string)
    ensures e.status == 0 ==> m == ConnectionFailed
    ensures e.status >= 500 ==> m == ServerFailed
    ensures e.status == 401 ==> m == SessionExpired
    ensures e.status == 403 ==> m == Forbidden
    ensures e.status == 404 ==> m == NotFound
    ensures e.status == 400 && HasErrorList(e) ==> m == Join(ItemTexts(BodyErrors(e).value, true), ", ")
    ensures e.status == 400 && !HasErrorList(e) ==> m == MessageOr(e, InvalidData)
    ensures e.status == 409 ==> m == MessageOr(e, Conflict)
    ensures e.status == 408 ==> m == TimedOut
    ensures e.status !in {0, 400, 401, 403, 404, 408, 409} && e.status < 500 ==> m == MessageOr(e, Unexpected)
  {
    if e.status == 0 then ConnectionFailed
    else if e.status >= 500 then ServerFailed
    else if e.status == 401 then SessionExpired
    else if e.status == 403 then Forbidden
    else if e.status == 404 then NotFound
    else if e.status == 400 then
      if HasErrorList(e) then Join(ItemTexts(BodyErrors(e).value, true), ", ")
      else MessageOr(e, InvalidData)
    else if e.status == 409 then MessageOr(e, Conflict)
    else if e.status == 408 then TimedOut
    else MessageOr(e, Unexpected)
  }

  /** The rethrown value: the original error, extended with its `userMessage`. */
  function Intercept(e: HttpFailure): (u: UserError)
    ensures u.error == e
    ensures u.userMessage == GetErrorMessage(e)
  {
    UserError(e, GetErrorMessage(e))
  }

  /**
   * No connection, server errors, 401, 403, 404 and 408 are worded by the
   * status alone: what the server sent plays no part.
   */
  lemma FixedStatusesIgnoreReply(e: HttpFailure, body: Option<ErrorBody>, message: Option<string>)
    requires e.status in {0, 401, 403, 404, 408} || e.status >= 500
    ensures GetErrorMessage(e.(body := body, message := message)) == GetErrorMessage(e)
  {
  }

  /** The only empty message is a 400 whose `errors` entries all lack a text. */
  lemma {:induction false} EmptyOnlyFromErrorList(e: HttpFailure)
    requires GetErrorMessage(e) == ""
    ensures e.status == 400 && HasErrorList(e)
    ensures forall i :: 0 <= i < |BodyErrors(e).value| ==> FirstText(BodyErrors(e).value[i].message, BodyErrors(e).value[i].msg) == ""
  {
    var texts := ItemTexts(BodyErrors(e).value, true);
    JoinEmpty(texts, ", ");
  }

  /** One validation entry is shown as its own text, `message` before `msg`. */
  lemma SingleErrorShown(e: HttpFailure, item: ErrorItem)
    requires e.status == 400 && BodyErrors(e) == Some([item])
    ensures GetErrorMessage(e) == FirstText(item.message, item.msg)
  {
    assert ItemTexts([item], true) == [FirstText(item.message, item.msg)];
  }
}
