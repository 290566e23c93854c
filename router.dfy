/** The call router of app.py (`route_call`): a fixed message per dialled number. */
module Router {

  const SupportCallee := "suporte"
  const SalesCallee := "vendas"

  const SupportMessage := "Você será conectado ao suporte técnico."
  const SalesMessage := "Você será conectado ao departamento de vendas."
  /** The message for every number the router does not know. */
  const UnknownNumberMessage := "Desculpe, não reconhecemos o número discado."

  /** `route_call(caller, callee)`: total, never raises, and looks at `callee` only. */
  function RouteCall(caller: string, callee: string): (r: string)
    ensures r == SupportMessage <==> callee == SupportCallee
    ensures r == SalesMessage <==> callee == SalesCallee
    ensures r == UnknownNumberMessage <==> callee != SupportCallee && callee != SalesCallee
  {
    if callee == SupportCallee then SupportMessage
    else if callee == SalesCallee then SalesMessage
    else UnknownNumberMessage
  }

  /** The routing message does not depend on who is calling. */
  lemma RouteCallIgnoresCaller(caller: string, caller': string, callee: string)
    ensures RouteCall(caller, callee) == RouteCall(caller', callee)
  {
  }

  /** The router answers with one of exactly three messages. */
  lemma RouteCallRange(caller: string, callee: string)
    ensures RouteCall(caller, callee) in {SupportMessage, SalesMessage, UnknownNumberMessage}
  {
  }
}
