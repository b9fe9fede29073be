/** Telegram alert subscriptions and the token-free form the API answers with. */
module AlertTypes {
  import opened Wrappers
  import opened GoTime

  const AlertTypeAll := "all"
  const AlertTypeNormal := "normal"
  const AlertTypeWarning := "warning"

  /** One subscription: where to send (bot token, chat, optional thread), what, and for which namespace. */
  datatype TelegramAlert = TelegramAlert(
    id: int,
    botToken: string,
    chatId: string,
    threadId: Option<int>,
    alertType: string,
    namespace: string,
    createdAt: Time)

  /** The API form of an alert: every field except the bot token. */
  datatype TelegramAlertResponse = TelegramAlertResponse(
    id: int,
    chatId: string,
    threadId: Option<int>,
    alertType: string,
    namespace: string,
    createdAt: Time)

  /** A response whose fields are all Go zero values, as `make` fills a slice. */
  const ZeroResponse := TelegramAlertResponse(0, "", None, "", "", ZeroTime)

  /** The controllers' mapping from an alert to its response. */
  function ToResponse(a: TelegramAlert): (r: TelegramAlertResponse)
    ensures FromResponse(r, a.botToken) == a
  {
    TelegramAlertResponse(a.id, a.chatId, a.threadId, a.alertType, a.namespace, a.createdAt)
  }

  /** The alert a response came from, once the token it leaves out is supplied again. */
  function FromResponse(r: TelegramAlertResponse, botToken: string): (a: TelegramAlert)
    ensures a.botToken == botToken
  {
    TelegramAlert(r.id, botToken, r.chatId, r.threadId, r.alertType, r.namespace, r.createdAt)
  }

  /** The response does not depend on the token: two alerts that differ only in it answer the same. */
  lemma ResponseHidesToken(a: TelegramAlert, token: string)
    ensures ToResponse(a.(botToken := token)) == ToResponse(a)
  {
  }

  /** Apart from the token, the response determines the alert: the mapping loses nothing else. */
  lemma ResponseKeepsTheRest(a: TelegramAlert, b: TelegramAlert)
    requires ToResponse(a) == ToResponse(b)
    ensures a == b.(botToken := a.botToken)
  {
    assert FromResponse(ToResponse(a), a.botToken) == a;
    assert FromResponse(ToResponse(b), a.botToken) == b.(botToken := a.botToken);
  }
}
