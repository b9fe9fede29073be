/** The Telegram alert service: a bot cache keyed by token, sending, and delegation to the repository. */
module AlertService {
  import opened Wrappers
  import opened GoTime
  import opened Decimal
  import opened Seqs
  import opened AlertTypes
  import opened AlertRepository

  /** A bot client instance, known only by its identity. */
  datatype Bot = Bot(handle: nat)

  /** The message handed to the bot: chat, text, and the message it replies to (0 for none). */
  datatype Message = Message(chatId: int, text: string, replyToMessageId: int)

  datatype SendError =
    | BotUnavailable(cause: string) // "failed to get bot instance: %w"
    | InvalidChatId(chatId: string) // "invalid chat ID: %w"
    | SendFailed(cause: string)     // "failed to send telegram message: %w"

  const CreateBotFailed := "failed to create bot instance: "

  /**
   * One getBot call on `cache`, where `create` is what creating a bot for the token gives:
   * the bot it answers with and the cache after it.
   */
  function BotLookup(cache: map<string, Bot>, token: string, create: Result<Bot, string>): (r: (Result<Bot, string>, map<string, Bot>))
    ensures forall t :: t in cache ==> t in r.1 && r.1[t] == cache[t]
    ensures forall t :: t in r.1 ==> t in cache || t == token
    ensures r.0.Success? ==> token in r.1 && r.1[token] == r.0.value
    ensures r.0.Failure? ==> r.1 == cache
  {
    if token in cache then (Success(cache[token]), cache)
    else match create
      case Failure(e) => (Failure(CreateBotFailed + e), cache)
      case Success(bot) => (Success(bot), cache[token := bot])
  }

  /** The cache after a sequence of getBot calls, each a token and what creating its bot would give. */
  function Lookups(cache: map<string, Bot>, calls: seq<(string, Result<Bot, string>)>): (r: map<string, Bot>)
    decreases |calls|
  {
    if calls == [] then cache
    else
      var last := calls[|calls| - 1];
      BotLookup(Lookups(cache, calls[..|calls| - 1]), last.0, last.1).1
  }

  /** Entries are never removed or replaced: a cached bot survives any sequence of calls. */
  lemma {:induction false} CachedBotStays(cache: map<string, Bot>, calls: seq<(string, Result<Bot, string>)>, token: string)
    requires token in cache
    ensures token in Lookups(cache, calls) && Lookups(cache, calls)[token] == cache[token]
    decreases |calls|
  {
    if calls != [] {
      CachedBotStays(cache, calls[..|calls| - 1], token);
    }
  }

  /** So once a token is cached, every later call for it answers with the same bot and creates none. */
  lemma LaterLookupsAgree(cache: map<string, Bot>, calls: seq<(string, Result<Bot, string>)>, token: string,
                          create: Result<Bot, string>)
    requires token in cache
    ensures BotLookup(Lookups(cache, calls), token, create) == (Success(cache[token]), Lookups(cache, calls))
  {
    CachedBotStays(cache, calls, token);
  }

  /** The reply-to field of the message for an alert: the thread id when there is one, else NewMessage's 0. */
  function ReplyTo(alert: TelegramAlert): (r: int)
    ensures alert.threadId.Some? ==> r == alert.threadId.value
    ensures alert.threadId.None? ==> r == 0
  {
    match alert.threadId
    case Some(thread) => thread
    case None => 0
  }

  class TelegramAlertService {
    const repository: AlertTable
    var botCache: map<string, Bot>

    constructor (repository: AlertTable)
      ensures this.repository == repository && botCache == map[]
    {
      this.repository := repository;
      botCache := map[];
    }

    /**
     * getBot: a cached bot is returned without creating one; otherwise a bot is created and, when
     * that succeeds, cached under the token. `created` says whether creation was attempted. The
     * second cache check under the write lock is left out: calls being sequential, it finds what the
     * first found.
     */
    method GetBot(token: string, create: Result<Bot, string>) returns (r: Result<Bot, string>, created: bool)
      modifies this
      ensures created <==> token !in old(botCache)
      ensures token in old(botCache) ==> r == Success(old(botCache)[token]) && botCache == old(botCache)
      ensures token !in old(botCache) && create.Success? ==> r == create && botCache == old(botCache)[token := create.value]
      ensures token !in old(botCache) && create.Failure? ==> r == Failure(CreateBotFailed + create.error) && botCache == old(botCache)
      ensures (r, botCache) == BotLookup(old(botCache), token, create)
    {
      if token in botCache {
        return Success(botCache[token]), false;
      }
      created := true;
      match create
      case Failure(e) =>
        return Failure(CreateBotFailed + e), created;
      case Success(bot) =>
        botCache := botCache[token := bot];
        return Success(bot), created;
    }

    /**
     * SendAlert: get the bot, then parse the chat id as a base-10 int64, then send. `sent` is the
     * bot and message handed to Send, and `sendErr` what Send reports.
     */
    method SendAlert(alert: TelegramAlert, message: string, create: Result<Bot, string>, sendErr: Option<string>)
      returns (err: Option<SendError>, sent: Option<(Bot, Message)>)
      modifies this
      ensures (BotLookup(old(botCache), alert.botToken, create).1) == botCache
      ensures var bot := BotLookup(old(botCache), alert.botToken, create).0;
              && (bot.Failure? ==> err == Some(BotUnavailable(bot.error)) && sent.None?)
              && (bot.Success? && ParseInt64(alert.chatId).None? ==> err == Some(InvalidChatId(alert.chatId)) && sent.None?)
              && (bot.Success? && ParseInt64(alert.chatId).Some? ==>
                    sent == Some((bot.value, Message(ParseInt64(alert.chatId).value, message, ReplyTo(alert))))
                    && err == if sendErr.Some? then Some(SendFailed(sendErr.value)) else None)
    {
      var bot, _ := GetBot(alert.botToken, create);
      if bot.Failure? {
        return Some(BotUnavailable(bot.error)), None;
      }
      var chatId := ParseInt64(alert.chatId);
      if chatId.None? {
        return Some(InvalidChatId(alert.chatId)), None;
      }
      var msg := Message(chatId.value, message, 0);
      if alert.threadId.Some? {
        msg := msg.(replyToMessageId := alert.threadId.value);
      }
      sent := Some((bot.value, msg));
      if sendErr.Some? {
        return Some(SendFailed(sendErr.value)), sent;
      }
      return None, sent;
    }

    method CreateAlert(alert: TelegramAlert, now: Time, dbErr: Option<string>, scanErr: Option<string>)
      returns (err: Option<RepoError>)
      requires repository.Valid()
      modifies repository
      ensures repository.Valid()
      ensures dbErr.Some? ==> err == Some(CreateFailed(dbErr.value)) && repository.rows == old(repository.rows)
                              && repository.nextId == old(repository.nextId)
      ensures dbErr.None? ==> repository.rows == old(repository.rows) + [Inserted(alert, old(repository.nextId), now)]
                              && repository.nextId == old(repository.nextId) + 1
      ensures dbErr.None? ==> err == if scanErr.Some? then Some(IdScanFailed(scanErr.value)) else None
    {
      err := repository.CreateAlert(alert, now, dbErr, scanErr);
    }

    method UpdateAlert(alert: TelegramAlert, dbErr: Option<string>) returns (err: Option<RepoError>)
      requires repository.Valid()
      modifies repository
      ensures repository.Valid()
      ensures err == if dbErr.Some? then Some(UpdateFailed(dbErr.value)) else None
      ensures repository.rows == if dbErr.None? then Updated(old(repository.rows), alert) else old(repository.rows)
      ensures repository.nextId == old(repository.nextId)
    {
      err := repository.UpdateAlert(alert, dbErr);
    }

    method DeleteAlert(id: int, dbErr: Option<string>) returns (err: Option<RepoError>)
      requires repository.Valid()
      modifies repository
      ensures repository.Valid()
      ensures err == if dbErr.Some? then Some(DeleteFailed(dbErr.value)) else None
      ensures repository.rows == if dbErr.None? then Filter(old(repository.rows), NotId(id)) else old(repository.rows)
      ensures repository.nextId == old(repository.nextId)
    {
      err := repository.DeleteAlert(id, dbErr);
    }

    method GetAlert(id: int, dbErr: Option<string>) returns (r: Result<TelegramAlert, RepoError>)
      requires repository.Valid()
      ensures r == GetResult(repository.rows, id, dbErr)
    {
      r := repository.GetAlert(id, dbErr);
    }

    method GetAlertsByNamespace(namespace: string, dbErr: Option<string>) returns (r: Result<seq<TelegramAlert>, RepoError>)
      ensures r == ByNamespaceResult(repository.rows, namespace, dbErr)
    {
      r := repository.GetAlertsByNamespace(namespace, dbErr);
    }

    method GetAllAlerts(dbErr: Option<string>) returns (r: Result<seq<TelegramAlert>, RepoError>)
      ensures r == AllResult(repository.rows, dbErr)
    {
      r := repository.GetAllAlerts(dbErr);
    }
  }
}
