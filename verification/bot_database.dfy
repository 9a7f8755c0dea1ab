/** The conversation-context table of bot/database.py (`contexto_conversas`): each
    user and guild has one row holding the last messages exchanged, the instant of the
    last update and a running message count.

    The table is a `map` from `(user_id, guild_id)` to its row; the JSON encoding of the
    message list is left out (a row holds the decoded list), and `datetime.now()` is the
    parameter `now`. */
module BotDatabase {
  import opened Results
  import opened Text

  /** `update_conversation_context` keeps at most this many messages per row. */
  const MaxStoredMessages := 20

  /** The default `limit` of `get_conversation_context`. */
  const DefaultLimit := 10

  /** One stored exchange. */
  datatype Message = Message(timestamp: nat, userMessage: string, botResponse: string)

  /** One row of `contexto_conversas`. */
  datatype StoredContext = StoredContext(messages: seq<Message>, lastUpdated: nat, totalMessages: int)

  /** What `get_conversation_context` returns. */
  datatype ConversationContext = ConversationContext(userId: int, guildId: int, messages: seq<Message>,
                                                     lastUpdated: nat, totalMessages: int)

  type Table = map<(int, int), StoredContext>

  /** Every row keeps at most twenty messages, and never more than it has counted. */
  predicate TableValid(table: Table)
  {
    forall key :: key in table ==> |table[key].messages| <= MaxStoredMessages
                                   && |table[key].messages| <= table[key].totalMessages
  }

  /** The table after `update_conversation_context`: the row of the conversation (or an
      empty one with count 0 when there is none) gains the new exchange, keeps the last
      twenty, is stamped `now`, and counts one more message. */
  function UpdatedTable(table: Table, userId: int, guildId: int, userMessage: string,
                        botResponse: string, now: nat): Table
  {
    var key := (userId, guildId);
    var current := if key in table then table[key].messages else [];
    var total := if key in table then table[key].totalMessages else 0;
    table[key := StoredContext(LastN(current + [Message(now, userMessage, botResponse)], MaxStoredMessages),
                               now, total + 1)]
  }

  /** `get_conversation_context`: the row's last `limit` messages (Python's
      `messages[-limit:]`), or `None` when the conversation has no row. */
  function GetConversationContext(table: Table, userId: int, guildId: int, limit: int)
    : (r: Option<ConversationContext>)
    ensures r.None? <==> (userId, guildId) !in table
    ensures r.Some? ==> var row := table[(userId, guildId)];
                        && r.value.lastUpdated == row.lastUpdated
                        && r.value.totalMessages == row.totalMessages
                        && (limit > 0 ==> r.value.messages == LastN(row.messages, limit))
                        && (limit == 0 ==> r.value.messages == row.messages)
  {
    var key := (userId, guildId);
    if key !in table then None
    else
      var row := table[key];
      Some(ConversationContext(userId, guildId, PySliceFrom(row.messages, -limit),
                               row.lastUpdated, row.totalMessages))
  }

  /** The store of conversation contexts. */
  class BotDatabase {
    var contexts: Table

    predicate Valid()
      reads this
    {
      TableValid(contexts)
    }

    constructor()
      ensures Valid() && contexts == map[]
    {
      contexts := map[];
    }

    /** `update_conversation_context`, step by step as the source does it. */
    method UpdateConversationContext(userId: int, guildId: int, userMessage: string,
                                     botResponse: string, now: nat)
      requires Valid()
      modifies this
      ensures Valid()
      ensures contexts == UpdatedTable(old(contexts), userId, guildId, userMessage, botResponse, now)
    {
      var key := (userId, guildId);
      var currentMessages: seq<Message> := [];
      var totalMessages := 0;
      if key in contexts {
        currentMessages := contexts[key].messages;
        totalMessages := contexts[key].totalMessages;
      }
      ghost var before := currentMessages;
      currentMessages := currentMessages + [Message(now, userMessage, botResponse)];
      if |currentMessages| > MaxStoredMessages {
        currentMessages := currentMessages[|currentMessages| - MaxStoredMessages..];
      }
      assert currentMessages == LastN(before + [Message(now, userMessage, botResponse)], MaxStoredMessages);
      UpdatePreservesValid(contexts, userId, guildId, userMessage, botResponse, now);
      contexts := contexts[key := StoredContext(currentMessages, now, totalMessages + 1)];
    }
  }

  // ---------------------------------------------------------------- properties

  /** After an update the row holds at most twenty messages: the latest nineteen it held
      before, in order, then the new exchange; its count grows by exactly one even when
      old messages are dropped, and starts from 0 for a new conversation. No other row
      changes. */
  lemma UpdateKeepsLatest(table: Table, userId: int, guildId: int, userMessage: string,
                          botResponse: string, now: nat)
    ensures var key := (userId, guildId);
            var updated := UpdatedTable(table, userId, guildId, userMessage, botResponse, now);
            var before := if key in table then table[key].messages else [];
            var row := updated[key];
            && key in updated
            && 1 <= |row.messages| <= MaxStoredMessages
            && |row.messages| == Min(|before| + 1, MaxStoredMessages)
            && row.messages == LastN(before, MaxStoredMessages - 1) + [Message(now, userMessage, botResponse)]
            && row.lastUpdated == now
            && row.totalMessages == (if key in table then table[key].totalMessages else 0) + 1
            && (forall other :: other != key ==> (other in updated <==> other in table))
            && (forall other :: other != key && other in table ==> updated[other] == table[other])
  {
    var key := (userId, guildId);
    var before := if key in table then table[key].messages else [];
    LastNSnoc(before, Message(now, userMessage, botResponse), MaxStoredMessages);
  }

  /** Updates keep every row within its bounds. */
  lemma UpdatePreservesValid(table: Table, userId: int, guildId: int, userMessage: string,
                             botResponse: string, now: nat)
    requires TableValid(table)
    ensures TableValid(UpdatedTable(table, userId, guildId, userMessage, botResponse, now))
  {
    UpdateKeepsLatest(table, userId, guildId, userMessage, botResponse, now);
  }

  /** Reading a conversation right after updating it gives the new exchange as its last
      message, whatever positive `limit` is asked for. */
  lemma ReadAfterUpdate(table: Table, userId: int, guildId: int, userMessage: string,
                        botResponse: string, now: nat, limit: int)
    requires limit > 0
    ensures var r := GetConversationContext(UpdatedTable(table, userId, guildId, userMessage, botResponse, now),
                                            userId, guildId, limit);
            && r.Some?
            && 1 <= |r.value.messages| <= limit
            && r.value.messages[|r.value.messages| - 1] == Message(now, userMessage, botResponse)
            && r.value.lastUpdated == now
  {
    UpdateKeepsLatest(table, userId, guildId, userMessage, botResponse, now);
  }
}
