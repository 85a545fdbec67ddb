/**
 * The live-chat and customer-question store behind `/api/notifications`:
 * chat records keyed by their unique session id, each with its message
 * list, and question records keyed by id, every question change copied to
 * the question sheet of the spreadsheet mirror. Clock readings are
 * parameters (`now`, `sheetTime`); the e-mail notifications the handlers
 * start without waiting are outside this module.
 */
module ChatStore {
  import opened Common
  import SheetsMirror

  // ---------------------------------------------------------------------
  // Records
  // ---------------------------------------------------------------------

  datatype ChatStatus = Pending | Active | Ended

  /** A chat message; `sender` is stored as given. */
  datatype Message = Message(text: string, sender: string, employeeName: string, read: bool, timestamp: int)

  datatype Chat = Chat(sessionId: string, customerName: string, status: ChatStatus, messages: seq<Message>,
                       acceptedBy: string, acceptedAt: Option<int>, endedAt: Option<int>, endedBy: string,
                       createdAt: int, lastUpdate: int)

  datatype Question = Question(phone: string, question: string, ipAddress: string, read: bool, createdAt: int)

  const DefaultCustomerName := "고객"

  /** What the schema declares of a message: a text and one of the two senders. */
  predicate SchemaMessage(m: Message)
  {
    m.text != "" && (m.sender == "user" || m.sender == "employee")
  }

  /** Every message passes the schema, as `save` demands of the whole document. */
  predicate SchemaMessages(messages: seq<Message>)
  {
    forall i :: 0 <= i < |messages| ==> SchemaMessage(messages[i])
  }

  /** The record `Chat.create` stores for a new request at time `now`. */
  function NewChat(sessionId: string, customerName: Option<string>, now: int): (c: Chat)
    ensures c.sessionId == sessionId && c.status == Pending && c.messages == []
    ensures c.customerName == OrDefault(customerName, DefaultCustomerName)
    ensures c.acceptedBy == "" && c.endedBy == "" && c.acceptedAt.None? && c.endedAt.None?
    ensures c.createdAt == now && c.lastUpdate == now
  {
    Chat(sessionId, OrDefault(customerName, DefaultCustomerName), Pending, [], "", None, None, "", now, now)
  }

  /** The messages after marking every message from `sender` read. */
  function MarkedRead(messages: seq<Message>, sender: string): (r: seq<Message>)
    ensures |r| == |messages|
    ensures forall i :: 0 <= i < |messages| && messages[i].sender == sender ==> r[i] == messages[i].(read := true)
    ensures forall i :: 0 <= i < |messages| && messages[i].sender != sender ==> r[i] == messages[i]
  {
    seq(|messages|, i requires 0 <= i < |messages| =>
      if messages[i].sender == sender then messages[i].(read := true) else messages[i])
  }

  /** Marking twice is marking once. */
  lemma MarkedReadIdempotent(messages: seq<Message>, sender: string)
    ensures MarkedRead(MarkedRead(messages, sender), sender) == MarkedRead(messages, sender)
  {
  }

  /** Marking changes only the read flags, and keeps every message's text and sender. */
  lemma MarkedReadKeepsContent(messages: seq<Message>, sender: string)
    ensures forall i :: 0 <= i < |messages| ==>
      MarkedRead(messages, sender)[i].(read := messages[i].read) == messages[i]
    ensures forall i :: 0 <= i < |messages| ==>
      MarkedRead(messages, sender)[i].read == (messages[i].read || messages[i].sender == sender)
  {
  }

  /**
   * Marking read keeps every text and sender, so the save after marking
   * fails exactly when the stored messages already broke the schema.
   */
  lemma MarkedReadKeepsSchema(messages: seq<Message>, sender: string)
    ensures SchemaMessages(MarkedRead(messages, sender)) <==> SchemaMessages(messages)
  {
    var r := MarkedRead(messages, sender);
    forall i | 0 <= i < |messages|
      ensures SchemaMessage(r[i]) <==> SchemaMessage(messages[i])
    {
      assert r[i].text == messages[i].text && r[i].sender == messages[i].sender;
    }
  }

  function LastUpdateOf(c: Chat): int { c.lastUpdate }

  function CreatedAtOf(q: Question): int { q.createdAt }

  /**
   * Question rows are keyed by the text of the id: two questions never
   * share a key, so marking or deleting one never finds another's row.
   */
  lemma QuestionKeysDistinct(a: nat, b: nat)
    requires a != b
    ensures NatToString(a) != NatToString(b)
  {
    NatToStringValue(a);
    NatToStringValue(b);
  }

  // ---------------------------------------------------------------------
  // The store
  // ---------------------------------------------------------------------

  class NotificationStore {
    /** Chats by session id (the unique index). */
    var chats: map<string, Chat>
    /** Questions by id; ids are handed out in order. */
    var questions: map<nat, Question>
    var nextQuestionId: nat
    /** The spreadsheet whose question sheet mirrors the questions, rows keyed by the id's text. */
    const mirror: SheetsMirror.Spreadsheet

    /** Every chat is filed under its own session id, and no question id is ahead of the counter. */
    ghost predicate Valid()
      reads this, mirror
    {
      mirror.Valid()
      && (forall k :: k in chats ==> chats[k].sessionId == k && k != "")
      && (forall id :: id in questions ==> id < nextQuestionId)
    }

    constructor(mirror: SheetsMirror.Spreadsheet)
      requires mirror.Valid()
      ensures chats == map[] && questions == map[] && nextQuestionId == 0 && this.mirror == mirror
      ensures Valid()
    {
      chats, questions, nextQuestionId := map[], map[], 0;
      this.mirror := mirror;
    }

    /**
     * POST /chat: an existing session's chat is returned unchanged; a new
     * session gets a pending chat with no messages; an empty session id
     * fails the schema's `required` check.
     */
    method CreateChat(sessionId: string, customerName: Option<string>, now: int)
      returns (status: HttpStatus, chat: Option<Chat>)
      modifies this
      requires Valid()
      ensures Valid() && questions == old(questions) && nextQuestionId == old(nextQuestionId)
      ensures sessionId in old(chats) ==> status == OK && chat == Some(old(chats)[sessionId]) && chats == old(chats)
      ensures sessionId !in old(chats) && sessionId == "" ==> status == ServerError && chat == None && chats == old(chats)
      ensures sessionId !in old(chats) && sessionId != "" ==>
        status == OK && chat == Some(NewChat(sessionId, customerName, now))
        && chats == old(chats)[sessionId := NewChat(sessionId, customerName, now)]
    {
      if sessionId in chats {
        return OK, Some(chats[sessionId]);
      }
      if sessionId == "" {
        return ServerError, None;
      }
      var c := NewChat(sessionId, customerName, now);
      chats := chats[sessionId := c];
      return OK, Some(c);
    }

    /** GET /chat/:sessionId: always 200, with `null` for an unknown session. */
    method GetChat(sessionId: string) returns (status: HttpStatus, chat: Option<Chat>)
      ensures status == OK
      ensures chat.Some? <==> sessionId in chats
      ensures chat.Some? ==> chat.value == chats[sessionId]
    {
      status := OK;
      chat := if sessionId in chats then Some(chats[sessionId]) else None;
    }

    /** GET /chats: every chat, most recently updated first. */
    method ListChats() returns (r: seq<Chat>)
      requires Valid()
      ensures |r| == |chats|
      ensures forall c :: c in r <==> c in chats.Values
      ensures SortedDesc(r, LastUpdateOf)
      ensures forall c :: multiset(r)[c] == |KeysOf(chats, chats.Keys, c)|
    {
      var s := MapValues(chats);
      r := SortDesc(s, LastUpdateOf);
      SortDescSorted(s, LastUpdateOf);
      assert forall c :: c in r <==> c in multiset(r);
    }

    /**
     * PATCH /chat/:sessionId/accept: any existing chat becomes active,
     * whatever its status, even an ended one. The update does not go
     * through `save`, so `lastUpdate` stays.
     */
    method AcceptChat(sessionId: string, employeeName: string, now: int) returns (status: HttpStatus, chat: Option<Chat>)
      modifies this
      requires Valid()
      ensures Valid() && questions == old(questions) && nextQuestionId == old(nextQuestionId)
      ensures sessionId !in old(chats) ==> status == NotFound && chat == None && chats == old(chats)
      ensures sessionId in old(chats) ==>
        var c := old(chats)[sessionId].(status := Active, acceptedBy := employeeName, acceptedAt := Some(now));
        status == OK && chat == Some(c) && chats == old(chats)[sessionId := c]
    {
      if sessionId !in chats {
        return NotFound, None;
      }
      var c := chats[sessionId].(status := Active, acceptedBy := employeeName, acceptedAt := Some(now));
      chats := chats[sessionId := c];
      return OK, Some(c);
    }

    /** PATCH /chat/:sessionId/end: any existing chat becomes ended. */
    method EndChat(sessionId: string, endedBy: Option<string>, now: int) returns (status: HttpStatus, chat: Option<Chat>)
      modifies this
      requires Valid()
      ensures Valid() && questions == old(questions) && nextQuestionId == old(nextQuestionId)
      ensures sessionId !in old(chats) ==> status == NotFound && chat == None && chats == old(chats)
      ensures sessionId in old(chats) ==>
        var c := old(chats)[sessionId].(status := Ended, endedBy := OrDefault(endedBy, ""), endedAt := Some(now));
        status == OK && chat == Some(c) && chats == old(chats)[sessionId := c]
    {
      if sessionId !in chats {
        return NotFound, None;
      }
      var c := chats[sessionId].(status := Ended, endedBy := OrDefault(endedBy, ""), endedAt := Some(now));
      chats := chats[sessionId := c];
      return OK, Some(c);
    }

    /**
     * POST /chat/:sessionId/message: one unread message is appended, in any
     * status; the update sets `lastUpdate` itself.
     */
    method SendMessage(sessionId: string, text: string, sender: string, employeeName: Option<string>, now: int)
      returns (status: HttpStatus, chat: Option<Chat>)
      modifies this
      requires Valid()
      ensures Valid() && questions == old(questions) && nextQuestionId == old(nextQuestionId)
      ensures sessionId !in old(chats) ==> status == NotFound && chat == None && chats == old(chats)
      ensures sessionId in old(chats) ==>
        var m := Message(text, sender, OrDefault(employeeName, ""), false, now);
        var c := old(chats)[sessionId].(messages := old(chats)[sessionId].messages + [m], lastUpdate := now);
        status == OK && chat == Some(c) && chats == old(chats)[sessionId := c]
    {
      if sessionId !in chats {
        return NotFound, None;
      }
      var m := Message(text, sender, OrDefault(employeeName, ""), false, now);
      var c := chats[sessionId].(messages := chats[sessionId].messages + [m], lastUpdate := now);
      chats := chats[sessionId := c];
      return OK, Some(c);
    }

    /**
     * PATCH /chat/:sessionId/read: walks the messages and marks those from
     * `sender` read, then saves, which stamps `lastUpdate`. The save
     * validates every message against the schema; a message that the
     * unvalidated `$push` of SendMessage stored with an empty text or an
     * unknown sender makes it fail with 500, and nothing changes.
     */
    method MarkRead(sessionId: string, sender: string, now: int) returns (status: HttpStatus, chat: Option<Chat>)
      modifies this
      requires Valid()
      ensures Valid() && questions == old(questions) && nextQuestionId == old(nextQuestionId)
      ensures sessionId !in old(chats) ==> status == NotFound && chat == None && chats == old(chats)
      ensures sessionId in old(chats) && !SchemaMessages(old(chats)[sessionId].messages) ==>
        status == ServerError && chat == None && chats == old(chats)
      ensures sessionId in old(chats) && SchemaMessages(old(chats)[sessionId].messages) ==>
        var c := old(chats)[sessionId].(messages := MarkedRead(old(chats)[sessionId].messages, sender), lastUpdate := now);
        status == OK && chat == Some(c) && chats == old(chats)[sessionId := c]
    {
      if sessionId !in chats {
        return NotFound, None;
      }
      var messages := chats[sessionId].messages;
      var i := 0;
      while i < |messages|
        invariant 0 <= i <= |messages| && |messages| == |chats[sessionId].messages|
        invariant messages[..i] == MarkedRead(chats[sessionId].messages, sender)[..i]
        invariant messages[i..] == chats[sessionId].messages[i..]
      {
        if messages[i].sender == sender {
          messages := messages[i := messages[i].(read := true)];
        }
        i := i + 1;
      }
      assert messages == MarkedRead(chats[sessionId].messages, sender) by {
        assert messages == messages[..i];
        assert MarkedRead(chats[sessionId].messages, sender) == MarkedRead(chats[sessionId].messages, sender)[..i];
      }
      MarkedReadKeepsSchema(chats[sessionId].messages, sender);
      if !SchemaMessages(messages) {
        return ServerError, None;
      }
      var c := chats[sessionId].(messages := messages, lastUpdate := now);
      chats := chats[sessionId := c];
      return OK, Some(c);
    }

    /** DELETE /chat/:sessionId: removes the chat in any status. */
    method DeleteChat(sessionId: string) returns (status: HttpStatus)
      modifies this
      requires Valid()
      ensures Valid() && questions == old(questions) && nextQuestionId == old(nextQuestionId)
      ensures sessionId !in old(chats) ==> status == NotFound && chats == old(chats)
      ensures sessionId in old(chats) ==> status == OK && chats == old(chats) - {sessionId}
      ensures sessionId !in chats
    {
      if sessionId !in chats {
        return NotFound;
      }
      chats := chats - {sessionId};
      return OK;
    }

    /**
     * POST /question: phone and question are stored trimmed and must not be
     * empty after trimming; a new question is unread. Once saved, the
     * question goes to the question sheet as sent, untrimmed, under the
     * text of its new id and the formatted clock `sheetTime`.
     */
    method CreateQuestion(phone: string, question: string, ipAddress: Option<string>, now: int, sheetTime: string)
      returns (status: HttpStatus, id: Option<nat>)
      modifies this, mirror
      requires Valid()
      ensures Valid() && chats == old(chats)
      ensures mirror.quick == old(mirror.quick) && mirror.salt == old(mirror.salt) && mirror.kt == old(mirror.kt)
      ensures Trim(phone) == "" || Trim(question) == "" ==>
        status == ServerError && id == None && questions == old(questions) && nextQuestionId == old(nextQuestionId)
        && mirror.questions == old(mirror.questions)
      ensures Trim(phone) != "" && Trim(question) != "" ==>
        status == OK && id == Some(old(nextQuestionId)) && old(nextQuestionId) !in old(questions)
        && questions == old(questions)[old(nextQuestionId) := Question(Trim(phone), Trim(question),
                                                                       OrDefault(ipAddress, ""), false, now)]
        && nextQuestionId == old(nextQuestionId) + 1
        && mirror.questions == SheetsMirror.WithQuestion(old(mirror.questions),
             SheetsMirror.QuestionRow(Some(NatToString(old(nextQuestionId))), sheetTime, Some(phone), Some(question), ipAddress))
    {
      var p := Trim(phone);
      var q := Trim(question);
      if p == "" || q == "" {
        return ServerError, None;
      }
      id := Some(nextQuestionId);
      questions := questions[nextQuestionId := Question(p, q, OrDefault(ipAddress, ""), false, now)];
      var _ := mirror.AddCustomerQuestion(Some(NatToString(nextQuestionId)), sheetTime, Some(phone), Some(question),
                                          ipAddress);
      nextQuestionId := nextQuestionId + 1;
      status := OK;
    }

    /**
     * PATCH /questions/:id/read: sets `read` and nothing else; only a
     * question that exists is then marked in the question sheet.
     */
    method SetQuestionRead(id: nat, read: bool) returns (status: HttpStatus, q: Option<Question>)
      modifies this, mirror
      requires Valid()
      ensures Valid() && chats == old(chats) && nextQuestionId == old(nextQuestionId)
      ensures mirror.quick == old(mirror.quick) && mirror.salt == old(mirror.salt) && mirror.kt == old(mirror.kt)
      ensures id !in old(questions) ==>
        status == NotFound && q == None && questions == old(questions) && mirror.questions == old(mirror.questions)
      ensures id in old(questions) ==>
        status == OK && q == Some(old(questions)[id].(read := read))
        && questions == old(questions)[id := old(questions)[id].(read := read)]
        && mirror.questions == SheetsMirror.WithReadStatus(old(mirror.questions), NatToString(id), read)
    {
      if id !in questions {
        return NotFound, None;
      }
      var updated := questions[id].(read := read);
      questions := questions[id := updated];
      var _ := mirror.UpdateQuestionReadStatus(NatToString(id), read);
      return OK, Some(updated);
    }

    /** DELETE /questions/:id: only a question that exists is then removed from the question sheet. */
    method DeleteQuestion(id: nat) returns (status: HttpStatus)
      modifies this, mirror
      requires Valid()
      ensures Valid() && chats == old(chats) && nextQuestionId == old(nextQuestionId)
      ensures mirror.quick == old(mirror.quick) && mirror.salt == old(mirror.salt) && mirror.kt == old(mirror.kt)
      ensures id !in old(questions) ==>
        status == NotFound && questions == old(questions) && mirror.questions == old(mirror.questions)
      ensures id in old(questions) ==>
        status == OK && questions == old(questions) - {id}
        && mirror.questions == SheetsMirror.WithoutQuestion(old(mirror.questions), NatToString(id))
    {
      if id !in questions {
        return NotFound;
      }
      questions := questions - {id};
      var _ := mirror.DeleteCustomerQuestion(NatToString(id));
      return OK;
    }

    /** GET /questions: every question, newest first. */
    method ListQuestions() returns (r: seq<Question>)
      ensures |r| == |questions|
      ensures forall q :: q in r <==> q in questions.Values
      ensures SortedDesc(r, CreatedAtOf)
      ensures forall q :: multiset(r)[q] == |KeysOf(questions, questions.Keys, q)|
    {
      var s := MapValues(questions);
      r := SortDesc(s, CreatedAtOf);
      SortDescSorted(s, CreatedAtOf);
      assert forall q :: q in r <==> q in multiset(r);
    }
  }
}
