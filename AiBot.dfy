/** The `messages.upsert` handler of the AI bot: each inbound message is
    filtered, its text extracted, its chat's name resolved, and an `.ai`
    command turned into an ordered series of effects. */
module AiBot {
  import opened Wrappers
  import opened JsStrings
  import opened Messages
  import opened Contacts
  import opened Ollama

  const DecryptErrorStub := "ERROR_DECRYPT"

  /** Why the handler does nothing with a message. `NoChat` is a message
      with text but no chat: reading `jid.endsWith` then throws a
      `TypeError`, which the per-message try/catch swallows before anything
      is asked of the transport. */
  datatype DropReason = OwnMessage | DecryptError | StatusUpdate | NoText | NoChat

  /** A message that passed the filter: its chat, its sender (the group
      member, else the chat), the sender's number, whether the chat is a
      group, and its text. */
  datatype Inbound = Inbound(chat: string, sender: string, number: string, isGroup: bool, text: string)

  datatype Normalized = Accepted(inbound: Inbound) | Dropped(reason: DropReason)

  /** The filter and text extraction at the top of the loop body. A message
      is skipped when the bot sent it, when it is a decryption-error stub,
      when it is a status broadcast, or when it carries no text (the plain
      text is preferred over the extended text); a message with text but
      no chat is abandoned; otherwise it is accepted. */
  function Normalize(m: RawMessage): (r: Normalized)
    ensures r.Dropped? <==>
      || m.key.fromMe || m.stubType == DecryptErrorStub || m.key.remoteJid == Some(StatusBroadcast)
      || TextOf(m.message) == "" || m.key.remoteJid.None?
    ensures r.Dropped? && m.key.fromMe ==> r.reason == OwnMessage
    ensures r == Dropped(NoChat) <==>
      !m.key.fromMe && m.stubType != DecryptErrorStub && TextOf(m.message) != "" && m.key.remoteJid.None?
    ensures r.Accepted? ==>
      && m.key.remoteJid == Some(r.inbound.chat)
      && r.inbound.text == TextOf(m.message) && r.inbound.text != ""
      && (r.inbound.isGroup <==> IsGroupJid(r.inbound.chat))
      && r.inbound.sender == (if m.key.participant != "" then m.key.participant else r.inbound.chat)
      && r.inbound.number == BeforeAt(r.inbound.sender)
  {
    if m.key.fromMe then Dropped(OwnMessage)
    else if m.stubType == DecryptErrorStub then Dropped(DecryptError)
    else if m.key.remoteJid == Some(StatusBroadcast) then Dropped(StatusUpdate)
    else if TextOf(m.message) == "" then Dropped(NoText)
    else if m.key.remoteJid.None? then Dropped(NoChat)
    else
      var jid := m.key.remoteJid.value;
      var sender := if m.key.participant != "" then m.key.participant else jid;
      Accepted(Inbound(jid, sender, BeforeAt(sender), IsGroupJid(jid), TextOf(m.message)))
  }

  const UsageText := "❌ Contoh: .ai apa itu AI?"
  const AckText := "⏳ Memproses (maks 3 menit)..."

  function StatusText(ready: bool): string {
    if ready then "✅ Model " + Model + " siap" else "❌ Model " + Model + " tidak tersedia"
  }

  /** The final reply: a header with the elapsed seconds (formatted by the
      caller), a blank line, then the answer. */
  function ReplyText(elapsed: string, answer: string): (t: string)
    ensures EndsWith(t, answer) && StartsWith(t, "*🧠 Qwen3 AI* (")
    ensures |"*🧠 Qwen3 AI* ("| + |elapsed| <= |t|
      && t[|"*🧠 Qwen3 AI* ("|..|"*🧠 Qwen3 AI* ("| + |elapsed|] == elapsed
  {
    var header := "*🧠 Qwen3 AI* (" + elapsed + "s)\n\n";
    assert (header + answer)[..|"*🧠 Qwen3 AI* ("|] == "*🧠 Qwen3 AI* (";
    assert (header + answer)[|header|..] == answer;
    assert (header + answer)[|"*🧠 Qwen3 AI* ("|..|"*🧠 Qwen3 AI* ("| + |elapsed|] == elapsed;
    header + answer
  }

  /** `.ai` is recognised case-sensitively, as a prefix. */
  predicate IsAiCommand(text: string) {
    StartsWith(text, ".ai")
  }

  /** `text.substring(4).trim()`; `substring` clamps an index past the end. */
  function AiQuestion(text: string): string {
    Trim(text[if |text| < 4 then |text| else 4..])
  }

  /** The question is what follows `.ai` and one more character, trimmed:
      with a space after `.ai` that is the rest of the text, but a character
      written right after `.ai` is lost. */
  lemma AiQuestionAfterPrefix(c: char, rest: string)
    ensures AiQuestion(".ai" + [c] + rest) == Trim(rest)
  {
    assert (".ai" + [c] + rest)[4..] == rest;
  }

  /** `question.toLowerCase() === 'status'`. */
  predicate IsStatusQuery(question: string) {
    ToLowerAscii(question) == "status"
  }

  /** Does the series run the model? */
  predicate RunsAi(r: seq<Action>) {
    exists i :: 0 <= i < |r| && r[i].RunAi?
  }

  /** What the `.ai` branch asks for, in order, for a message with text
      `text` in chat `jid`; the model check, the model's outcome and the
      elapsed time are the results of the effects it asks for. Only `.ai`
      text is a command, and it is served as its question says. */
  function AiCommand(jid: string, text: string, ready: bool, answer: string, elapsed: string): (r: seq<Action>)
    ensures r != [] <==> StartsWith(text, ".ai")
  {
    if IsAiCommand(text) then Serve(jid, AiQuestion(text), ready, answer, elapsed) else []
  }

  /** Only text starting with `.ai`, in that case, is a command, and the
      model runs exactly for a command whose question is neither empty nor
      `status`. */
  lemma AiCommandDispatch(jid: string, text: string, ready: bool, answer: string, elapsed: string)
    ensures !StartsWith(text, ".ai") ==> AiCommand(jid, text, ready, answer, elapsed) == []
    ensures RunsAi(AiCommand(jid, text, ready, answer, elapsed)) <==>
      StartsWith(text, ".ai") && AiQuestion(text) != "" && !IsStatusQuery(AiQuestion(text))
  {
    if StartsWith(text, ".ai") {
      ServeDispatch(jid, AiQuestion(text), ready, answer, elapsed);
    }
  }

  /** How a question is served. An empty question gets exactly one usage
      reply. The question `status`, in any case, gets exactly one status
      reply. Any other question gets, in this order, the composing presence,
      the processing acknowledgement, one run of the model on the question
      and one reply ending with the model's answer. */
  function Serve(jid: string, question: string, ready: bool, answer: string, elapsed: string): (r: seq<Action>)
    ensures question == "" ==> r == [SendText(jid, UsageText)]
    ensures question != "" && IsStatusQuery(question) ==> r == [ListModels, SendText(jid, StatusText(ready))]
  {
    if question == "" then [SendText(jid, UsageText)]
    else if IsStatusQuery(question) then [ListModels, SendText(jid, StatusText(ready))]
    else [Composing(jid), SendText(jid, AckText), RunAi(question), SendText(jid, ReplyText(elapsed, answer))]
  }

  /** The model runs exactly for a question that is neither empty nor
      `status`, and then the series is the composing presence, the
      acknowledgement, one run on the question and one reply ending with
      the answer; every reply of any series goes to the chat of the
      command. */
  lemma ServeDispatch(jid: string, question: string, ready: bool, answer: string, elapsed: string)
    ensures var r := Serve(jid, question, ready, answer, elapsed);
      RunsAi(r) <==> question != "" && !IsStatusQuery(question)
    ensures var r := Serve(jid, question, ready, answer, elapsed);
      RunsAi(r) ==>
        && |r| == 4 && r[0] == Composing(jid) && r[1] == SendText(jid, AckText)
        && r[2] == RunAi(question) && r[3].SendText? && EndsWith(r[3].text, answer)
    ensures var r := Serve(jid, question, ready, answer, elapsed);
      forall i :: 0 <= i < |r| && r[i].SendText? ==> r[i].jid == jid
  {
    var r := Serve(jid, question, ready, answer, elapsed);
    if question == "" {
      assert !r[0].RunAi?;
    } else if IsStatusQuery(question) {
      assert !r[0].RunAi? && !r[1].RunAi?;
    } else {
      assert r[2].RunAi?;
    }
  }

  /** One inbound message together with what the world answers to the
      effects handling it asks for: the contact lookup, the model check, the
      model run and its elapsed time, and which transport call (if any)
      throws. */
  datatype Delivery = Delivery(
    msg: RawMessage, directory: Directory, modelReady: bool, exec: ExecResult, elapsed: string,
    throwsOn: Option<nat>)

  /** Everything handling the message asks for when nothing throws: nothing
      for a skipped message, else marking it read and then the command. */
  function Plan(d: Delivery): (r: seq<Action>)
    ensures r == [] <==> Normalize(d.msg).Dropped?
    ensures r != [] ==> r[0] == MarkRead(d.msg.key)
  {
    match Normalize(d.msg)
    case Dropped(_) => []
    case Accepted(m) => [MarkRead(d.msg.key)] + AiCommand(m.chat, m.text, d.modelReady, AiAnswer(d.exec), d.elapsed)
  }

  /** The read mark never runs the model. */
  lemma RunsAiAfterReadMark(key: MessageKey, c: seq<Action>)
    ensures RunsAi([MarkRead(key)] + c) <==> RunsAi(c)
  {
    var r := [MarkRead(key)] + c;
    if RunsAi(r) {
      var i :| 0 <= i < |r| && r[i].RunAi?;
      assert i > 0 && c[i - 1] == r[i];
    }
    if RunsAi(c) {
      var i :| 0 <= i < |c| && c[i].RunAi?;
      assert r[i + 1] == c[i];
    }
  }

  /** At the level of a message: an accepted message whose text does not
      start with `.ai` is only marked read, and the model runs exactly for
      an accepted `.ai` command whose question is neither empty nor
      `status`. */
  lemma PlanDispatch(d: Delivery)
    ensures var n := Normalize(d.msg);
      n.Accepted? && !StartsWith(n.inbound.text, ".ai") ==> Plan(d) == [MarkRead(d.msg.key)]
    ensures var n := Normalize(d.msg);
      RunsAi(Plan(d)) <==>
        && n.Accepted? && StartsWith(n.inbound.text, ".ai")
        && AiQuestion(n.inbound.text) != "" && !IsStatusQuery(AiQuestion(n.inbound.text))
  {
    var n := Normalize(d.msg);
    if n.Accepted? {
      var m := n.inbound;
      var c := AiCommand(m.chat, m.text, d.modelReady, AiAnswer(d.exec), d.elapsed);
      assert Plan(d) == [MarkRead(d.msg.key)] + c;
      AiCommandDispatch(m.chat, m.text, d.modelReady, AiAnswer(d.exec), d.elapsed);
      RunsAiAfterReadMark(d.msg.key, c);
      if !StartsWith(m.text, ".ai") {
        assert [MarkRead(d.msg.key)] + c == [MarkRead(d.msg.key)];
      }
    } else {
      assert Plan(d) == [];
    }
  }

  /** What handling the message gets done: the per-message try/catch
      abandons the plan at the transport call that throws. */
  function MessageActions(d: Delivery): seq<Action> {
    Truncate(Plan(d), d.throwsOn)
  }

  /** The contact cache after the message: a name is resolved for the chat
      of every message that passes the filter. */
  function CacheAfter(cache: map<string, string>, d: Delivery): map<string, string> {
    match Normalize(d.msg)
    case Accepted(m) => Remember(cache, m.chat, d.directory)
    case Dropped(_) => cache
  }

  /** A batch is handled message by message, in arrival order. */
  function BatchActions(batch: seq<Delivery>): seq<Action>
    decreases |batch|
  {
    if batch == [] then [] else BatchActions(batch[..|batch| - 1]) + MessageActions(batch[|batch| - 1])
  }

  function BatchCache(cache: map<string, string>, batch: seq<Delivery>): map<string, string>
    decreases |batch|
  {
    if batch == [] then cache else CacheAfter(BatchCache(cache, batch[..|batch| - 1]), batch[|batch| - 1])
  }

  /** One more message at the end of a batch adds its effects at the end. */
  lemma BatchSnoc(b: seq<Delivery>, d: Delivery, cache: map<string, string>)
    ensures BatchActions(b + [d]) == BatchActions(b) + MessageActions(d)
    ensures BatchCache(cache, b + [d]) == CacheAfter(BatchCache(cache, b), d)
  {
    assert (b + [d])[..|b + [d]| - 1] == b;
  }

  /** Handling two batches one after the other does what handling them as
      one batch does: a message whose effects throw takes nothing away from
      the messages after it. */
  lemma {:induction false} BatchActionsAppend(b1: seq<Delivery>, b2: seq<Delivery>)
    ensures BatchActions(b1 + b2) == BatchActions(b1) + BatchActions(b2)
    decreases |b2|
  {
    if b2 == [] {
      assert b1 + b2 == b1;
    } else {
      var b2' := b2[..|b2| - 1];
      var last := b2[|b2| - 1];
      assert b2 == b2' + [last];
      assert b1 + b2 == (b1 + b2') + [last];
      BatchSnoc(b1 + b2', last, map[]);
      BatchSnoc(b2', last, map[]);
      BatchActionsAppend(b1, b2');
      AppendAssoc(BatchActions(b1), BatchActions(b2'), MessageActions(last));
    }
  }

  /** The state of the handler's module: the contact cache and the log of
      effects asked of the transport. */
  class Bot {
    const contacts: ContactResolver
    var outbox: seq<Action>

    constructor ()
      ensures fresh(contacts) && contacts.cache == map[] && outbox == []
    {
      contacts := new ContactResolver();
      outbox := [];
    }

    /** Asks for one effect, the next one of the plan `todo`; reports
        whether it threw, counting down to the transport call that throws.
        What is left of the plan is then `rest`. */
    method Call(a: Action, throwsOn: Option<nat>, ghost todo: seq<Action>)
      returns (ok: bool, next: Option<nat>, ghost rest: seq<Action>)
      requires todo != [] && todo[0] == a
      modifies this`outbox
      ensures outbox == old(outbox) + [a]
      ensures ok <==> !(IsTransportCall(a) && throwsOn == Some(0))
      ensures rest == todo[1..]
      ensures old(outbox) + Truncate(todo, throwsOn) == outbox + (if ok then Truncate(rest, next) else [])
    {
      outbox := outbox + [a];
      ok := !(IsTransportCall(a) && throwsOn == Some(0));
      next := if IsTransportCall(a) then Countdown(throwsOn) else throwsOn;
      rest := todo[1..];
      assert todo == [a] + rest;
      TruncateCons(a, rest, throwsOn);
      if ok {
        AppendAssoc(old(outbox), [a], Truncate(rest, next));
      }
    }

    /** The loop body for one message, with its try/catch: the effects
        asked for are those of `MessageActions`, and the cache is updated as
        `CacheAfter` says. */
    method OnMessage(d: Delivery)
      modifies this`outbox, contacts
      ensures outbox == old(outbox) + MessageActions(d)
      ensures contacts.cache == CacheAfter(old(contacts.cache), d)
    {
      var m := d.msg;
      if m.key.fromMe || m.stubType == DecryptErrorStub || m.key.remoteJid == Some(StatusBroadcast) {
        assert Normalize(m).Dropped?;
        return;
      }
      var text := "";
      if m.message.Some? && m.message.value.conversation != "" {
        text := m.message.value.conversation;
      } else if m.message.Some? && m.message.value.extendedText != "" {
        text := m.message.value.extendedText;
      } else {
        assert Normalize(m).Dropped?;
        return;
      }
      if m.key.remoteJid.None? {
        assert Normalize(m) == Dropped(NoChat);
        return;
      }
      var jid := m.key.remoteJid.value;
      var isGroup := IsGroupJid(jid);
      var sender := if m.key.participant != "" then m.key.participant else jid;
      var number := BeforeAt(sender);
      assert Normalize(m) == Accepted(Inbound(jid, sender, number, isGroup, text));
      var name, _ := contacts.Resolve(jid, d.directory);
      Respond(d, jid, text);
    }

    /** The effects of an accepted message with text `text` in chat `jid`:
        it is marked read, then an `.ai` command is served; the first
        transport call that throws ends the message. */
    method Respond(d: Delivery, jid: string, text: string)
      modifies this`outbox
      ensures outbox == old(outbox) +
        Truncate([MarkRead(d.msg.key)] + AiCommand(jid, text, d.modelReady, AiAnswer(d.exec), d.elapsed), d.throwsOn)
    {
      ghost var todo := [MarkRead(d.msg.key)] + AiCommand(jid, text, d.modelReady, AiAnswer(d.exec), d.elapsed);
      var ok, pending;
      ok, pending, todo := Call(MarkRead(d.msg.key), d.throwsOn, todo);
      if !ok { return; }
      if !IsAiCommand(text) {
        assert todo == [];
        return;
      }
      var question := Trim(text[if |text| < 4 then |text| else 4..]);
      assert todo == Serve(jid, question, d.modelReady, AiAnswer(d.exec), d.elapsed);
      ghost var mid := outbox;
      ServeQuestion(jid, question, d.modelReady, AiAnswer(d.exec), d.elapsed, pending);
      assert outbox == mid + Truncate(todo, pending);
    }

    /** The `.ai` branch once the question is known, each awaited call in
        turn until one throws. */
    method ServeQuestion(jid: string, question: string, ready: bool, answer: string, elapsed: string, throwsOn: Option<nat>)
      modifies this`outbox
      ensures outbox == old(outbox) + Truncate(Serve(jid, question, ready, answer, elapsed), throwsOn)
    {
      ghost var todo := Serve(jid, question, ready, answer, elapsed);
      var ok, pending := true, throwsOn;
      if question == "" {
        ok, pending, todo := Call(SendText(jid, UsageText), pending, todo);
        return;
      }
      if ToLowerAscii(question) == "status" {
        ok, pending, todo := Call(ListModels, pending, todo);
        ok, pending, todo := Call(SendText(jid, StatusText(ready)), pending, todo);
        return;
      }
      ok, pending, todo := Call(Composing(jid), pending, todo);
      if !ok { return; }
      ok, pending, todo := Call(SendText(jid, AckText), pending, todo);
      if !ok { return; }
      ok, pending, todo := Call(RunAi(question), pending, todo);
      ok, pending, todo := Call(SendText(jid, ReplyText(elapsed, answer)), pending, todo);
    }

    /** The `messages.upsert` handler: the messages of a batch in arrival
        order, each in its own try/catch. */
    method OnUpsert(batch: seq<Delivery>)
      modifies this`outbox, contacts
      ensures outbox == old(outbox) + BatchActions(batch)
      ensures contacts.cache == BatchCache(old(contacts.cache), batch)
    {
      for i := 0 to |batch|
        invariant outbox == old(outbox) + BatchActions(batch[..i])
        invariant contacts.cache == BatchCache(old(contacts.cache), batch[..i])
      {
        ghost var before := outbox;
        OnMessage(batch[i]);
        assert batch[..i + 1] == batch[..i] + [batch[i]];
        BatchSnoc(batch[..i], batch[i], old(contacts.cache));
        AppendAssoc(old(outbox), BatchActions(batch[..i]), outbox[|before|..]);
      }
      assert batch[..|batch|] == batch;
    }
  }
}
