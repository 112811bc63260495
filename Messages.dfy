/** What both bots see of an inbound Baileys message, and the effects they
    ask of the transport. */
module Messages {
  import opened Wrappers
  import opened JsStrings

  /** `msg.key`: the chat (`None` when the message carries none), whether
      the bot itself sent the message, and the group member who sent it (""
      when there is none). A message without any key behaves as one whose
      key has no chat, is not the bot's own and has no group member. */
  datatype MessageKey = MessageKey(remoteJid: Option<string>, fromMe: bool, participant: string)

  /** The text-bearing parts of `msg.message`; "" stands for an absent field,
      which JavaScript treats alike (both are falsy). */
  datatype Payload = Payload(conversation: string, extendedText: string)

  /** An inbound message: its key, its `messageStubType` and its payload
      (`None` when `msg.message` is absent). */
  datatype RawMessage = RawMessage(key: MessageKey, stubType: string, message: Option<Payload>)

  const StatusBroadcast := "status@broadcast"
  const GroupSuffix := "@g.us"
  const DirectSuffix := "@s.whatsapp.net"

  /** Group chats are told apart by the suffix of their JID. */
  predicate IsGroupJid(jid: string) {
    EndsWith(jid, GroupSuffix)
  }

  /** `message?.conversation || message?.extendedTextMessage?.text || ''`:
      the plain text wins over the extended text. */
  function TextOf(m: Option<Payload>): (t: string)
    ensures t == "" <==> m.None? || (m.value.conversation == "" && m.value.extendedText == "")
    ensures m.Some? && m.value.conversation != "" ==> t == m.value.conversation
    ensures m.Some? && m.value.conversation == "" ==> t == m.value.extendedText
  {
    match m
    case None => ""
    case Some(p) => if p.conversation != "" then p.conversation else p.extendedText
  }

  /** One effect a handler asks for, in the order it asks. */
  datatype Action =
    | MarkRead(key: MessageKey)                                  // sock.readMessages([key])
    | Composing(jid: string)                                     // sock.sendPresenceUpdate('composing', jid)
    | SendText(jid: string, text: string)                        // sock.sendMessage(jid, { text })
    | SendContact(jid: string, displayName: string, vcard: string) // sock.sendMessage(jid, { contacts })
    | ListModels                                                 // `ollama list`, which never throws
    | RunAi(question: string)                                    // `ollama run`, which never throws

  /** The effects that go through the socket and may throw. */
  predicate IsTransportCall(a: Action) {
    !a.ListModels? && !a.RunAi?
  }

  function TransportCalls(s: seq<Action>): nat
    decreases |s|
  {
    if s == [] then 0 else (if IsTransportCall(s[0]) then 1 else 0) + TransportCalls(s[1..])
  }

  function Countdown(k: Option<nat>): Option<nat> {
    match k
    case Some(n) => if n == 0 then None else Some(n - 1)
    case None => None
  }

  /** What a handler gets done of its `plan` when its transport call number
      `throwsOn` (counting from 0) throws and the surrounding try/catch
      abandons the rest: the plan up to and including the call that threw. */
  function Truncate(plan: seq<Action>, throwsOn: Option<nat>): (r: seq<Action>)
    ensures |r| <= |plan| && r == plan[..|r|]
    ensures throwsOn.None? || TransportCalls(plan) <= throwsOn.value ==> r == plan
    ensures |r| < |plan| ==> throwsOn.Some? && TransportCalls(r) == throwsOn.value + 1
    ensures |r| < |plan| ==> IsTransportCall(r[|r| - 1])
    ensures throwsOn.Some? && throwsOn.value < TransportCalls(plan) ==>
      r != [] && TransportCalls(r) == throwsOn.value + 1 && IsTransportCall(r[|r| - 1])
    decreases |plan|
  {
    if plan == [] then []
    else if IsTransportCall(plan[0]) && throwsOn == Some(0) then [plan[0]]
    else
      var rest := Truncate(plan[1..], if IsTransportCall(plan[0]) then Countdown(throwsOn) else throwsOn);
      assert plan[1..][..|rest|] == plan[1..|rest| + 1];
      assert ([plan[0]] + rest)[1..] == rest;
      [plan[0]] + rest
  }

  /** The first step of a plan is done; when it is a transport call that
      throws, nothing after it is. */
  lemma TruncateCons(a: Action, rest: seq<Action>, throwsOn: Option<nat>)
    ensures Truncate([a] + rest, throwsOn) ==
      if IsTransportCall(a) && throwsOn == Some(0) then [a]
      else [a] + Truncate(rest, if IsTransportCall(a) then Countdown(throwsOn) else throwsOn)
  {
    assert ([a] + rest)[0] == a && ([a] + rest)[1..] == rest;
  }

  /** The throwing call's number once `n` transport calls have gone by
      without it. */
  function CountdownBy(k: Option<nat>, n: nat): Option<nat> {
    if k.Some? && k.value >= n then Some(k.value - n) else None
  }

  /** Counting down one step of a plan keeps the throwing call's place in
      the rest of the plan. */
  lemma CountdownStep(a: Action, rest: seq<Action>, throwsOn: Option<nat>)
    requires !(IsTransportCall(a) && throwsOn == Some(0))
    ensures var next := if IsTransportCall(a) then Countdown(throwsOn) else throwsOn;
      var n := (if IsTransportCall(a) then 1 else 0) + TransportCalls(rest);
      && ((next.Some? && next.value < TransportCalls(rest)) <==> (throwsOn.Some? && throwsOn.value < n))
      && CountdownBy(next, TransportCalls(rest)) == CountdownBy(throwsOn, n)
  {
  }

  /** A throw within the first part of a plan cuts it there: the second
      part is never started. */
  lemma {:induction false} TruncateWithin(p1: seq<Action>, p2: seq<Action>, throwsOn: Option<nat>)
    requires throwsOn.Some? && throwsOn.value < TransportCalls(p1)
    ensures Truncate(p1 + p2, throwsOn) == Truncate(p1, throwsOn)
    decreases |p1|
  {
    var a, rest := p1[0], p1[1..];
    assert p1 == [a] + rest;
    assert p1 + p2 == [a] + (rest + p2);
    TruncateCons(a, rest + p2, throwsOn);
    TruncateCons(a, rest, throwsOn);
    if !(IsTransportCall(a) && throwsOn == Some(0)) {
      CountdownStep(a, rest, throwsOn);
      TruncateWithin(rest, p2, if IsTransportCall(a) then Countdown(throwsOn) else throwsOn);
    }
  }

  /** The first step of a plan followed by more, when it does not throw. */
  lemma TruncateStep(p1: seq<Action>, p2: seq<Action>, throwsOn: Option<nat>)
    requires p1 != [] && !(IsTransportCall(p1[0]) && throwsOn == Some(0))
    ensures Truncate(p1 + p2, throwsOn) ==
      [p1[0]] + Truncate(p1[1..] + p2, if IsTransportCall(p1[0]) then Countdown(throwsOn) else throwsOn)
  {
    assert p1 + p2 == [p1[0]] + (p1[1..] + p2);
    TruncateCons(p1[0], p1[1..] + p2, throwsOn);
  }

  /** Without a throw in the first part of a plan, the first part is done
      whole and the second is cut at the same throwing call, counted on. */
  lemma {:induction false} TruncatePast(p1: seq<Action>, p2: seq<Action>, throwsOn: Option<nat>)
    requires !(throwsOn.Some? && throwsOn.value < TransportCalls(p1))
    ensures Truncate(p1 + p2, throwsOn) == p1 + Truncate(p2, CountdownBy(throwsOn, TransportCalls(p1)))
    decreases |p1|
  {
    if p1 == [] {
      assert p1 + p2 == p2;
      assert CountdownBy(throwsOn, TransportCalls(p1)) == throwsOn;
      assert p1 + Truncate(p2, throwsOn) == Truncate(p2, throwsOn);
    } else {
      var next := if IsTransportCall(p1[0]) then Countdown(throwsOn) else throwsOn;
      assert TransportCalls(p1) == (if IsTransportCall(p1[0]) then 1 else 0) + TransportCalls(p1[1..]);
      CountdownStep(p1[0], p1[1..], throwsOn);
      TruncatePast(p1[1..], p2, next);
      TruncatePastStep(p1, p2, throwsOn);
    }
  }

  /** One step of `TruncatePast`: a first call that does not throw, then
      the rest of the plan. */
  lemma TruncatePastStep(p1: seq<Action>, p2: seq<Action>, throwsOn: Option<nat>)
    requires p1 != [] && !(IsTransportCall(p1[0]) && throwsOn == Some(0))
    requires var next := if IsTransportCall(p1[0]) then Countdown(throwsOn) else throwsOn;
      && CountdownBy(next, TransportCalls(p1[1..])) == CountdownBy(throwsOn, TransportCalls(p1))
      && Truncate(p1[1..] + p2, next) == p1[1..] + Truncate(p2, CountdownBy(next, TransportCalls(p1[1..])))
    ensures Truncate(p1 + p2, throwsOn) == p1 + Truncate(p2, CountdownBy(throwsOn, TransportCalls(p1)))
  {
    var t := Truncate(p2, CountdownBy(throwsOn, TransportCalls(p1)));
    TruncateStep(p1, p2, throwsOn);
    AppendAssoc([p1[0]], p1[1..], t);
    assert [p1[0]] + p1[1..] == p1;
  }

  lemma AppendAssoc(a: seq<Action>, b: seq<Action>, c: seq<Action>)
    ensures a + b + c == a + (b + c)
  {
  }
}
