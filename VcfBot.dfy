/** The message handler of the contact bot: every `.vcf` command is answered
    with the contact read from the vCard file and a confirmation, or with
    help on how to write the file, or with the error that stopped the
    sending. */
module VcfBot {
  import opened Wrappers
  import opened JsStrings
  import opened Messages
  import opened Vcard

  const HelpText :=
    "❌ Gagal membaca file vcard.vcf. Pastikan file tersedia dan formatnya benar.\n\n"
    + "📝 Cara membuat file vcard.vcf:\n"
    + "BEGIN:VCARD\n"
    + "VERSION:3.0\n"
    + "FN:Nama Kontak\n"
    + "TEL:+628123456789\n"
    + "END:VCARD"

  const FailurePrefix := "❌ Gagal mengirim kontak. Error: "

  function ConfirmText(name: string): string {
    "✅ Kontak *" + name + "* berhasil dikirim dari file vcard.vcf!"
  }

  /** One inbound message with what the world answers while it is handled:
      the vCard file's content as read then (`None` when it is missing or
      unreadable), which send (if any) throws, the thrown error's message,
      and whether the failure reply throws as well. */
  datatype VcfDelivery = VcfDelivery(
    msg: RawMessage, file: Option<string>, throwsOn: Option<nat>, error: string, replyThrows: bool)

  /** What handling messages asks of the transport, and whether a throw
      escaped the handler. */
  datatype Outcome = Outcome(actions: seq<Action>, crashed: bool)

  /** Messages without content and status broadcasts are skipped; unlike the
      AI bot, the bot's own messages are not. */
  predicate Skipped(m: RawMessage) {
    m.message.None? || m.key.remoteJid == Some(StatusBroadcast)
  }

  /** `text.toLowerCase().startsWith('.vcf')`. */
  predicate IsVcfCommand(text: string) {
    StartsWith(ToLowerAscii(text), ".vcf")
  }

  /** The command is recognised whatever the case of its letters and
      whatever follows it, so `.VCF` and `.vcfx` are commands too. */
  lemma VcfCommandIff(text: string)
    ensures IsVcfCommand(text) <==>
      && |text| >= 4 && text[0] == '.'
      && (text[1] == 'v' || text[1] == 'V')
      && (text[2] == 'c' || text[2] == 'C')
      && (text[3] == 'f' || text[3] == 'F')
  {
    if |text| >= 4 {
      var l := ToLowerAscii(text);
      assert l[..4] == [l[0], l[1], l[2], l[3]];
    }
  }

  /** The sends the `try` block asks for: the help text when the file is
      missing or invalid, else the contact and then the confirmation. */
  function VcfPlan(jid: string, vcard: Option<VcardData>): seq<Action> {
    match vcard
    case None => [SendText(jid, HelpText)]
    case Some(v) => [SendContact(jid, v.displayName, v.content), SendText(jid, ConfirmText(v.displayName))]
  }

  /** Every step of the plan is a send that may throw. */
  lemma PlanIsAllSends(jid: string, vcard: Option<VcardData>)
    ensures TransportCalls(VcfPlan(jid, vcard)) == |VcfPlan(jid, vcard)|
  {
    var plan := VcfPlan(jid, vcard);
    if vcard.Some? {
      assert plan[1..][1..] == [];
      assert TransportCalls(plan[1..]) == 1;
    } else {
      assert plan[1..] == [];
    }
  }

  /** One of the sends of `plan` throws. */
  predicate Throws(plan: seq<Action>, throwsOn: Option<nat>) {
    throwsOn.Some? && throwsOn.value < TransportCalls(plan)
  }

  /** The `try`/`catch` of a `.vcf` command in chat `jid` given what
      `readVcardFile` returned: the sends of the plan up to one that
      throws, and after a throw the failure reply carrying the error, which
      crashes the handler when it throws in turn. */
  function CommandOutcome(jid: string, vcard: Option<VcardData>, throwsOn: Option<nat>, error: string, replyThrows: bool): (o: Outcome)
    ensures o.actions != []
    ensures o.crashed ==> replyThrows
  {
    var plan := VcfPlan(jid, vcard);
    if Throws(plan, throwsOn) then
      Outcome(Truncate(plan, throwsOn) + [SendText(jid, FailurePrefix + error)], replyThrows)
    else
      Outcome(plan, false)
  }

  /** One message: nothing unless it is a `.vcf` command, whose vCard is
      read afresh. A message that is not skipped but has no chat throws a
      `TypeError` at `jid.endsWith`, outside any `try`, and so crashes the
      handler whatever its text. */
  function MessageOutcome(d: VcfDelivery): (o: Outcome)
    ensures o.actions != [] <==>
      !Skipped(d.msg) && d.msg.key.remoteJid.Some? && IsVcfCommand(TextOf(d.msg.message))
    ensures !Skipped(d.msg) && d.msg.key.remoteJid.None? ==> o == Outcome([], true)
    ensures o.crashed ==> d.replyThrows || d.msg.key.remoteJid.None?
  {
    if Skipped(d.msg) then Outcome([], false)
    else if d.msg.key.remoteJid.None? then Outcome([], true)
    else if !IsVcfCommand(TextOf(d.msg.message)) then Outcome([], false)
    else CommandOutcome(d.msg.key.remoteJid.value, ReadVcard(d.file), d.throwsOn, d.error, d.replyThrows)
  }

  /** The three ways a `.vcf` command ends. With no usable file: the help
      text and never a contact. With a file and no throw: the contact and
      then the confirmation naming it. When a send throws: what was sent of
      the plan up to and including the send that throws and nothing after
      it, then one failure reply carrying the error,
      and the handler crashes exactly when that reply throws. Every action
      goes to the command's chat. */
  lemma VcfOutcomes(jid: string, vcard: Option<VcardData>, throwsOn: Option<nat>, error: string, replyThrows: bool)
    ensures var o := CommandOutcome(jid, vcard, throwsOn, error, replyThrows);
      && (vcard.None? && throwsOn != Some(0) ==> o == Outcome([SendText(jid, HelpText)], false))
      && (vcard.None? ==> forall i :: 0 <= i < |o.actions| ==> !o.actions[i].SendContact?)
      && (vcard.Some? && (throwsOn.None? || throwsOn.value >= 2) ==>
            o == Outcome([SendContact(jid, vcard.value.displayName, vcard.value.content),
                          SendText(jid, ConfirmText(vcard.value.displayName))], false))
      && (forall i :: 0 <= i < |o.actions| ==> o.actions[i].jid == jid)
    ensures var o := CommandOutcome(jid, vcard, throwsOn, error, replyThrows); var plan := VcfPlan(jid, vcard);
      Throws(plan, throwsOn) ==>
        && |o.actions| == throwsOn.value + 2
        && o.actions[..|o.actions| - 1] == Truncate(plan, throwsOn) == plan[..throwsOn.value + 1]
        && o.actions[|o.actions| - 1] == SendText(jid, FailurePrefix + error)
        && o.crashed == replyThrows
  {
    var plan := VcfPlan(jid, vcard);
    PlanIsAllSends(jid, vcard);
    var r := Truncate(plan, throwsOn);
    if Throws(plan, throwsOn) {
      assert r != [];
      assert (r + [SendText(jid, FailurePrefix + error)])[..|r|] == r;
    }
  }

  /** The outcomes of a batch's messages, one by one. */
  function Outcomes(batch: seq<VcfDelivery>): (os: seq<Outcome>)
    ensures |os| == |batch|
    ensures forall i :: 0 <= i < |batch| ==> os[i] == MessageOutcome(batch[i])
  {
    seq(|batch|, i requires 0 <= i < |batch| => MessageOutcome(batch[i]))
  }

  /** Outcomes in arrival order; once one has crashed the handler, the
      later ones are never reached. */
  function Combine(os: seq<Outcome>): Outcome
    decreases |os|
  {
    if os == [] then Outcome([], false)
    else
      var prev := Combine(os[..|os| - 1]);
      if prev.crashed then prev
      else Outcome(prev.actions + os[|os| - 1].actions, os[|os| - 1].crashed)
  }

  /** A batch, message by message in arrival order; once the failure reply
      of a message throws, the handler's promise is rejected and the rest of
      the batch is left alone. */
  function BatchOutcome(batch: seq<VcfDelivery>): Outcome {
    Combine(Outcomes(batch))
  }

  /** Nothing after a crash is handled. */
  lemma {:induction false} CrashStopsBatch(os: seq<Outcome>, rest: seq<Outcome>)
    requires Combine(os).crashed
    ensures Combine(os + rest) == Combine(os)
    decreases |rest|
  {
    if rest == [] {
      assert os + rest == os;
    } else {
      var r' := rest[..|rest| - 1];
      assert (os + rest)[..|os + rest| - 1] == os + r';
      CrashStopsBatch(os, r');
    }
  }

  /** A batch that crashes at its `n`th message has the outcome of its
      first `n` messages. */
  lemma CrashEndsBatch(batch: seq<VcfDelivery>, n: nat)
    requires n <= |batch| && Combine(Outcomes(batch)[..n]).crashed
    ensures BatchOutcome(batch) == Combine(Outcomes(batch)[..n])
  {
    var os := Outcomes(batch);
    assert os == os[..n] + os[n..];
    CrashStopsBatch(os[..n], os[n..]);
  }

  /** Every action of the outcomes, in order. */
  function AllActions(os: seq<Outcome>): seq<Action>
    decreases |os|
  {
    if os == [] then [] else os[0].actions + AllActions(os[1..])
  }

  lemma {:induction false} AllActionsSnoc(os: seq<Outcome>, o: Outcome)
    ensures AllActions(os + [o]) == AllActions(os) + o.actions
    decreases |os|
  {
    if os == [] {
      assert os + [o] == [o];
    } else {
      assert (os + [o])[1..] == os[1..] + [o];
      AllActionsSnoc(os[1..], o);
    }
  }

  /** Outcomes that do not crash are all reached: their actions follow one
      another in order, and the batch does not crash. */
  lemma {:induction false} NoCrashConcatenates(os: seq<Outcome>)
    requires forall i :: 0 <= i < |os| ==> !os[i].crashed
    ensures Combine(os) == Outcome(AllActions(os), false)
    decreases |os|
  {
    if os != [] {
      var init := os[..|os| - 1];
      NoCrashConcatenates(init);
      assert os == init + [os[|os| - 1]];
      AllActionsSnoc(init, os[|os| - 1]);
    }
  }

  /** Outcomes after a part that did not crash are combined as if on their
      own and appended. */
  lemma {:induction false} CombineAppend(os: seq<Outcome>, rest: seq<Outcome>)
    requires !Combine(os).crashed
    ensures Combine(os + rest) ==
      Outcome(Combine(os).actions + Combine(rest).actions, Combine(rest).crashed)
    decreases |rest|
  {
    if rest == [] {
      assert os + rest == os;
    } else {
      var r' := rest[..|rest| - 1];
      assert (os + rest)[..|os + rest| - 1] == os + r';
      CombineAppend(os, r');
      if !Combine(r').crashed {
        assert Combine(os).actions + Combine(r').actions + rest[|rest| - 1].actions
          == Combine(os).actions + (Combine(r').actions + rest[|rest| - 1].actions);
      }
    }
  }

  /** A send error whose failure reply goes through is caught: when no
      message lacks its chat and no failure reply throws, every message of
      the batch is handled, in order, and the handler does not crash. */
  lemma CaughtErrorsKeepBatchGoing(batch: seq<VcfDelivery>)
    requires forall i :: 0 <= i < |batch| ==> batch[i].msg.key.remoteJid.Some? && !batch[i].replyThrows
    ensures BatchOutcome(batch) == Outcome(AllActions(Outcomes(batch)), false)
  {
    NoCrashConcatenates(Outcomes(batch));
  }

  /** A send through the socket, of which call number `k` (counting from 0)
      throws. */
  method Send(sent: seq<Action>, a: Action, k: Option<nat>) returns (sent': seq<Action>, threw: bool, k': Option<nat>)
    ensures sent' == sent + [a] && threw == (k == Some(0)) && k' == Countdown(k)
  {
    sent' := sent + [a];
    threw := k == Some(0);
    k' := Countdown(k);
  }

  /** The `try`/`catch` of the `.vcf` branch, send by send. */
  method RunCommand(jid: string, vcard: Option<VcardData>, throwsOn: Option<nat>, error: string, replyThrows: bool)
    returns (sent: seq<Action>, crashed: bool)
    ensures Outcome(sent, crashed) == CommandOutcome(jid, vcard, throwsOn, error, replyThrows)
  {
    sent, crashed := [], false;
    ghost var plan := VcfPlan(jid, vcard);
    PlanIsAllSends(jid, vcard);
    var threw := false;
    var k := throwsOn;
    if vcard.None? {
      sent, threw, k := Send(sent, SendText(jid, HelpText), k);
    } else {
      sent, threw, k := Send(sent, SendContact(jid, vcard.value.displayName, vcard.value.content), k);
      if !threw {
        sent, threw, k := Send(sent, SendText(jid, ConfirmText(vcard.value.displayName)), k);
      }
    }
    assert threw <==> Throws(plan, throwsOn);
    assert sent == Truncate(plan, throwsOn);
    if threw {
      sent := sent + [SendText(jid, FailurePrefix + error)];
      crashed := replyThrows;
    }
  }

  /** The loop body of `handleMessages` for one message; returning early is
      the loop's `continue`. */
  method HandleMessage(d: VcfDelivery) returns (sent: seq<Action>, crashed: bool)
    ensures Outcome(sent, crashed) == MessageOutcome(d)
  {
    sent, crashed := [], false;
    if d.msg.message.None? || d.msg.key.remoteJid == Some(StatusBroadcast) {
      return;
    }
    var text := TextOf(d.msg.message);
    if d.msg.key.remoteJid.None? {
      crashed := true;
      return;
    }
    var jid := d.msg.key.remoteJid.value;
    if !StartsWith(ToLowerAscii(text), ".vcf") {
      return;
    }
    var vcard := ReadVcard(d.file);
    sent, crashed := RunCommand(jid, vcard, d.throwsOn, d.error, d.replyThrows);
  }

  /** `handleMessages`: the outcome is the batch's; a crash rejects the
      handler's promise and ends it. */
  method HandleMessages(batch: seq<VcfDelivery>) returns (sent: seq<Action>, crashed: bool)
    ensures Outcome(sent, crashed) == BatchOutcome(batch)
  {
    sent := [];
    crashed := false;
    ghost var os := Outcomes(batch);
    for i := 0 to |batch|
      invariant Outcome(sent, crashed) == Combine(os[..i])
      invariant !crashed
    {
      assert os[..i + 1][..i] == os[..i];
      var actions, failed := HandleMessage(batch[i]);
      assert os[i] == Outcome(actions, failed);
      sent := sent + actions;
      if failed {
        crashed := true;
        CrashEndsBatch(batch, i + 1);
        return;
      }
    }
    assert os[..|batch|] == os;
  }
}
