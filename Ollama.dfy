/** `askAI` of the AI bot: how the question is put on the `ollama run`
    command line, and how the outcome of that command becomes the text the
    user is shown. Running the process is not modelled; its outcome is an
    input. */
module Ollama {
  import opened Wrappers
  import opened JsStrings

  const Model := "Qwen3:0.6b"

  /** The outcome of `execPromise(...)`: the captured standard output, or the
      `message` of the error it rejected with. */
  datatype ExecResult = Completed(stdout: string) | Failed(message: string)

  const DoneText := "✅ Selesai."
  const TimeoutText := "⏱️ Timeout 3 menit"
  const MissingModelText := "❌ Model tidak ada"
  const RetryText := "❌ Error, coba lagi"

  /** The text `askAI` resolves to. A successful run gives its trimmed
      output, or a fixed placeholder when that is empty; a failure is
      classified by its message, a timeout before a missing model, and
      anything else asks the user to try again. The answer is never empty. */
  function AiAnswer(r: ExecResult): (a: string)
    ensures a != ""
    ensures r.Completed? ==> Trim(r.stdout) != "" ==> a == Trim(r.stdout)
    ensures r.Completed? ==> Trim(r.stdout) == "" ==> a == DoneText
    ensures r.Failed? ==> (a == TimeoutText <==> Includes(r.message, "timeout"))
    ensures r.Failed? ==> (a == MissingModelText <==> !Includes(r.message, "timeout") && Includes(r.message, "not found"))
    ensures r.Failed? ==> (a == RetryText <==> !Includes(r.message, "timeout") && !Includes(r.message, "not found"))
  {
    match r
    case Completed(out) => var t := Trim(out); if t != "" then t else DoneText
    case Failed(msg) =>
      if Includes(msg, "timeout") then TimeoutText
      else if Includes(msg, "not found") then MissingModelText
      else RetryText
  }

  function Count(s: string, c: char): nat
    decreases |s|
  {
    if s == [] then 0 else (if s[0] == c then 1 else 0) + Count(s[1..], c)
  }

  /** `question.replace(/"/g, '\\"')`: every double quote gets a backslash in
      front of it. The result is longer by the number of quotes, and no
      quote in it is left without a backslash before it. */
  function EscapeQuotes(q: string): (r: string)
    ensures |r| == |q| + Count(q, '"')
    ensures forall i :: 0 <= i < |r| && r[i] == '"' ==> 0 < i && r[i - 1] == '\\'
    decreases |q|
  {
    if q == [] then []
    else
      var head := if q[0] == '"' then "\\\"" else [q[0]];
      var tail := EscapeQuotes(q[1..]);
      assert forall i :: |head| <= i < |head| + |tail| ==> (head + tail)[i] == tail[i - |head|];
      head + tail
  }

  /** The inverse of `EscapeQuotes`: each backslash-quote pair turns back
      into a quote. */
  function UnescapeQuotes(r: string): (q: string)
    decreases |r|
  {
    if r == [] then []
    else if |r| >= 2 && r[0] == '\\' && r[1] == '"' then "\"" + UnescapeQuotes(r[2..])
    else [r[0]] + UnescapeQuotes(r[1..])
  }

  /** Escaping loses nothing: every character other than a quote passes
      through unchanged and in order. */
  lemma {:induction false} EscapeQuotesRoundTrip(q: string)
    ensures UnescapeQuotes(EscapeQuotes(q)) == q
    decreases |q|
  {
    if q != [] {
      var tail := EscapeQuotes(q[1..]);
      EscapeQuotesRoundTrip(q[1..]);
      if q[0] == '"' {
        assert EscapeQuotes(q) == "\\\"" + tail;
        assert (("\\\"" + tail)[2..]) == tail;
      } else {
        assert EscapeQuotes(q) == [q[0]] + tail;
        assert ([q[0]] + tail)[1..] == tail;
        assert tail != [] ==> tail[0] != '"';
      }
    }
  }

  /** The text a POSIX shell makes of the double-quoted word `"` + s + `"`,
      or `None` when that word does not stay one literal string: an
      unescaped `"` ends it early, an unescaped `$` or backquote may start an
      expansion, and a trailing backslash escapes the closing quote. Inside
      double quotes a backslash escapes only `$`, backquote, `"`, backslash
      and newline (a line continuation); before anything else it stays. */
  function ShellDoubleQuoted(s: string): (r: Option<string>)
    decreases |s|
  {
    if s == [] then Some([])
    else if s[0] == '\\' then
      if |s| == 1 then None
      else if s[1] == '$' || s[1] == '`' || s[1] == '"' || s[1] == '\\' then Prepend(s[1], ShellDoubleQuoted(s[2..]))
      else if s[1] == '\n' then ShellDoubleQuoted(s[2..])
      else Prepend('\\', ShellDoubleQuoted(s[1..]))
    else if s[0] == '"' || s[0] == '$' || s[0] == '`' then None
    else Prepend(s[0], ShellDoubleQuoted(s[1..]))
  }

  function Prepend(c: char, o: Option<string>): Option<string> {
    match o
    case Some(t) => Some([c] + t)
    case None => None
  }

  /** Characters the shell treats specially inside double quotes. */
  predicate ShellSpecial(c: char) {
    c == '"' || c == '\\' || c == '$' || c == '`'
  }

  /** Escaping only the quotes is enough for a question that holds no
      backslash, `$` or backquote: the shell then hands `ollama` exactly
      the question. */
  lemma {:induction false} EscapeQuotesSafeWithoutShellSpecials(q: string)
    requires forall i :: 0 <= i < |q| ==> q[i] != '\\' && q[i] != '$' && q[i] != '`'
    ensures ShellDoubleQuoted(EscapeQuotes(q)) == Some(q)
    decreases |q|
  {
    if q != [] {
      EscapeQuotesSafeWithoutShellSpecials(q[1..]);
      var tail := EscapeQuotes(q[1..]);
      var s := EscapeQuotes(q);
      if q[0] == '"' {
        assert s == "\\\"" + tail;
        assert s[0] == '\\' && s[1] == '"' && s[2..] == tail;
      } else {
        assert s == [q[0]] + tail;
        assert s[1..] == tail;
      }
      assert ShellDoubleQuoted(s) == Prepend(q[0], ShellDoubleQuoted(tail));
      assert [q[0]] + q[1..] == q;
    }
  }

  /** The escaping as written lets a question out of its quotes: the
      question `\"` (backslash, quote) is escaped to `\\"`, in which the
      shell reads an escaped backslash and then a quote that closes the
      word; `$(...)` is passed through and expanded. */
  lemma QuoteOnlyEscapeBreaksOut()
    ensures ShellDoubleQuoted(EscapeQuotes("\\\"")) == None
    ensures ShellDoubleQuoted(EscapeQuotes("$(reboot)")) == None
  {
    assert EscapeQuotes("\"") == "\\\"";
    assert EscapeQuotes("\\\"") == "\\\\\"";
    assert ShellDoubleQuoted("\"") == None;
    assert ShellDoubleQuoted("\\\\\"") == Prepend('\\', ShellDoubleQuoted("\""));
  }

  /** The escaping the command line needs: a backslash before every
      character that is special inside double quotes. */
  function ShellEscape(q: string): (r: string)
    ensures |r| == |q| + Count(q, '"') + Count(q, '\\') + Count(q, '$') + Count(q, '`')
    decreases |q|
  {
    if q == [] then [] else (if ShellSpecial(q[0]) then ['\\', q[0]] else [q[0]]) + ShellEscape(q[1..])
  }

  /** Whatever the question, the shell hands `ollama` exactly the question
      when it is escaped with `ShellEscape` and put in double quotes. */
  lemma {:induction false} ShellEscapeRoundTrip(q: string)
    ensures ShellDoubleQuoted(ShellEscape(q)) == Some(q)
    decreases |q|
  {
    if q != [] {
      ShellEscapeRoundTrip(q[1..]);
      var tail := ShellEscape(q[1..]);
      var s := ShellEscape(q);
      if ShellSpecial(q[0]) {
        assert s == ['\\', q[0]] + tail;
        assert s[0] == '\\' && s[1] == q[0] && s[2..] == tail;
      } else {
        assert s == [q[0]] + tail;
        assert s[1..] == tail;
      }
      assert ShellDoubleQuoted(s) == Prepend(q[0], ShellDoubleQuoted(tail));
      assert [q[0]] + q[1..] == q;
    }
  }

  /** `ShellEscape` changes nothing where `EscapeQuotes` is already safe. */
  lemma {:induction false} ShellEscapeAgreesWhenSafe(q: string)
    requires forall i :: 0 <= i < |q| ==> q[i] != '\\' && q[i] != '$' && q[i] != '`'
    ensures ShellEscape(q) == EscapeQuotes(q)
    decreases |q|
  {
    if q != [] {
      ShellEscapeAgreesWhenSafe(q[1..]);
    }
  }
}
