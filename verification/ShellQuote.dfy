/** Quoting for the shell (packages/cli/src/wrap.ts), against a reader that follows section 2.2
    ("Quoting") of the POSIX.1-2017 Shell Command Language. */
module ShellQuote {
  import opened Basics

  /** Every quote closes the quoted part, adds an escaped quote, and opens a new part. */
  function Escaped(value: string): string {
    if value == "" then ""
    else (if value[0] == '\'' then "'" + "\\'" + "'" else [value[0]]) + Escaped(value[1..])
  }

  function ShellSingleQuote(value: string): string {
    "'" + Escaped(value) + "'"
  }

  function Spaced(parts: seq<string>): string {
    if parts == [] then ""
    else if |parts| == 1 then parts[0]
    else parts[0] + " " + Spaced(parts[1..])
  }

  const BEARER := "Authorization: Bearer "
  const TOKEN_NAME := "AGENTGATE_ADMIN_TOKEN"
  const JSON_HEADER := "Content-Type: application/json"

  /** `body` is the JSON text of the mapping. */
  function AdminRetryCurl(adminUrl: string, body: string): string {
    Spaced(["curl", "-X", "POST", ShellSingleQuote(adminUrl),
            "-H", "\"" + (BEARER + ("$" + TOKEN_NAME + "\"")),
            "-H", "'" + (JSON_HEADER + "'"),
            "-d", ShellSingleQuote(body)])
  }

  // ---- the shell's reading of a command line --------------------------------------------------

  /** The characters that always, or in some places, mean something else than themselves. */
  predicate IsSpecial(c: char) {
    c in "|&;<>()$`\\\"' \t\n" || c in "*?[#~=%"
  }

  predicate IsNameChar(c: char) {
    'A' <= c <= 'Z' || 'a' <= c <= 'z' || c == '_' || '0' <= c <= '9'
  }

  function QuoteAt(s: string): (k: nat)
    ensures k <= |s| && (k < |s| ==> s[k] == '\'') && forall i :: 0 <= i < k ==> s[i] != '\''
  {
    if s == "" || s[0] == '\'' then 0 else 1 + QuoteAt(s[1..])
  }

  function NameLength(s: string): (k: nat)
    ensures k <= |s| && (forall i :: 0 <= i < k ==> IsNameChar(s[i])) && (k < |s| ==> !IsNameChar(s[k]))
  {
    if s == "" || !IsNameChar(s[0]) then 0 else 1 + NameLength(s[1..])
  }

  /** The rest of a double-quoted part: its text, and what follows the closing quote. A
      parameter is replaced by its value; any other expansion is not read. */
  function ReadDouble(s: string, env: string -> string): (r: Option<(string, string)>)
    ensures r.Some? ==> |r.value.1| < |s|
    decreases |s|
  {
    if s == "" then None
    else if s[0] == '"' then Some(("", s[1..]))
    else if s[0] == '`' then None
    else if s[0] == '\\' && |s| == 1 then None
    else if s[0] == '\\' && s[1] == '\n' then ReadDouble(s[2..], env)
    else if s[0] == '\\' && s[1] in "$`\"\\" then Before([s[1]], ReadDouble(s[2..], env))
    else if s[0] == '$' then
      var n := NameLength(s[1..]);
      if n == 0 || '0' <= s[1] <= '9' then None
      else Before(env(s[1..n + 1]), ReadDouble(s[n + 1..], env))
    else Before([s[0]], ReadDouble(s[1..], env))
  }

  function Before(text: string, rest: Option<(string, string)>): Option<(string, string)> {
    match rest
    case None => None
    case Some((more, after)) => Some((text + more, after))
  }

  /** The word read so far, if one has begun. */
  function OrEmpty(word: Option<string>): string {
    if word.Some? then word.value else ""
  }

  /** The words of a command line, or none where the shell would do more than split words. */
  function Words(s: string, word: Option<string>, env: string -> string): Option<seq<string>>
    decreases |s|
  {
    if s == "" then Some(if word.Some? then [word.value] else [])
    else if s[0] == ' ' || s[0] == '\t' then
      match Words(s[1..], None, env)
      case None => None
      case Some(rest) => Some((if word.Some? then [word.value] else []) + rest)
    else if s[0] == '\'' then
      var k := QuoteAt(s[1..]);
      if k == |s| - 1 then None else Words(s[k + 2..], Some(OrEmpty(word) + s[1..k + 1]), env)
    else if s[0] == '"' then
      match ReadDouble(s[1..], env)
      case None => None
      case Some((text, rest)) => Words(rest, Some(OrEmpty(word) + text), env)
    else if s[0] == '\\' && |s| == 1 then None
    else if s[0] == '\\' && s[1] == '\n' then Words(s[2..], word, env)
    else if s[0] == '\\' then Words(s[2..], Some(OrEmpty(word) + [s[1]]), env)
    else if IsSpecial(s[0]) then None
    else Words(s[1..], Some(OrEmpty(word) + [s[0]]), env)
  }

  // ---- reading back what was quoted ------------------------------------------------------------

  lemma {:induction false} QuoteAtEnd(text: string, rest: string)
    requires '\'' !in text
    ensures QuoteAt(text + "'" + rest) == |text|
  {
    var s := text + "'" + rest;
    assert s[|text|] == '\'';
    assert forall i :: 0 <= i < |text| ==> s[i] == text[i];
  }

  /** One quoted part without a quote in it. */
  lemma OnePart(text: string, rest: string, word: Option<string>, env: string -> string)
    requires '\'' !in text
    ensures Words("'" + (text + "'" + rest), word, env) == Words(rest, Some(OrEmpty(word) + text), env)
  {
    var s := "'" + (text + "'" + rest);
    QuoteAtEnd(text, rest);
    assert s[1..] == text + "'" + rest;
    assert s[1..|text| + 1] == text;
    assert s[|text| + 2..] == rest;
  }

  lemma EscapedQuote(rest: string, word: Option<string>, env: string -> string)
    ensures Words("\\'" + rest, word, env) == Words(rest, Some(OrEmpty(word) + "'"), env)
  {
    assert ("\\'" + rest)[2..] == rest;
  }

  lemma NothingToEscape(value: string)
    requires value == ""
    ensures Escaped(value) == ""
  {
  }

  lemma OneMore(text: string, value: string)
    requires value != "" && value[0] != '\''
    ensures text + Escaped(value) == (text + [value[0]]) + Escaped(value[1..])
  {
  }

  lemma Regrouped(text: string, quote: string, escape: string, tail: string, rest: string)
    ensures text + (quote + escape + quote + tail) + quote + rest
            == text + quote + (escape + (quote + (tail + quote + rest)))
  {
    assert text + (quote + escape + quote + tail) == text + quote + (escape + (quote + tail));
    assert escape + (quote + tail) + quote + rest == escape + (quote + (tail + quote + rest));
  }

  lemma Reopened(text: string, value: string, rest: string)
    requires value != "" && value[0] == '\''
    ensures text + Escaped(value) + "'" + rest == text + "'" + ("\\'" + ("'" + (Escaped(value[1..]) + "'" + rest)))
  {
    Regrouped(text, "'", "\\'", Escaped(value[1..]), rest);
  }

  /** From inside a quoted part that has read `text` so far. */
  lemma {:induction false} QuotedTail(
    text: string, value: string, rest: string, word: Option<string>, env: string -> string)
    requires '\'' !in text
    ensures Words("'" + (text + Escaped(value) + "'" + rest), word, env)
            == Words(rest, Some(OrEmpty(word) + text + value), env)
    decreases |value|
  {
    hide Words, Escaped;
    if value == "" {
      NothingToEscape(value);
      assert text + Escaped(value) + "'" + rest == text + "'" + rest;
      OnePart(text, rest, word, env);
      assert OrEmpty(word) + text + value == OrEmpty(word) + text;
    } else if value[0] == '\'' {
      var later := Escaped(value[1..]) + "'" + rest;
      Reopened(text, value, rest);
      OnePart(text, "\\'" + ("'" + later), word, env);
      EscapedQuote("'" + later, Some(OrEmpty(word) + text), env);
      assert "" + Escaped(value[1..]) + "'" + rest == later;
      QuotedTail("", value[1..], rest, Some(OrEmpty(word) + text + "'"), env);
      assert OrEmpty(word) + text + "'" + "" + value[1..] == OrEmpty(word) + text + value;
    } else {
      OneMore(text, value);
      QuotedTail(text + [value[0]], value[1..], rest, word, env);
      assert OrEmpty(word) + (text + [value[0]]) + value[1..] == OrEmpty(word) + text + value;
    }
  }

  /** Wherever it stands, a quoted string is read as its value, joined to the word it touches. */
  lemma {:induction false} QuotedIsRead(value: string, rest: string, word: Option<string>, env: string -> string)
    ensures Words(ShellSingleQuote(value) + rest, word, env) == Words(rest, Some(OrEmpty(word) + value), env)
  {
    hide Words, Escaped;
    QuotedTail("", value, rest, word, env);
    assert "'" + ("" + Escaped(value) + "'" + rest) == ShellSingleQuote(value) + rest;
    assert OrEmpty(word) + "" + value == OrEmpty(word) + value;
  }

  /** Alone it is exactly one word, equal to the value: for every string, whatever it holds. */
  lemma {:induction false} QuotedIsOneWord(value: string, env: string -> string)
    ensures Words(ShellSingleQuote(value), None, env) == Some([value])
  {
    QuotedIsRead(value, "", None, env);
    assert ShellSingleQuote(value) + "" == ShellSingleQuote(value);
    assert OrEmpty(None) + value == value;
  }

  // ---- the whole command -----------------------------------------------------------------------

  predicate IsPlain(s: string) {
    forall i :: 0 <= i < |s| ==> !IsSpecial(s[i])
  }

  lemma {:induction false} PlainIsRead(text: string, rest: string, word: Option<string>, env: string -> string)
    requires IsPlain(text) && text != ""
    ensures Words(text + rest, word, env) == Words(rest, Some(OrEmpty(word) + text), env)
    decreases |text|
  {
    assert (text + rest)[1..] == text[1..] + rest;
    var longer := OrEmpty(word) + [text[0]];
    if |text| > 1 {
      PlainIsRead(text[1..], rest, Some(longer), env);
      assert longer + text[1..] == OrEmpty(word) + text;
    } else {
      assert text[1..] + rest == rest;
      assert longer == OrEmpty(word) + text;
    }
  }

  /** At the start of a word, `part` is read as the text `word`, whatever follows. */
  ghost predicate ReadsAs(part: string, word: string, env: string -> string) {
    forall rest :: Words(part + rest, None, env) == Words(rest, Some(word), env)
  }

  lemma PlainReads(text: string, env: string -> string)
    requires IsPlain(text) && text != ""
    ensures ReadsAs(text, text, env)
  {
    forall rest
      ensures Words(text + rest, None, env) == Words(rest, Some(text), env)
    {
      PlainIsRead(text, rest, None, env);
      assert OrEmpty(None) + text == text;
    }
  }

  lemma QuotedReads(value: string, env: string -> string)
    ensures ReadsAs(ShellSingleQuote(value), value, env)
  {
    forall rest
      ensures Words(ShellSingleQuote(value) + rest, None, env) == Words(rest, Some(value), env)
    {
      QuotedIsRead(value, rest, None, env);
      assert OrEmpty(None) + value == value;
    }
  }

  lemma PartReads(text: string, env: string -> string)
    requires '\'' !in text
    ensures ReadsAs("'" + (text + "'"), text, env)
  {
    forall rest
      ensures Words("'" + (text + "'") + rest, None, env) == Words(rest, Some(text), env)
    {
      OnePart(text, rest, None, env);
      assert "'" + (text + "'") + rest == "'" + (text + "'" + rest);
      assert OrEmpty(None) + text == text;
    }
  }

  ghost predicate AllRead(parts: seq<string>, words: seq<string>, env: string -> string) {
    |parts| == |words| && forall i :: 0 <= i < |parts| ==> ReadsAs(parts[i], words[i], env)
  }

  /** Parts with blanks between them are read as one word each. */
  lemma {:induction false} SpacedReads(parts: seq<string>, words: seq<string>, env: string -> string)
    requires AllRead(parts, words, env)
    ensures Words(Spaced(parts), None, env) == Some(words)
  {
    if parts != [] {
      var rest := if |parts| == 1 then "" else " " + Spaced(parts[1..]);
      assert ReadsAs(parts[0], words[0], env);
      assert Spaced(parts) == parts[0] + rest;
      assert Words(Spaced(parts), None, env) == Words(rest, Some(words[0]), env);
      if |parts| > 1 {
        SpacedReads(parts[1..], words[1..], env);
        assert rest[1..] == Spaced(parts[1..]);
        assert words == [words[0]] + words[1..];
      } else {
        assert words == [words[0]];
      }
    }
  }

  predicate IsTextInDouble(s: string) {
    forall i :: 0 <= i < |s| ==> s[i] !in "\"`\\$"
  }

  lemma HeadBefore(text: string, more: string)
    requires text != ""
    ensures [text[0]] + (text[1..] + more) == text + more
  {
  }

  lemma {:induction false} TextInDouble(text: string, rest: string, env: string -> string)
    requires IsTextInDouble(text)
    ensures ReadDouble(text + rest, env) == Before(text, ReadDouble(rest, env))
  {
    if text == "" {
      assert text + rest == rest;
      match ReadDouble(rest, env)
      case None =>
      case Some((more, after)) => assert "" + more == more;
    } else {
      assert (text + rest)[1..] == text[1..] + rest;
      TextInDouble(text[1..], rest, env);
      match ReadDouble(rest, env)
      case None =>
      case Some((more, after)) => HeadBefore(text, more);
    }
  }

  lemma ParameterInDouble(name: string, rest: string, env: string -> string)
    requires name != "" && (forall i :: 0 <= i < |name| ==> IsNameChar(name[i])) && !('0' <= name[0] <= '9')
    ensures ReadDouble("$" + name + "\"" + rest, env) == Some((env(name), rest))
  {
    var s := "$" + name + "\"" + rest;
    assert s[1..] == name + "\"" + rest;
    NameEnds(name, rest);
    assert s[1..|name| + 1] == name;
    assert s[|name| + 1..] == "\"" + rest;
    assert ("\"" + rest)[1..] == rest;
    assert env(name) + "" == env(name);
  }

  lemma NameEnds(name: string, rest: string)
    requires forall i :: 0 <= i < |name| ==> IsNameChar(name[i])
    ensures NameLength(name + "\"" + rest) == |name|
  {
    var s := name + "\"" + rest;
    assert s[|name|] == '"';
    assert forall i :: 0 <= i < |name| ==> s[i] == name[i];
  }

  lemma DoubleReads(text: string, name: string, env: string -> string)
    requires IsTextInDouble(text)
    requires name != "" && (forall i :: 0 <= i < |name| ==> IsNameChar(name[i])) && !('0' <= name[0] <= '9')
    ensures ReadsAs("\"" + (text + ("$" + name + "\"")), text + env(name), env)
  {
    var part := "\"" + (text + ("$" + name + "\""));
    forall rest
      ensures Words(part + rest, None, env) == Words(rest, Some(text + env(name)), env)
    {
      assert (part + rest)[1..] == text + ("$" + name + "\"" + rest);
      TextInDouble(text, "$" + name + "\"" + rest, env);
      ParameterInDouble(name, rest, env);
      assert OrEmpty(None) + (text + env(name)) == text + env(name);
    }
  }

  lemma HeadersFit()
    ensures IsTextInDouble(BEARER)
    ensures forall i :: 0 <= i < |TOKEN_NAME| ==> IsNameChar(TOKEN_NAME[i])
    ensures '\'' !in JSON_HEADER
  {
  }

  lemma PlainPartsFit()
    ensures IsPlain("curl") && IsPlain("POST") && IsPlain("-X") && IsPlain("-H") && IsPlain("-d")
  {
    OptionsFit();
  }

  lemma OptionsFit()
    ensures IsPlain("-X") && IsPlain("-H") && IsPlain("-d")
  {
  }

  /** The printed command is read as exactly these words, for every URL and every body: the
      token comes from the environment and nothing in the URLs can become a word of its own. */
  lemma {:induction false} RetryCommandIsRead(adminUrl: string, body: string, env: string -> string)
    ensures Words(AdminRetryCurl(adminUrl, body), None, env) ==
            Some(["curl", "-X", "POST", adminUrl,
                  "-H", "Authorization: Bearer " + env("AGENTGATE_ADMIN_TOKEN"),
                  "-H", "Content-Type: application/json",
                  "-d", body])
  {
    hide Words, ShellSingleQuote, ReadsAs, Spaced, IsPlain, IsTextInDouble;
    HeadersFit();
    PlainPartsFit();
    PlainReads("curl", env);
    PlainReads("-X", env);
    PlainReads("POST", env);
    PlainReads("-H", env);
    PlainReads("-d", env);
    QuotedReads(adminUrl, env);
    QuotedReads(body, env);
    DoubleReads(BEARER, TOKEN_NAME, env);
    PartReads(JSON_HEADER, env);
    var parts := ["curl", "-X", "POST", ShellSingleQuote(adminUrl),
                  "-H", "\"" + (BEARER + ("$" + TOKEN_NAME + "\"")),
                  "-H", "'" + (JSON_HEADER + "'"),
                  "-d", ShellSingleQuote(body)];
    var words := ["curl", "-X", "POST", adminUrl, "-H", BEARER + env(TOKEN_NAME), "-H", JSON_HEADER, "-d", body];
    SpacedReads(parts, words, env);
  }
}
