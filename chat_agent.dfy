/**
 * The conversational agent: the prompt it builds from the task, the last
 * five history entries and the user's message, and the trimmed reply.
 */
module ChatAgent {
  import opened Wrappers

  /** The characters Python's `str.strip()` removes (the ASCII and Latin-1 ones). */
  predicate IsSpace(c: char) {
    c == ' ' || c == '\t' || c == '\n' || c == '\r' || c == '\U{000B}' || c == '\U{000C}'
    || c == '\U{001C}' || c == '\U{001D}' || c == '\U{001E}' || c == '\U{001F}' || c == '\U{0085}' || c == '\U{00A0}'
  }

  function TrimLeft(s: string): (r: string)
    ensures |r| <= |s| && r == s[|s| - |r|..]
    ensures r == [] || !IsSpace(r[0])
    ensures forall k :: 0 <= k < |s| - |r| ==> IsSpace(s[k])
  {
    if s == [] || !IsSpace(s[0]) then s else TrimLeft(s[1..])
  }

  function TrimRight(s: string): (r: string)
    ensures |r| <= |s| && r == s[..|r|]
    ensures r == [] || !IsSpace(r[|r| - 1])
    ensures forall k :: |r| <= k < |s| ==> IsSpace(s[k])
  {
    if s == [] || !IsSpace(s[|s| - 1]) then s else TrimRight(s[..|s| - 1])
  }

  /**
   * `str.strip()`: the text between the leading and trailing whitespace,
   * with no whitespace left at either end.
   */
  function Strip(s: string): (r: string)
    ensures r == [] || (!IsSpace(r[0]) && !IsSpace(r[|r| - 1]))
    ensures r <= TrimLeft(s)
    ensures r == [] <==> forall k :: 0 <= k < |s| ==> IsSpace(s[k])
    ensures forall k :: 0 <= k < |s| - |TrimLeft(s)| ==> IsSpace(s[k])
    ensures forall k :: |r| <= k < |TrimLeft(s)| ==> IsSpace(TrimLeft(s)[k])
  {
    TrimmedEmpty(s);
    TrimRight(TrimLeft(s))
  }

  /**
   * Trimming both ends leaves a prefix of the left-trimmed text with no
   * whitespace at either end, cuts only whitespace from either end, and
   * leaves nothing exactly when every character is whitespace.
   */
  lemma TrimmedEmpty(s: string)
    ensures var r := TrimRight(TrimLeft(s));
            (r == [] || (!IsSpace(r[0]) && !IsSpace(r[|r| - 1]))) && r <= TrimLeft(s)
            && (r == [] <==> forall k :: 0 <= k < |s| ==> IsSpace(s[k]))
            && (forall k :: 0 <= k < |s| - |TrimLeft(s)| ==> IsSpace(s[k]))
            && (forall k :: |r| <= k < |TrimLeft(s)| ==> IsSpace(TrimLeft(s)[k]))
  {
    var t := TrimLeft(s);
    var r := TrimRight(t);
    if r != [] {
      assert r[0] == t[0];
    }
    if t != [] {
      assert !IsSpace(t[0]) && t[0] == s[|s| - |t|];
      assert r != [];
    }
  }

  /** Stripping twice is stripping once. */
  lemma StripIdempotent(s: string)
    ensures Strip(Strip(s)) == Strip(s)
  {
    var r := Strip(s);
    assert TrimLeft(r) == r;
    assert TrimRight(r) == r;
  }

  /** A history entry's line: its sender (default user) and content (default empty). */
  function HistoryLine(entry: map<string, string>): string {
    var sender := if "sender" in entry then entry["sender"] else "user";
    var content := if "content" in entry then entry["content"] else "";
    sender + ": " + content + "\n"
  }

  /** The at most five most recent entries. */
  function LastFive(history: seq<map<string, string>>): (r: seq<map<string, string>>)
    ensures |r| == if |history| < 5 then |history| else 5
    ensures r == history[|history| - |r|..]
  {
    if |history| <= 5 then history else history[|history| - 5..]
  }

  function HistoryText(entries: seq<map<string, string>>): string {
    if entries == [] then "" else HistoryText(entries[..|entries| - 1]) + HistoryLine(entries[|entries| - 1])
  }

  /** The prompt: task, recent history, the user's message, the instruction. */
  function ContextText(description: string, userMessage: string, history: Option<seq<map<string, string>>>): string {
    "Task: " + description + "\n\n" + (if history.None? then "" else HistoryText(LastFive(history.value)))
    + "\nuser: " + userMessage + "\n\n" + "Respond as a helpful AI assistant working on this task:"
  }

  /** Entries older than the last five do not reach the prompt. */
  lemma ContextIgnoresOlderHistory(description: string, userMessage: string,
                                   older: seq<map<string, string>>, history: seq<map<string, string>>)
    requires |history| >= 5
    ensures ContextText(description, userMessage, Some(older + history)) == ContextText(description, userMessage, Some(history))
  {
    assert LastFive(older + history) == LastFive(history);
  }

  /** The prompt, built as the original builds it: one line per recent entry. */
  method BuildContext(description: string, userMessage: string, history: Option<seq<map<string, string>>>) returns (context: string)
    ensures context == ContextText(description, userMessage, history)
  {
    context := "Task: " + description + "\n\n";
    var recent := if history.None? then [] else LastFive(history.value);
    var lines := "";
    for i := 0 to |recent|
      invariant lines == HistoryText(recent[..i])
    {
      assert recent[..i + 1][..i] == recent[..i];
      lines := lines + HistoryLine(recent[i]);
    }
    assert recent[..|recent|] == recent;
    context := context + lines;
    context := context + "\nuser: " + userMessage + "\n\n";
    context := context + "Respond as a helpful AI assistant working on this task:";
  }

  /** Without history (absent or empty) the prompt is the task, the message and the instruction. */
  lemma NoHistoryNoLines(description: string, userMessage: string, history: Option<seq<map<string, string>>>)
    requires history.None? || history.value == []
    ensures ContextText(description, userMessage, history)
         == "Task: " + description + "\n\n" + "\nuser: " + userMessage + "\n\n"
            + "Respond as a helpful AI assistant working on this task:"
  {
  }

  /** Rendering is line by line in order: the text of two runs of entries is their texts joined. */
  lemma {:induction false} HistoryTextAppend(a: seq<map<string, string>>, b: seq<map<string, string>>)
    ensures HistoryText(a + b) == HistoryText(a) + HistoryText(b)
    decreases |b|
  {
    if b == [] {
      assert a + b == a;
    } else {
      var init := b[..|b| - 1];
      HistoryTextAppend(a, init);
      assert b == init + [b[|b| - 1]];
      HistoryTextStep(a, init, b[|b| - 1]);
    }
  }

  /** One more entry after two joined runs adds its line to the end of both. */
  lemma HistoryTextStep(a: seq<map<string, string>>, init: seq<map<string, string>>, last: map<string, string>)
    requires HistoryText(a + init) == HistoryText(a) + HistoryText(init)
    ensures HistoryText(a + (init + [last])) == HistoryText(a) + HistoryText(init + [last])
  {
    var b := init + [last];
    var ab := a + b;
    assert ab[..|ab| - 1] == a + init && ab[|ab| - 1] == last;
    assert b[..|b| - 1] == init && b[|b| - 1] == last;
    var x, y, l := HistoryText(a), HistoryText(init), HistoryLine(last);
    assert HistoryText(ab) == (x + y) + l;
    assert HistoryText(b) == y + l;
    JoinRegroups(x, y, l);
  }

  /** Joining three texts does not depend on which two are joined first. */
  lemma JoinRegroups(x: string, y: string, z: string)
    ensures (x + y) + z == x + (y + z)
  {
    assert |(x + y) + z| == |x + (y + z)|;
    forall k | 0 <= k < |x + y + z| ensures ((x + y) + z)[k] == (x + (y + z))[k] {
      if k < |x| {
      } else if k < |x| + |y| {
      } else {
      }
    }
  }

  /** The reply: the generated text for the prompt, stripped. */
  method Respond(description: string, userMessage: string, history: Option<seq<map<string, string>>>,
                 generate: string -> string) returns (reply: string)
    ensures reply == Strip(generate(ContextText(description, userMessage, history)))
  {
    var context := BuildContext(description, userMessage, history);
    reply := Strip(generate(context));
  }
}
