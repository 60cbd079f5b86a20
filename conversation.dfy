/** The in-memory conversation log: a per-user, append-only list of
    Messages, and a length-bounded summary of it built the way Python's
    `textwrap.shorten(text, width, placeholder="...")` shortens text. */
module Conversation {
  import opened Strings
  import opened Wrappers

  /** A point in time; the wall clock that produces it is not modelled. */
  type Timestamp = nat

  const USER_ROLE := "user"
  const ASSISTANT_ROLE := "assistant"

  /** A logged message. */
  datatype Message = Message(role: string, content: string, timestamp: Timestamp)

  /** The `"{role}: {content}"` rendering of a message, used both by the
      summary and by the history block of a prompt. */
  function Line(m: Message): (s: string)
    ensures |s| == |m.role| + 2 + |m.content| && IsPrefix(m.role, s)
    ensures s[|m.role|..|m.role| + 2] == ": "
    ensures s[|m.role| + 2..] == m.content
  {
    m.role + ": " + m.content
  }

  /** The rendered line of every message, in history order. */
  function Lines(h: seq<Message>): (ls: seq<string>)
    ensures |ls| == |h|
    ensures forall k | 0 <= k < |h| :: ls[k] == Line(h[k])
  {
    seq(|h|, k requires 0 <= k < |h| => Line(h[k]))
  }

  // ----- textwrap.shorten -----

  const PLACEHOLDER := "..."

  /** Why `textwrap.shorten` raises `ValueError`. */
  datatype ShortenError = InvalidWidth | PlaceholderTooLarge

  /** The largest `n <= k` whose first `n` words, joined by spaces, fit in
      `budget` characters (zero when not even one word fits). */
  function FitWords(ws: seq<string>, budget: int, k: nat): (n: nat)
    requires k <= |ws|
    ensures n <= k
    ensures n == 0 || |Join(" ", ws[..n])| <= budget
    ensures forall j | n < j <= k :: |Join(" ", ws[..j])| > budget
  {
    if k == 0 || |Join(" ", ws[..k])| <= budget then k else FitWords(ws, budget, k - 1)
  }

  /** `textwrap.shorten(text, width, placeholder="...")`: the text with its
      whitespace collapsed, returned whole when it fits in `width`, and
      otherwise as many leading words as fit together with the placeholder,
      followed by it. A width below one, or too small for the placeholder,
      is an error. */
  function Shorten(text: string, width: int): (r: Result<string, ShortenError>)
    ensures width <= 0 <==> r == Failure(InvalidWidth)
    ensures 0 < width < |PLACEHOLDER| <==> r == Failure(PlaceholderTooLarge)
    ensures r.Success? <==> width >= |PLACEHOLDER|
    ensures r.Success? ==> |r.value| <= width
    ensures r.Success? && |Collapse(text)| <= width ==> r.value == Collapse(text)
    ensures r.Success? && |Collapse(text)| > width ==>
      |r.value| >= |PLACEHOLDER| && r.value[|r.value| - |PLACEHOLDER|..] == PLACEHOLDER
  {
    if width <= 0 then Failure(InvalidWidth)
    else if width < |PLACEHOLDER| then Failure(PlaceholderTooLarge)
    else
      var ws := Words(text);
      var whole := Join(" ", ws);
      if |whole| <= width then Success(whole)
      else
        var n := FitWords(ws, width - |PLACEHOLDER|, |ws|);
        Success(Join(" ", ws[..n]) + PLACEHOLDER)
  }

  /** When the collapsed text does not fit, the summary is a proper prefix of
      it that ends at a word boundary, followed by the placeholder, and the
      next word would not have fitted. */
  lemma ShortenCutsAtWord(text: string, width: int) returns (n: nat)
    requires width >= |PLACEHOLDER| && |Collapse(text)| > width
    ensures n < |Words(text)|
    ensures Shorten(text, width) == Success(Join(" ", Words(text)[..n]) + PLACEHOLDER)
    ensures IsPrefix(Join(" ", Words(text)[..n]), Collapse(text))
    ensures 0 < n ==> Collapse(text)[|Join(" ", Words(text)[..n])|] == ' '
    ensures |Join(" ", Words(text)[..n + 1])| > width - |PLACEHOLDER|
  {
    var ws := Words(text);
    n := FitWords(ws, width - |PLACEHOLDER|, |ws|);
    assert ws[..|ws|] == ws;
    if 0 < n {
      JoinPrefix(" ", ws, n);
      PrefixOfPrefix(Join(" ", ws[..n]), " ", Collapse(text));
    }
  }

  /** A prefix followed by one character: both are read off the whole. */
  lemma PrefixOfPrefix(a: string, b: string, c: string)
    requires |b| == 1 && IsPrefix(a + b, c)
    ensures IsPrefix(a, c) && c[|a|] == b[0]
  {
    assert c[..|a|] == (a + b)[..|a|];
    assert c[|a|] == (a + b)[|a|];
  }

  /** `summarize`'s text: every message's line, in order, joined by single
      spaces; it holds the line of every message. */
  function SummaryText(h: seq<Message>): (s: string)
    ensures forall k | 0 <= k < |h| :: Contains(s, Line(h[k]))
  {
    var s := Join(" ", Lines(h));
    forall k | 0 <= k < |h| ensures Contains(s, Line(h[k])) {
      JoinContains(" ", Lines(h), k);
    }
    s
  }

  /** A conversation context: user id to that user's messages, oldest first.
      A user with no entry has an empty history. */
  class ConversationContext {
    var history: map<string, seq<Message>>

    constructor ()
      ensures history == map[]
      ensures forall u :: GetHistory(u) == []
    {
      history := map[];
    }

    /** `get_history`: the user's messages, or the empty list for a user
        never recorded; reading creates no entry. */
    function GetHistory(userId: string): (h: seq<Message>)
      reads this
      ensures userId !in history ==> h == []
      ensures userId in history ==> h == history[userId]
    {
      if userId in history then history[userId] else []
    }

    /** `record`: append the user's query and then the assistant's response
        to that user's history; nothing else changes. */
    method Record(userId: string, query: string, response: string, queryTime: Timestamp, responseTime: Timestamp)
      modifies this
      ensures history == old(history)[userId := old(GetHistory(userId))
        + [Message(USER_ROLE, query, queryTime), Message(ASSISTANT_ROLE, response, responseTime)]]
      ensures GetHistory(userId) == old(GetHistory(userId))
        + [Message(USER_ROLE, query, queryTime), Message(ASSISTANT_ROLE, response, responseTime)]
      ensures forall u | u != userId :: GetHistory(u) == old(GetHistory(u))
    {
      var h := GetHistory(userId);
      h := h + [Message(USER_ROLE, query, queryTime)];
      h := h + [Message(ASSISTANT_ROLE, response, responseTime)];
      assert h == old(GetHistory(userId))
        + [Message(USER_ROLE, query, queryTime), Message(ASSISTANT_ROLE, response, responseTime)];
      history := history[userId := h];
    }

    /** `summarize`: the user's history as one line of text, shortened to
        at most `maxChars` characters the way `Shorten` does, so a cut falls
        at a word boundary (ShortenCutsAtWord). */
    method Summarize(userId: string, maxChars: int) returns (r: Result<string, ShortenError>)
      ensures r == Shorten(SummaryText(GetHistory(userId)), maxChars)
      ensures r.Success? <==> maxChars >= |PLACEHOLDER|
      ensures r.Success? ==> |r.value| <= maxChars
      ensures r.Success? && |Collapse(SummaryText(GetHistory(userId)))| <= maxChars
        ==> r.value == Collapse(SummaryText(GetHistory(userId)))
      ensures r.Success? && |Collapse(SummaryText(GetHistory(userId)))| > maxChars
        ==> |r.value| >= |PLACEHOLDER| && r.value[|r.value| - |PLACEHOLDER|..] == PLACEHOLDER
    {
      r := Shorten(SummaryText(GetHistory(userId)), maxChars);
    }
  }

  /** Recording one exchange for a new user and reading it back gives the
      query as a user message and then the response as an assistant message. */
  method RecordThenGetHistory(userId: string, query: string, response: string, t1: Timestamp, t2: Timestamp)
    returns (h: seq<Message>)
    ensures |h| == 2
    ensures h[0].role == USER_ROLE && h[0].content == query
    ensures h[1].role == ASSISTANT_ROLE && h[1].content == response
  {
    var ctx := new ConversationContext();
    ctx.Record(userId, query, response, t1, t2);
    h := ctx.GetHistory(userId);
  }

  /** Three recorded exchanges summarised into 50 characters fit in 50 characters. */
  method SummarizeWithinBound(userId: string, t: Timestamp) returns (summary: string)
    ensures |summary| <= 50
  {
    var ctx := new ConversationContext();
    ctx.Record(userId, "q0", "a0", t, t);
    ctx.Record(userId, "q1", "a1", t, t);
    ctx.Record(userId, "q2", "a2", t, t);
    var r := ctx.Summarize(userId, 50);
    summary := r.value;
  }
}
