/** getContext: renders the system prompt, reserves tokens for it and for
    the latest user message, fills the rest of the token budget with the
    newest messages of the chat, page by page, and hands them in
    chronological order to the role-alternation normaliser. */
module ContextWindow {
  import opened Shared
  import opened PageQuery
  import PM = ProviderMessages
  import SP = SystemPrompt

  /** Messages requested per page. */
  const PageSize: nat := 100

  /** The fewest tokens that must remain for the history. */
  const MinWindowTokens := 300

  datatype ContextParams = ContextParams(
    latestUserMessage: string,
    cardData: CardData,
    persona: PersonaData,
    jailbreak: string,
    variant: string,
    tokenLimit: int)

  datatype Context = Context(system: string, messages: seq<ProviderMessage>)

  datatype ContextError =
    | PromptFailed(cause: SP.PromptError)  // getTemplate rejected the variant
    | BudgetExceeded                       // fewer than 300 tokens remain

  /** The parameters getContext renders the system prompt with: the
      character memory is always empty. */
  function SystemParams(p: ContextParams): SP.SystemPromptParams
  {
    SP.SystemPromptParams(p.cardData, p.persona, "", p.jailbreak, p.variant)
  }

  /** Tokens left for the history once the latest user message and the
      system prompt are counted. */
  function Remaining(p: ContextParams, tokens: string -> nat, system: string): int
  {
    p.tokenLimit - (tokens(p.latestUserMessage) + tokens(system))
  }

  /** Token total of a run of messages. */
  function Tokens(tokens: string -> nat, s: seq<StoredMessage>): nat
  {
    if s == [] then 0 else Tokens(tokens, s[..|s| - 1]) + tokens(s[|s| - 1].text)
  }

  /** Whether fetching stops once the k newest messages are taken: no
      older message is left, a whole number of pages was taken and the
      budget is used up (the `while` guard fails), or the next older
      message would overflow the budget (the `for` stops). */
  predicate StopsAt(d: seq<StoredMessage>, tokens: string -> nat, budget: int, k: nat)
    requires k <= |d|
  {
    || k == |d|
    || (k % PageSize == 0 && Tokens(tokens, d[..k]) >= budget)
    || Tokens(tokens, d[..k]) + tokens(d[k].text) > budget
  }

  /** What fetching yields: the k newest messages of the chat, newest
      first, within the budget, where k is the first point at which
      fetching stops. */
  predicate GreedyWindow(chat: seq<StoredMessage>, tokens: string -> nat, budget: int, window: seq<StoredMessage>)
  {
    var d := SortDesc(chat);
    && |window| <= |d|
    && window == d[..|window|]
    && Tokens(tokens, window) <= budget
    && StopsAt(d, tokens, budget, |window|)
    && forall k :: 0 <= k < |window| ==> !StopsAt(d, tokens, budget, k)
  }

  /** The window is determined by the chat, the tokenizer and the budget. */
  lemma GreedyWindowUnique(chat: seq<StoredMessage>, tokens: string -> nat, budget: int,
                           w1: seq<StoredMessage>, w2: seq<StoredMessage>)
    requires GreedyWindow(chat, tokens, budget, w1)
    requires GreedyWindow(chat, tokens, budget, w2)
    ensures w1 == w2
  {
    assert |w1| == |w2|;
  }

  /** Positions inside a page after its first are not page boundaries. */
  lemma InsidePage(k0: nat, i: nat)
    requires k0 % PageSize == 0 && 0 < i < PageSize
    ensures (k0 + i) % PageSize != 0
  {
  }

  /** A whole page after a page boundary ends on a page boundary. */
  lemma NextBoundary(k0: nat)
    requires k0 % PageSize == 0
    ensures (k0 + PageSize) % PageSize == 0
  {
  }

  lemma TokensSnoc(tokens: string -> nat, s: seq<StoredMessage>, m: StoredMessage)
    ensures Tokens(tokens, s + [m]) == Tokens(tokens, s) + tokens(m.text)
  {
    assert (s + [m])[..|s|] == s;
  }

  /** The `for` over one page: accepts messages in order while they fit in
      the budget, moving the cursor to each accepted one, and stops at the
      first that would overflow it. `d` is the chat newest first and the
      page is the run of it that follows the messages already taken. */
  method AcceptPage(ghost d: seq<StoredMessage>, page: seq<StoredMessage>, tokens: string -> nat, budget: int,
                    window0: seq<StoredMessage>, used0: int, cursor0: Option<int>)
    returns (window: seq<StoredMessage>, used: int, cursor: Option<int>, overflow: bool)
    requires |window0| + |page| <= |d| && |page| <= PageSize && |window0| % PageSize == 0
    requires window0 == d[..|window0|] && page == d[|window0|..|window0| + |page|]
    requires cursor0 == CursorAfter(d, |window0|)
    requires used0 == Tokens(tokens, window0) < budget
    requires forall k :: 0 <= k < |window0| ==> !StopsAt(d, tokens, budget, k)
    ensures |window0| <= |window| <= |window0| + |page| && window == d[..|window|]
    ensures cursor == CursorAfter(d, |window|)
    ensures used == Tokens(tokens, window) <= budget
    ensures forall k :: 0 <= k < |window| ==> !StopsAt(d, tokens, budget, k)
    ensures overflow ==> |window| < |d| && used + tokens(d[|window|].text) > budget
    ensures !overflow ==> |window| == |window0| + |page|
  {
    window, used, cursor, overflow := window0, used0, cursor0, false;
    ghost var k0 := |window0|;
    var i := 0;
    while i < |page| && !overflow
      invariant 0 <= i <= |page|
      invariant window == d[..k0 + i]
      invariant cursor == CursorAfter(d, |window|)
      invariant used == Tokens(tokens, window) <= budget
      invariant i == 0 ==> used == used0
      invariant forall k :: 0 <= k < |window| ==> !StopsAt(d, tokens, budget, k)
      invariant overflow ==> i < |page| && used + tokens(page[i].text) > budget
      decreases |page| - i, if overflow then 0 else 1
    {
      var t := tokens(page[i].text);
      if used + t > budget {
        overflow := true;
      } else {
        assert page[i] == d[k0 + i];
        AcceptOne(d, tokens, budget, k0, i, used);
        window := window + [page[i]];
        used := used + t;
        cursor := Some(page[i].id);
        i := i + 1;
      }
    }
    if overflow {
      assert page[i] == d[k0 + i];
    }
  }

  /** Accepting the message at position k0 + i of a page that starts at a
      page boundary, when it fits, passes no stopping point. */
  lemma AcceptOne(d: seq<StoredMessage>, tokens: string -> nat, budget: int, k0: nat, i: nat, used: int)
    requires k0 % PageSize == 0 && i < PageSize && k0 + i < |d|
    requires used == Tokens(tokens, d[..k0 + i])
    requires i == 0 ==> used < budget
    requires used + tokens(d[k0 + i].text) <= budget
    requires forall k :: 0 <= k < k0 + i ==> !StopsAt(d, tokens, budget, k)
    ensures forall k :: 0 <= k < k0 + i + 1 ==> !StopsAt(d, tokens, budget, k)
    ensures d[..k0 + i + 1] == d[..k0 + i] + [d[k0 + i]]
    ensures Tokens(tokens, d[..k0 + i + 1]) == used + tokens(d[k0 + i].text)
  {
    if i > 0 {
      InsidePage(k0, i);
    }
    assert !StopsAt(d, tokens, budget, k0 + i);
    assert d[..k0 + i + 1] == d[..k0 + i] + [d[k0 + i]];
    TokensSnoc(tokens, d[..k0 + i], d[k0 + i]);
  }

  /** The paging loop of getContext, stopping at the first message that
      would overflow the budget (as written, the source only leaves the
      page there; see AsWrittenNeverFinishes). */
  method FetchWindow(chat: seq<StoredMessage>, tokens: string -> nat, budget: int)
    returns (window: seq<StoredMessage>, used: int, ghost pages: nat)
    requires DistinctIds(chat)
    requires budget >= 0
    ensures GreedyWindow(chat, tokens, budget, window)
    ensures used == Tokens(tokens, window)
    ensures budget > 0 ==> pages >= 1
  {
    window, used, pages := [], 0, 0;
    var cursor: Option<int> := None;
    var overflow := false;
    ghost var d := SortDesc(chat);
    SortDescending(chat);
    while used < budget && !overflow
      invariant |window| <= |d| && window == d[..|window|]
      invariant cursor == CursorAfter(d, |window|)
      invariant used == Tokens(tokens, window) <= budget
      invariant forall k :: 0 <= k < |window| ==> !StopsAt(d, tokens, budget, k)
      invariant overflow ==> |window| < |d| && used + tokens(d[|window|].text) > budget
      invariant !overflow ==> |window| % PageSize == 0 || |window| == |d|
      invariant pages == 0 ==> !overflow && used == 0
      decreases |d| - |window|, if overflow then 0 else 1
    {
      var page := Page(chat, PageSize, cursor);
      pages := pages + 1;
      PageFromCursor(chat, PageSize, |window|);
      if |page| == 0 {
        break;
      }
      ghost var k0 := |window|;
      NextBoundary(k0);
      window, used, cursor, overflow := AcceptPage(d, page, tokens, budget, window, used, cursor);
    }
  }

  /** getContext. The page query and the tokenizer are the chat's messages
      and `tokens`; `window` (newest first) and `pages` (page queries made)
      are for the specification only. */
  method GetContext(chat: seq<StoredMessage>, p: ContextParams, tokens: string -> nat)
    returns (r: Result<Context, ContextError>, ghost window: seq<StoredMessage>, ghost pages: nat)
    requires DistinctIds(chat)
    ensures SP.RenderSystemPrompt(SystemParams(p)).Failure? ==>
      r == Failure(PromptFailed(SP.RenderSystemPrompt(SystemParams(p)).error)) && pages == 0
    ensures SP.RenderSystemPrompt(SystemParams(p)).Success? ==>
      var system := SP.RenderSystemPrompt(SystemParams(p)).value;
      && (r == Failure(BudgetExceeded) <==> Remaining(p, tokens, system) < MinWindowTokens)
      && (r == Failure(BudgetExceeded) ==> pages == 0)
      && (Remaining(p, tokens, system) >= MinWindowTokens ==> r.Success?)
      && (r.Success? ==>
            && r.value.system == system
            && GreedyWindow(chat, tokens, Remaining(p, tokens, system), window)
            && tokens(system) + tokens(p.latestUserMessage) + Tokens(tokens, window) <= p.tokenLimit
            && r.value.messages == PM.ProviderMessagesOf(Reverse(window), p.latestUserMessage)
            && pages >= 1)
  {
    window, pages := [], 0;
    var rendered := SP.RenderSystemPrompt(SystemParams(p));
    if rendered.Failure? {
      return Failure(PromptFailed(rendered.error)), window, pages;
    }
    var systemPrompt := rendered.value;
    var userMessageTokens := tokens(p.latestUserMessage);
    var systemPromptTokens := tokens(systemPrompt);
    var remainingTokens := p.tokenLimit - (userMessageTokens + systemPromptTokens);
    if remainingTokens < MinWindowTokens {
      return Failure(BudgetExceeded), window, pages;
    }
    var contextWindow, used;
    assert remainingTokens == Remaining(p, tokens, systemPrompt);
    contextWindow, used, pages := FetchWindow(chat, tokens, remainingTokens);
    window := contextWindow;
    contextWindow := Reverse(contextWindow);
    var providerMessages := PM.ToProviderMessages(contextWindow, p.latestUserMessage);
    r := Success(Context(systemPrompt, providerMessages));
  }

  /** The window is a gap-free run of the newest messages: strictly newest
      first, every message of the chat left out is older than every one
      taken, and reversed it is in chronological order. */
  lemma WindowIsNewestRun(chat: seq<StoredMessage>, tokens: string -> nat, budget: int, window: seq<StoredMessage>)
    requires DistinctIds(chat)
    requires GreedyWindow(chat, tokens, budget, window)
    ensures Descending(window)
    ensures forall m :: m in window ==> m in chat
    ensures forall m, w :: m in chat && m !in window && w in window ==> m.id < w.id
    ensures Ascending(Reverse(window)) && |Reverse(window)| == |window|
    ensures forall i :: 0 <= i < |window| ==> Reverse(window)[i] == window[|window| - 1 - i]
  {
    NewestPrefix(chat, window);
  }

  lemma NewestPrefix(chat: seq<StoredMessage>, window: seq<StoredMessage>)
    requires DistinctIds(chat)
    requires |window| <= |SortDesc(chat)| && window == SortDesc(chat)[..|window|]
    ensures Descending(window)
    ensures forall m :: m in window ==> m in chat
    ensures forall m, w :: m in chat && m !in window && w in window ==> m.id < w.id
    ensures Ascending(Reverse(window)) && |Reverse(window)| == |window|
    ensures forall i :: 0 <= i < |window| ==> Reverse(window)[i] == window[|window| - 1 - i]
  {
    SortDescending(chat);
    PrefixOfDescending(SortDesc(chat), |window|);
    ReverseOfDescending(window);
  }

  /** A prefix of a newest-first run is newest first, and everything of the
      run after it is older than everything in it. */
  lemma PrefixOfDescending(d: seq<StoredMessage>, k: nat)
    requires Descending(d) && k <= |d|
    ensures Descending(d[..k])
    ensures forall m :: m in d[..k] ==> m in d
    ensures forall m, w :: m in d && m !in d[..k] && w in d[..k] ==> m.id < w.id
  {
    var window := d[..k];
    forall m, w | m in d && m !in window && w in window
      ensures m.id < w.id
    {
      var i :| 0 <= i < |d| && d[i] == m;
      var j :| 0 <= j < k && window[j] == w;
      assert d[j] == w;
      assert i >= k;
    }
  }

  /** The system prompt getContext renders never shows the Character Memory
      block. */
  lemma NoCharacterMemory(p: ContextParams)
    ensures SP.Heading(SP.CharacterMemoryInfo)
            !in SP.Outline(SP.Render(SP.MarkdownTemplate(), SP.ViewOf(SystemParams(p))))
  {
    SP.SectionShownIff(SP.ViewOf(SystemParams(p)), SP.CharacterMemoryInfo);
  }

  // The paging loop as written: `break` leaves only the `for` over the page,
  // the `while` then asks again from the same cursor.

  datatype FetchState = FetchState(cursor: Option<int>, used: int, window: seq<StoredMessage>)

  const Start := FetchState(None, 0, [])

  /** The `for` over one page as written: accept while the message fits,
      stop at the first that does not. */
  function AcceptAsWritten(page: seq<StoredMessage>, tokens: string -> nat, budget: int, st: FetchState): FetchState
  {
    if page == [] then st
    else if st.used + tokens(page[0].text) > budget then st
    else AcceptAsWritten(page[1..], tokens, budget,
                         FetchState(Some(page[0].id), st.used + tokens(page[0].text), st.window + [page[0]]))
  }

  /** Whether the `while` runs its body again from this state: its guard
      holds and the page is not empty. */
  predicate KeepsFetching(chat: seq<StoredMessage>, tokens: string -> nat, budget: int, st: FetchState)
  {
    st.used < budget && Page(chat, PageSize, st.cursor) != []
  }

  function StepAsWritten(chat: seq<StoredMessage>, tokens: string -> nat, budget: int, st: FetchState): FetchState
  {
    AcceptAsWritten(Page(chat, PageSize, st.cursor), tokens, budget, st)
  }

  /** The state after at most n passes of the `while` as written. */
  function RunAsWritten(chat: seq<StoredMessage>, tokens: string -> nat, budget: int, st: FetchState, n: nat): FetchState
    decreases n
  {
    if n == 0 || !KeepsFetching(chat, tokens, budget, st) then st
    else RunAsWritten(chat, tokens, budget, StepAsWritten(chat, tokens, budget, st), n - 1)
  }

  /** Once the first message of the next page would overflow the budget
      while the loop's guard still holds, a pass changes nothing: the loop
      as written goes on for ever. */
  lemma {:induction false} StuckOnOverflow(chat: seq<StoredMessage>, tokens: string -> nat, budget: int, st: FetchState, n: nat)
    requires KeepsFetching(chat, tokens, budget, st)
    requires st.used + tokens(Page(chat, PageSize, st.cursor)[0].text) > budget
    ensures RunAsWritten(chat, tokens, budget, st, n) == st
    ensures KeepsFetching(chat, tokens, budget, RunAsWritten(chat, tokens, budget, st, n))
  {
    if n > 0 {
      assert StepAsWritten(chat, tokens, budget, st) == st;
      StuckOnOverflow(chat, tokens, budget, st, n - 1);
    }
  }

  /** The worked example: 930 tokens of budget and five messages of 200
      tokens. The loop as written accepts the four newest, then asks for
      the fifth again and again: after any number of passes it is still
      running. */
  lemma AsWrittenNeverFinishes(chat: seq<StoredMessage>, tokens: string -> nat, n: nat)
    requires |chat| == 5 && DistinctIds(chat)
    requires forall m :: m in chat ==> tokens(m.text) == 200
    ensures KeepsFetching(chat, tokens, 930, RunAsWritten(chat, tokens, 930, Start, n))
  {
    var d := SortDesc(chat);
    FivePages(chat, tokens);
    FirstPassTakesFour(d, tokens);
    var s4 := FetchState(Some(d[3].id), 800, d[..4]);
    assert StepAsWritten(chat, tokens, 930, Start) == s4;
    if n > 0 {
      StuckOnOverflow(chat, tokens, 930, s4, n - 1);
    }
  }

  /** The two pages the example asks for: all five messages newest first,
      then, from the fourth one's id, the oldest alone. */
  lemma FivePages(chat: seq<StoredMessage>, tokens: string -> nat)
    requires |chat| == 5 && DistinctIds(chat)
    requires forall m :: m in chat ==> tokens(m.text) == 200
    ensures |SortDesc(chat)| == 5
    ensures Page(chat, PageSize, None) == SortDesc(chat)
    ensures Page(chat, PageSize, Some(SortDesc(chat)[3].id)) == SortDesc(chat)[4..5]
    ensures forall i :: 0 <= i < 5 ==> tokens(SortDesc(chat)[i].text) == 200
  {
    var d := SortDesc(chat);
    SortDescending(chat);
    PageFromCursor(chat, PageSize, 0);
    PageFromCursor(chat, PageSize, 4);
    assert d[0..5] == d;
    forall i | 0 <= i < 5 ensures tokens(d[i].text) == 200 {
      assert d[i] in chat;
    }
  }

  /** On a page of five 200-token messages, the `for` as written takes the
      first four and stops at the fifth. */
  lemma FirstPassTakesFour(page: seq<StoredMessage>, tokens: string -> nat)
    requires |page| == 5
    requires forall i :: 0 <= i < 5 ==> tokens(page[i].text) == 200
    ensures AcceptAsWritten(page, tokens, 930, Start) == FetchState(Some(page[3].id), 800, page[..4])
  {
    var s4 := FetchState(Some(page[3].id), 800, page[..4]);
    var s3 := FetchState(Some(page[2].id), 600, page[..3]);
    var s2 := FetchState(Some(page[1].id), 400, page[..2]);
    var s1 := FetchState(Some(page[0].id), 200, page[..1]);
    assert AcceptAsWritten(page[4..], tokens, 930, s4) == s4;
    assert AcceptAsWritten(page[3..], tokens, 930, s3) == s4 by {
      assert page[3..][1..] == page[4..];
      assert page[..3] + [page[3]] == page[..4];
    }
    assert AcceptAsWritten(page[2..], tokens, 930, s2) == s4 by {
      assert page[2..][1..] == page[3..];
      assert page[..2] + [page[2]] == page[..3];
    }
    assert AcceptAsWritten(page[1..], tokens, 930, s1) == s4 by {
      assert page[1..][1..] == page[2..];
      assert page[..1] + [page[1]] == page[..2];
    }
    assert AcceptAsWritten(page, tokens, 930, Start) == s4 by {
      assert Start.window + [page[0]] == page[..1];
    }
  }

  /** The same example with the loop stopping at the overflow: exactly the
      four newest messages are taken. */
  method FetchFourOfFive(chat: seq<StoredMessage>, tokens: string -> nat) returns (taken: nat)
    requires |chat| == 5 && DistinctIds(chat)
    requires forall m :: m in chat ==> tokens(m.text) == 200
    ensures taken == 4
  {
    var window, used, pages := FetchWindow(chat, tokens, 930);
    var d := SortDesc(chat);
    SortDescending(chat);
    forall i | 0 <= i < 5 ensures tokens(d[i].text) == 200 {
      assert d[i] in chat;
    }
    TokensOfNewest(chat, tokens, |window|);
    taken := |window|;
  }

  lemma {:induction false} TokensOfNewest(chat: seq<StoredMessage>, tokens: string -> nat, k: nat)
    requires DistinctIds(chat) && k <= |chat|
    requires forall m :: m in chat ==> tokens(m.text) == 200
    ensures |SortDesc(chat)| == |chat|
    ensures Tokens(tokens, SortDesc(chat)[..k]) == 200 * k
  {
    SortDescending(chat);
    var d := SortDesc(chat);
    if k > 0 {
      TokensOfNewest(chat, tokens, k - 1);
      assert d[..k] == d[..k - 1] + [d[k - 1]];
      TokensSnoc(tokens, d[..k - 1], d[k - 1]);
      assert d[k - 1] in chat;
    }
  }
}
