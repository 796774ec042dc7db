/** The role-alternation normaliser (toProviderMessages): turns the
    chronological context window and the latest user message into a list of
    provider messages that starts with the user and alternates roles. */
module ProviderMessages {
  import opened Shared

  /** The fixed user turn put in front of a history that opens with the
      character. */
  const Opener := "Now begin the conversation based on the given instructions above."

  /** What separates the contents of merged messages. */
  const LineBreak := "\n"

  /** A sender of exactly "user" is the user; every other sender is the
      assistant. */
  function RoleOf(sender: string): (r: Role)
    ensures r == User <==> sender == "user"
  {
    if sender == "user" then User else Assistant
  }

  /** The `map` step: one provider message per stored message, same text. */
  function Mapped(history: seq<StoredMessage>): (r: seq<ProviderMessage>)
    ensures |r| == |history|
    ensures forall i :: 0 <= i < |r| ==>
      (r[i].role == User <==> history[i].sender == "user") && r[i].content == history[i].text
  {
    seq(|history|, i requires 0 <= i < |history| => ProviderMessage(RoleOf(history[i].sender), history[i].text))
  }

  /** The `unshift` step: the opener is prepended exactly when the list is
      non-empty and starts with the assistant. */
  function WithOpener(ms: seq<ProviderMessage>): (r: seq<ProviderMessage>)
    ensures r == [] <==> ms == []
    ensures if ms != [] && ms[0].role == Assistant
            then r == [ProviderMessage(User, Opener)] + ms
            else r == ms
  {
    if |ms| > 0 && ms[0].role == Assistant then [ProviderMessage(User, Opener)] + ms else ms
  }

  function Last(s: seq<ProviderMessage>): ProviderMessage
    requires s != []
  {
    s[|s| - 1]
  }

  /** No two neighbours share a role. */
  predicate Alternating(s: seq<ProviderMessage>)
  {
    forall i :: 0 <= i < |s| - 1 ==> s[i].role != s[i + 1].role
  }

  function Contents(s: seq<ProviderMessage>): (r: seq<string>)
    ensures |r| == |s| && forall i :: 0 <= i < |s| ==> r[i] == s[i].content
  {
    seq(|s|, i requires 0 <= i < |s| => s[i].content)
  }

  /** The strings joined with a newline between neighbours. */
  function JoinLines(xs: seq<string>): string
  {
    if xs == [] then []
    else if |xs| == 1 then xs[0]
    else JoinLines(xs[..|xs| - 1]) + LineBreak + xs[|xs| - 1]
  }

  /** One step of the merge: append `m`, or, when the last message has the
      same role, append its content to that message after a newline. */
  function AppendOrMerge(acc: seq<ProviderMessage>, m: ProviderMessage): seq<ProviderMessage>
  {
    if acc != [] && acc[|acc| - 1].role == m.role
    then acc[..|acc| - 1] + [Joined(acc[|acc| - 1], m)]
    else acc + [m]
  }

  /** Runs of the same role collapsed into their first position, read left
      to right. */
  function Merged(s: seq<ProviderMessage>): seq<ProviderMessage>
  {
    if s == [] then [] else AppendOrMerge(Merged(s[..|s| - 1]), s[|s| - 1])
  }

  /** The list toProviderMessages returns, with the merge loop reading as
      intended (see MergeAsWritten for the loop as it stands). */
  function ProviderMessagesOf(history: seq<StoredMessage>, latestUserMessage: string): seq<ProviderMessage>
  {
    Merged(WithOpener(Mapped(history)) + [ProviderMessage(User, latestUserMessage)])
  }

  /** The merged content of two messages. */
  function Joined(a: ProviderMessage, b: ProviderMessage): ProviderMessage
  {
    ProviderMessage(a.role, a.content + LineBreak + b.content)
  }

  /** The merge loop with its guard read as `fast < ret.length`, written as
      the forward pass it amounts to: each message is appended, or joined
      into the last kept message when the roles agree. */
  method MergeRuns(s: seq<ProviderMessage>) returns (out: seq<ProviderMessage>)
    ensures out == Merged(s)
  {
    out := [];
    var i := 0;
    while i < |s|
      invariant 0 <= i <= |s|
      invariant out == Merged(s[..i])
    {
      assert s[..i + 1][..i] == s[..i];
      if out != [] && out[|out| - 1].role == s[i].role {
        out := out[..|out| - 1] + [Joined(out[|out| - 1], s[i])];
      } else {
        out := out + [s[i]];
      }
      i := i + 1;
    }
    assert s[..i] == s;
  }

  /** toProviderMessages: map, prepend the opener, append the latest user
      message, merge runs. */
  method ToProviderMessages(messages: seq<StoredMessage>, latestUserMessage: string)
    returns (ret: seq<ProviderMessage>)
    ensures ret == ProviderMessagesOf(messages, latestUserMessage)
  {
    ret := Mapped(messages);
    if |ret| > 0 && ret[0].role == Assistant {
      ret := [ProviderMessage(User, Opener)] + ret;
    }
    ret := ret + [ProviderMessage(User, latestUserMessage)];
    ret := MergeRuns(ret);
  }

  /** Reading past the end: the TypeError raised by `ret[fast].role` when
      `fast == ret.length`. */
  datatype MergeError = ReadPastEnd

  /** The merge loop exactly as written: its guard `fast <= ret.length` lets
      the body read one slot past the end, so it throws on every non-empty
      list (and toProviderMessages never passes an empty one). In the loop,
      `cells[k] == None` is a slot whose message was merged away. */
  method MergeAsWritten(ret: seq<ProviderMessage>) returns (r: Result<seq<ProviderMessage>, MergeError>)
    ensures |ret| > 0 ==> r == Failure(ReadPastEnd)
    ensures |ret| == 0 ==> r == Success([])
  {
    var cells: seq<Option<ProviderMessage>> := seq(|ret|, k requires 0 <= k < |ret| => Some(ret[k]));
    var slow, fast := 0, 1;
    while slow < fast && fast <= |cells|
      invariant 0 <= slow < fast <= |cells| + 1
      invariant |cells| == |ret|
      invariant |cells| > 0 ==> fast <= |cells|
      invariant fast <= |cells| ==> cells[slow].Some?
      invariant forall k :: fast <= k < |cells| ==> cells[k] == Some(ret[k])
      decreases |cells| + 1 - fast
    {
      if fast == |cells| {
        return Failure(ReadPastEnd);
      }
      if cells[slow].value.role == cells[fast].value.role {
        cells := cells[slow := Some(Joined(cells[slow].value, cells[fast].value))][fast := None];
        fast := fast + 1;
      } else {
        slow := fast;
        fast := fast + 1;
      }
    }
    r := Success(Present(cells));
  }

  /** toProviderMessages with the merge loop as written: since the latest
      user message is always pushed, the list is never empty and every call
      ends in the read past the end. */
  method ToProviderMessagesAsWritten(messages: seq<StoredMessage>, latestUserMessage: string)
    returns (r: Result<seq<ProviderMessage>, MergeError>)
    ensures r == Failure(ReadPastEnd)
  {
    var ret := Mapped(messages);
    if |ret| > 0 && ret[0].role == Assistant {
      ret := [ProviderMessage(User, Opener)] + ret;
    }
    ret := ret + [ProviderMessage(User, latestUserMessage)];
    r := MergeAsWritten(ret);
  }

  /** The `filter` that drops merged-away slots. */
  function Present(cells: seq<Option<ProviderMessage>>): seq<ProviderMessage>
  {
    if cells == [] then []
    else (if cells[0].Some? then [cells[0].value] else []) + Present(cells[1..])
  }

  lemma {:induction false} JoinLinesSnoc(xs: seq<string>, y: string)
    ensures JoinLines(xs + [y]) == if xs == [] then y else JoinLines(xs) + LineBreak + y
  {
    assert (xs + [y])[..|xs|] == xs;
  }

  /** One merge step keeps the joined text, keeps the first role, ends with
      the new message's role and content, and keeps the list alternating. */
  lemma AppendOrMergeStep(acc: seq<ProviderMessage>, m: ProviderMessage)
    requires Alternating(acc)
    ensures AppendOrMerge(acc, m) != []
    ensures Alternating(AppendOrMerge(acc, m))
    ensures Last(AppendOrMerge(acc, m)).role == m.role
    ensures acc != [] ==> AppendOrMerge(acc, m)[0].role == acc[0].role
    ensures |AppendOrMerge(acc, m)| <= |acc| + 1
    ensures JoinLines(Contents(AppendOrMerge(acc, m))) == JoinLines(Contents(acc) + [m.content])
  {
    if acc != [] && acc[|acc| - 1].role == m.role {
      MergeStep(acc, m);
    }
    AppendOrMergeText(acc, m);
  }

  /** One merge step keeps the joined text. */
  lemma AppendOrMergeText(acc: seq<ProviderMessage>, m: ProviderMessage)
    ensures JoinLines(Contents(AppendOrMerge(acc, m))) == JoinLines(Contents(acc) + [m.content])
  {
    if acc != [] && acc[|acc| - 1].role == m.role {
      var n := |acc|;
      var init, last := acc[..n - 1], acc[n - 1];
      assert AppendOrMerge(acc, m) == init + [ProviderMessage(m.role, last.content + LineBreak + m.content)];
      assert Contents(AppendOrMerge(acc, m)) == Contents(init) + [last.content + LineBreak + m.content];
      assert Contents(acc) + [m.content] == Contents(init) + [last.content] + [m.content];
      JoinLinesMergeLast(Contents(init), last.content, m.content);
    } else {
      assert Contents(acc + [m]) == Contents(acc) + [m.content];
    }
  }

  lemma MergeStep(acc: seq<ProviderMessage>, m: ProviderMessage)
    requires Alternating(acc) && acc != [] && acc[|acc| - 1].role == m.role
    ensures AppendOrMerge(acc, m) == acc[..|acc| - 1] + [ProviderMessage(m.role, acc[|acc| - 1].content + LineBreak + m.content)]
    ensures Alternating(AppendOrMerge(acc, m))
    ensures AppendOrMerge(acc, m)[0].role == acc[0].role
  {
    var n := |acc|;
    var init, last := acc[..n - 1], acc[n - 1];
    var merged := ProviderMessage(m.role, last.content + LineBreak + m.content);
    var r := init + [merged];
    assert AppendOrMerge(acc, m) == r;
    forall i | 0 <= i < |r| - 1
      ensures r[i].role != r[i + 1].role
    {
      assert r[i] == acc[i];
      if i + 1 < n - 1 {
        assert r[i + 1] == acc[i + 1];
      }
    }
  }

  /** Joining the last two strings first does not change the joined text. */
  lemma JoinLinesMergeLast(xs: seq<string>, x: string, y: string)
    ensures JoinLines(xs + [x + LineBreak + y]) == JoinLines(xs + [x] + [y])
  {
    JoinLinesSnoc(xs, x + LineBreak + y);
    JoinLinesSnoc(xs, x);
    JoinLinesSnoc(xs + [x], y);
  }

  /** The merged list alternates, keeps the first and last roles, is no
      longer than its input, and joined with newlines reads exactly as the
      input does. */
  lemma MergedShape(s: seq<ProviderMessage>)
    ensures |Merged(s)| <= |s|
    ensures Alternating(Merged(s))
    ensures JoinLines(Contents(Merged(s))) == JoinLines(Contents(s))
    ensures s != [] ==> Merged(s) != [] && Merged(s)[0].role == s[0].role
    ensures s != [] ==> Last(Merged(s)).role == Last(s).role
  {
    MergedRoles(s);
    MergedText(s);
  }

  lemma {:induction false} MergedRoles(s: seq<ProviderMessage>)
    ensures |Merged(s)| <= |s|
    ensures Alternating(Merged(s))
    ensures s != [] ==> Merged(s) != [] && Merged(s)[0].role == s[0].role
    ensures s != [] ==> Last(Merged(s)).role == Last(s).role
  {
    if s != [] {
      var init := s[..|s| - 1];
      MergedRoles(init);
      AppendOrMergeStep(Merged(init), s[|s| - 1]);
      if init != [] {
        assert init[0] == s[0];
      }
    }
  }

  lemma {:induction false} MergedText(s: seq<ProviderMessage>)
    ensures JoinLines(Contents(Merged(s))) == JoinLines(Contents(s))
  {
    if s != [] {
      var init := s[..|s| - 1];
      var m := s[|s| - 1];
      MergedText(init);
      AppendOrMergeText(Merged(init), m);
      assert Merged(init) == [] <==> init == [];
      assert Contents(s) == Contents(init) + [m.content];
      JoinLinesSnocSame(Contents(Merged(init)), Contents(init), m.content);
    }
  }

  /** Lists that join to the same text, and are empty together, still do
      after the same string is appended to both. */
  lemma JoinLinesSnocSame(xs: seq<string>, ys: seq<string>, c: string)
    requires JoinLines(xs) == JoinLines(ys) && (xs == [] <==> ys == [])
    ensures JoinLines(xs + [c]) == JoinLines(ys + [c])
  {
    JoinLinesSnoc(xs, c);
    JoinLinesSnoc(ys, c);
  }

  /** The last merged message's content ends with the last input content. */
  lemma {:induction false} MergedEndsWithLast(s: seq<ProviderMessage>)
    requires s != []
    ensures Merged(s) != [] && EndsWith(Last(Merged(s)).content, Last(s).content)
  {
    MergedShape(s);
    var init := s[..|s| - 1];
    var m := s[|s| - 1];
    var acc := Merged(init);
    if acc != [] && acc[|acc| - 1].role == m.role {
      var c := acc[|acc| - 1].content + "\n" + m.content;
      assert c[|c| - |m.content|..] == m.content;
    }
  }

  /** Merging leaves an already alternating list unchanged. */
  lemma {:induction false} MergedOfAlternating(s: seq<ProviderMessage>)
    requires Alternating(s)
    ensures Merged(s) == s
  {
    if s != [] {
      var init := s[..|s| - 1];
      assert Alternating(init);
      MergedOfAlternating(init);
      if |init| > 0 {
        assert init[|init| - 1] == s[|s| - 2];
      }
      assert init + [s[|s| - 1]] == s;
    }
  }

  /** Merging twice is merging once. */
  lemma MergedIdempotent(s: seq<ProviderMessage>)
    ensures Merged(Merged(s)) == Merged(s)
  {
    MergedShape(s);
    MergedOfAlternating(Merged(s));
  }

  /** The shape providers require: non-empty, opens and closes with the
      user, alternates; with no history it is just the latest message; the
      last message ends with the latest user message; and no text is lost
      or reordered by the merge. */
  lemma ProviderMessagesShape(history: seq<StoredMessage>, latestUserMessage: string)
    ensures ProviderMessagesOf(history, latestUserMessage) != []
    ensures ProviderMessagesOf(history, latestUserMessage)[0].role == User
    ensures Last(ProviderMessagesOf(history, latestUserMessage)).role == User
    ensures Alternating(ProviderMessagesOf(history, latestUserMessage))
    ensures history == [] ==> ProviderMessagesOf(history, latestUserMessage) == [ProviderMessage(User, latestUserMessage)]
    ensures EndsWith(Last(ProviderMessagesOf(history, latestUserMessage)).content, latestUserMessage)
    ensures JoinLines(Contents(ProviderMessagesOf(history, latestUserMessage)))
         == JoinLines(Contents(WithOpener(Mapped(history))) + [latestUserMessage])
  {
    var start := WithOpener(Mapped(history));
    var pre := start + [ProviderMessage(User, latestUserMessage)];
    MergedShape(pre);
    MergedEndsWithLast(pre);
    assert Contents(pre) == Contents(start) + [latestUserMessage];
    if start != [] {
      assert pre[0] == start[0];
      assert start[0].role == User by {
        if Mapped(history)[0].role == Assistant {
        } else {
          assert start == Mapped(history);
        }
      }
    }
    if history == [] {
      assert pre == [ProviderMessage(User, latestUserMessage)];
      assert Merged(pre) == AppendOrMerge(Merged(pre[..0]), pre[0]);
    }
  }

  /** The worked example: [assistant "Hi", user "Hey", user "Sup"] with
      latest "Yo" becomes [user opener, assistant "Hi", user "Hey\nSup\nYo"]. */
  lemma TrailingUsersMerge()
    ensures ProviderMessagesOf(
              [StoredMessage(1, "character", "Hi"), StoredMessage(2, "user", "Hey"), StoredMessage(3, "user", "Sup")],
              "Yo")
         == [ProviderMessage(User, Opener), ProviderMessage(Assistant, "Hi"), ProviderMessage(User, "Hey\nSup\nYo")]
  {
    var h := [StoredMessage(1, "character", "Hi"), StoredMessage(2, "user", "Hey"), StoredMessage(3, "user", "Sup")];
    var o, hi, hey, sup, yo := ProviderMessage(User, Opener), ProviderMessage(Assistant, "Hi"),
                               ProviderMessage(User, "Hey"), ProviderMessage(User, "Sup"), ProviderMessage(User, "Yo");
    assert Mapped(h) == [hi, hey, sup];
    assert WithOpener(Mapped(h)) + [yo] == [o, hi, hey, sup, yo];
    UserRunMerged(o, hi, hey, sup, yo);
    HeySupYo();
  }

  /** A user turn, an assistant turn, then three user turns merge into
      three messages, the last joining the three user turns. */
  lemma UserRunMerged(o: ProviderMessage, hi: ProviderMessage, hey: ProviderMessage, sup: ProviderMessage, yo: ProviderMessage)
    requires o.role == User && hi.role == Assistant && hey.role == User && sup.role == User && yo.role == User
    ensures Merged([o, hi, hey, sup, yo]) == [o, hi, Joined(Joined(hey, sup), yo)]
  {
    var s2 := [o, hi];
    var s3 := s2 + [hey];
    var s4 := s3 + [sup];
    var s5 := s4 + [yo];
    assert Merged(s2) == s2 by {
      MergedSnoc([], o);
      MergedSnoc([o], hi);
      assert [o] + [hi] == s2;
    }
    assert Merged(s3) == s3 by {
      MergedSnoc(s2, hey);
    }
    var j := Joined(hey, sup);
    assert Merged(s4) == s2 + [j] by {
      MergedSnoc(s3, sup);
      assert s3[..2] == s2;
    }
    assert Merged(s5) == s2 + [Joined(j, yo)] by {
      MergedSnoc(s4, yo);
      assert (s2 + [j])[..2] == s2;
    }
    assert s5 == [o, hi, hey, sup, yo];
  }

  lemma MergedSnoc(s: seq<ProviderMessage>, m: ProviderMessage)
    ensures Merged(s + [m]) == AppendOrMerge(Merged(s), m)
  {
    assert (s + [m])[..|s|] == s;
  }

  lemma HeySupYo()
    ensures Joined(Joined(ProviderMessage(User, "Hey"), ProviderMessage(User, "Sup")), ProviderMessage(User, "Yo"))
         == ProviderMessage(User, "Hey\nSup\nYo")
  {
    assert "Hey" + LineBreak + "Sup" + LineBreak + "Yo" == "Hey\nSup\nYo";
  }
}
