/** The history panel of the chat screen (app.py:113-123). */
module History {
  import opened Turns

  /** A rendered history entry: the panel shows only user and assistant turns. */
  datatype Entry = UserEntry(text: string) | AssistantEntry(text: string)

  /** What the loop body shows for one message: only an exact HumanMessage or AIMessage
      (app.py:116-123); a system turn and a prompt template are skipped. */
  function Shows(m: Message): (r: seq<Entry>)
    ensures |r| <= 1
    ensures |r| == 1 <==> m.Human? || m.Ai?
    ensures m.Human? ==> r == [UserEntry(m.content)]
    ensures m.Ai? ==> r == [AssistantEntry(m.content)]
  {
    match m
    case Human(t) => [UserEntry(t)]
    case Ai(t) => [AssistantEntry(t)]
    case System(_) => []
    case HumanTemplate(_) => []
  }

  /** The panel's contents for a message list, newest first. */
  function Shown(messages: seq<Message>): (r: seq<Entry>)
    ensures |r| <= |messages|
  {
    if messages == [] then [] else Shown(messages[1..]) + Shows(messages[0])
  }

  /** Reference definitions: the slice `messages[::-1]`, and a front-to-back filter. */
  function NewestFirst(messages: seq<Message>): (r: seq<Message>)
  {
    seq(|messages|, k requires 0 <= k < |messages| => messages[|messages| - 1 - k])
  }

  function Filtered(messages: seq<Message>): (r: seq<Entry>)
  {
    if messages == [] then [] else Shows(messages[0]) + Filtered(messages[1..])
  }

  /** Dropping the oldest turn drops the last element of the reversed list. */
  lemma NewestFirstTail(messages: seq<Message>)
    requires messages != []
    ensures NewestFirst(messages) == NewestFirst(messages[1..]) + [messages[0]]
  {
  }

  lemma {:induction false} FilteredConcat(a: seq<Message>, b: seq<Message>)
    ensures Filtered(a + b) == Filtered(a) + Filtered(b)
  {
    if a == [] {
      assert a + b == b;
    } else {
      assert (a + b)[1..] == a[1..] + b;
      FilteredConcat(a[1..], b);
    }
  }

  /** Appending to the list puts the new turn's entry first: display order is the reverse of append order. */
  lemma {:induction false} ShownConcat(a: seq<Message>, b: seq<Message>)
    ensures Shown(a + b) == Shown(b) + Shown(a)
  {
    if a == [] {
      assert a + b == b;
    } else {
      assert (a + b)[1..] == a[1..] + b;
      ShownConcat(a[1..], b);
    }
  }

  /** The newest turn, if displayable, is the first entry of the panel. */
  lemma ShownAppend(messages: seq<Message>, m: Message)
    ensures Shown(messages + [m]) == Shows(m) + Shown(messages)
  {
    ShownConcat(messages, [m]);
    assert [m][1..] == [];
  }

  /** The panel is `messages[::-1]` with the non-displayable turns filtered out. */
  lemma {:induction false} ShownIsFilteredReverse(messages: seq<Message>)
    ensures Shown(messages) == Filtered(NewestFirst(messages))
  {
    if messages != [] {
      ShownIsFilteredReverse(messages[1..]);
      NewestFirstTail(messages);
      FilteredConcat(NewestFirst(messages[1..]), [messages[0]]);
      assert [messages[0]][1..] == [];
    }
  }

  /** A user entry is shown exactly when the list holds a HumanMessage with that text,
      and an assistant entry exactly when it holds an AIMessage with that text. */
  lemma {:induction false} ShownMembership(messages: seq<Message>, t: string)
    ensures UserEntry(t) in Shown(messages) <==> Human(t) in messages
    ensures AssistantEntry(t) in Shown(messages) <==> Ai(t) in messages
  {
    if messages != [] {
      ShownMembership(messages[1..], t);
      assert messages == [messages[0]] + messages[1..];
    }
  }

  /** The system turn and the intake template never reach the panel. */
  lemma HiddenTurnsNotShown(messages: seq<Message>, hidden: seq<Message>)
    requires forall i :: 0 <= i < |hidden| ==> hidden[i].System? || hidden[i].HumanTemplate?
    ensures Shown(messages + hidden) == Shown(messages)
  {
    ShownConcat(messages, hidden);
    HiddenShowNothing(hidden);
  }

  lemma {:induction false} HiddenShowNothing(hidden: seq<Message>)
    requires forall i :: 0 <= i < |hidden| ==> hidden[i].System? || hidden[i].HumanTemplate?
    ensures Shown(hidden) == []
  {
    if hidden != [] {
      assert hidden[0].System? || hidden[0].HumanTemplate?;
      HiddenShowNothing(hidden[1..]);
    }
  }

  /** The rendering loop over `messages[::-1]` (app.py:114-123); it reads the list and changes nothing. */
  method RenderHistory(messages: seq<Message>) returns (shown: seq<Entry>)
    ensures shown == Shown(messages)
  {
    shown := [];
    var i := |messages|;
    while i > 0
      invariant 0 <= i <= |messages|
      invariant shown == Shown(messages[i..])
    {
      i := i - 1;
      assert messages[i..][1..] == messages[i + 1..];
      shown := shown + Shows(messages[i]);
    }
    assert messages[0..] == messages;
  }
}
