/**
 * The transcript shown in the chat view, as a list of entries, and how the
 * stored turns of a user's history are replayed into it.
 */
module Transcript {
  import opened Js

  /** A user message, or a bot message that may still be the loading placeholder. */
  datatype Entry = User(text: string) | Bot(text: string, loading: bool)
  {
    predicate Pending()
    {
      Bot? && loading
    }
  }

  /** Text of the loading placeholder (its spinner is presentation only). */
  const LoadingText := "正在生成..."

  predicate NonePending(es: seq<Entry>)
  {
    forall i :: 0 <= i < |es| ==> !es[i].Pending()
  }

  /** One stored chat document as read back; a missing field is `None`. */
  datatype StoredTurn = StoredTurn(question: Option<string>, answer: Option<string>, error: Option<string>)

  /** The bot text a stored turn replays to: `answer || error || ''`. */
  function ShownText(t: StoredTurn): string
  {
    Or(t.answer, Or(t.error, ""))
  }

  /**
   * A user entry if the question is not empty, then a bot entry if the answer
   * or the error is not empty: at most two entries, none of them loading or
   * empty, and none at all exactly when the turn has nothing to show.
   */
  function TurnEntries(t: StoredTurn): (es: seq<Entry>)
    ensures |es| <= 2
    ensures forall i :: 0 <= i < |es| ==> !es[i].Pending() && es[i].text != ""
    ensures es == [] <==> Or(t.question, "") == "" && ShownText(t) == ""
  {
    (if Or(t.question, "") != "" then [User(t.question.value)] else [])
      + (if ShownText(t) != "" then [Bot(ShownText(t), false)] else [])
  }

  /** The stored turns replayed in order; each turn adds at most two entries. */
  function Replay(turns: seq<StoredTurn>): (es: seq<Entry>)
    ensures |es| <= 2 * |turns|
  {
    if turns == [] then [] else TurnEntries(turns[0]) + Replay(turns[1..])
  }

  /** Replaying two runs of turns one after the other is replaying them together. */
  lemma {:induction false} ReplayAppend(a: seq<StoredTurn>, b: seq<StoredTurn>)
    ensures Replay(a + b) == Replay(a) + Replay(b)
  {
    if a == [] {
      assert a + b == b;
    } else {
      assert (a + b)[1..] == a[1..] + b;
      ReplayAppend(a[1..], b);
    }
  }

  /** The texts of the user entries, in order. */
  function UserTexts(es: seq<Entry>): seq<string>
  {
    if es == [] then [] else (if es[0].User? then [es[0].text] else []) + UserTexts(es[1..])
  }

  /** The texts of the bot entries, in order. */
  function BotTexts(es: seq<Entry>): seq<string>
  {
    if es == [] then [] else (if es[0].Bot? then [es[0].text] else []) + BotTexts(es[1..])
  }

  lemma {:induction false} UserTextsAppend(a: seq<Entry>, b: seq<Entry>)
    ensures UserTexts(a + b) == UserTexts(a) + UserTexts(b)
  {
    if a == [] {
      assert a + b == b;
    } else {
      assert (a + b)[0] == a[0] && (a + b)[1..] == a[1..] + b;
      UserTextsAppend(a[1..], b);
    }
  }

  lemma {:induction false} BotTextsAppend(a: seq<Entry>, b: seq<Entry>)
    ensures BotTexts(a + b) == BotTexts(a) + BotTexts(b)
  {
    if a == [] {
      assert a + b == b;
    } else {
      assert (a + b)[0] == a[0] && (a + b)[1..] == a[1..] + b;
      BotTextsAppend(a[1..], b);
    }
  }

  /** The non-empty questions of the stored turns, in order. */
  function AskedQuestions(turns: seq<StoredTurn>): seq<string>
  {
    if turns == [] then []
    else (if Or(turns[0].question, "") != "" then [turns[0].question.value] else []) + AskedQuestions(turns[1..])
  }

  /** The non-empty shown texts of the stored turns, in order. */
  function AnsweredTexts(turns: seq<StoredTurn>): seq<string>
  {
    if turns == [] then []
    else (if ShownText(turns[0]) != "" then [ShownText(turns[0])] else []) + AnsweredTexts(turns[1..])
  }

  /** Replaying one more stored turn appends that turn's entries. */
  lemma ReplaySnoc(turns: seq<StoredTurn>, i: nat)
    requires i < |turns|
    ensures Replay(turns[..i + 1]) == Replay(turns[..i]) + TurnEntries(turns[i])
  {
    ReplayAppend(turns[..i], [turns[i]]);
    assert turns[..i + 1] == turns[..i] + [turns[i]];
    assert Replay([turns[i]]) == TurnEntries(turns[i]) + Replay([]);
  }

  /** The user text of one stored turn's entries: its question, if not empty. */
  lemma TurnUserTexts(t: StoredTurn)
    ensures UserTexts(TurnEntries(t)) == (if Or(t.question, "") != "" then [t.question.value] else [])
  {
    var u: seq<Entry> := if Or(t.question, "") != "" then [User(t.question.value)] else [];
    var b: seq<Entry> := if ShownText(t) != "" then [Bot(ShownText(t), false)] else [];
    assert TurnEntries(t) == u + b;
    UserTextsAppend(u, b);
  }

  /** The bot text of one stored turn's entries: its answer-or-error, if not empty. */
  lemma TurnBotTexts(t: StoredTurn)
    ensures BotTexts(TurnEntries(t)) == (if ShownText(t) != "" then [ShownText(t)] else [])
  {
    var u: seq<Entry> := if Or(t.question, "") != "" then [User(t.question.value)] else [];
    var b: seq<Entry> := if ShownText(t) != "" then [Bot(ShownText(t), false)] else [];
    assert TurnEntries(t) == u + b;
    BotTextsAppend(u, b);
  }

  /** Replay shows every non-empty question as a user entry, in stored order, and no other user entry. */
  lemma {:induction false} ReplayUserTexts(turns: seq<StoredTurn>)
    ensures UserTexts(Replay(turns)) == AskedQuestions(turns)
  {
    if turns != [] {
      ReplayUserTexts(turns[1..]);
      TurnUserTexts(turns[0]);
      UserTextsAppend(TurnEntries(turns[0]), Replay(turns[1..]));
    }
  }

  /** Replay shows every non-empty answer-or-error as a bot entry, in stored order, and no other bot entry. */
  lemma {:induction false} ReplayBotTexts(turns: seq<StoredTurn>)
    ensures BotTexts(Replay(turns)) == AnsweredTexts(turns)
  {
    if turns != [] {
      ReplayBotTexts(turns[1..]);
      TurnBotTexts(turns[0]);
      BotTextsAppend(TurnEntries(turns[0]), Replay(turns[1..]));
    }
  }

  /** No replayed entry is a loading placeholder or empty. */
  lemma {:induction false} ReplaySettled(turns: seq<StoredTurn>)
    ensures NonePending(Replay(turns))
    ensures forall i :: 0 <= i < |Replay(turns)| ==> Replay(turns)[i].text != ""
  {
    if turns != [] {
      var t := turns[0];
      var rest: seq<Entry> := Replay(turns[1..]);
      ReplaySettled(turns[1..]);
      var es: seq<Entry> := TurnEntries(t);
      var all: seq<Entry> := es + rest;
      assert Replay(turns) == all;
      forall i | 0 <= i < |all|
        ensures !all[i].Pending() && all[i].text != ""
      {
        if i >= |es| {
          assert all[i] == rest[i - |es|];
        }
      }
    }
  }
}
