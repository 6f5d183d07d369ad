/**
 * The chat view's state and handlers: the transcript, the question input and
 * send button, the typewriter, the best-effort persistence of each turn, the
 * chat form's submit handler, the history loader and the session observer.
 * Calls to the answer endpoint, the document store and the identity provider
 * are not made here: their outcomes are parameters, and what the page sends
 * them is recorded in logs.
 */
module ChatPage {
  import opened Js
  import opened ChatResponse
  import opened Transcript

  /** What the request to the answer endpoint ends with: a decoded body, or a network or decoding failure. */
  datatype FetchOutcome = Response(data: Json) | FetchFailure

  /** What the history query ends with: the stored turns, oldest first, or a failure. */
  datatype QueryOutcome = Docs(turns: seq<StoredTurn>) | QueryFailure

  /** The signed-in user as the provider reports it. */
  datatype Session = Session(uid: string, email: Option<string>)

  /** One chat document written under a user's scope. */
  datatype SavedTurn = SavedTurn(uid: string, question: string, answer: string, error: string)

  /** One request to the answer endpoint, with the state of the controls and the transcript's last entry while it was in flight. */
  datatype Request = Request(question: string, inputDisabled: bool, sendDisabled: bool, sendLabel: string, lastEntry: Entry)

  const SendLabel := "发送"
  const SendingLabel := "发送中..."
  const RequestError := "请求错误"

  /** The fields a submission persists: the reply's, or an empty answer and the request-error message. */
  function Settled(outcome: FetchOutcome): (r: Reply)
    ensures (outcome.FetchFailure? || outcome.data == Null) ==> r == Reply("", RequestError)
    ensures outcome.Response? && outcome.data != Null ==> Interpret(outcome.data) == Some(r)
  {
    match outcome
    case Response(data) => if Interpret(data).Some? then Interpret(data).value else Reply("", RequestError)
    case FetchFailure => Reply("", RequestError)
  }

  /** The final text of a submission's bot entry: the reply's display text, or the request-error message. */
  function Answered(outcome: FetchOutcome): (text: string)
    ensures text != ""
    ensures (outcome.FetchFailure? || outcome.data == Null) ==> text == RequestError
  {
    match outcome
    case Response(data) => if Interpret(data).Some? then DisplayText(Interpret(data).value) else RequestError
    case FetchFailure => RequestError
  }

  /**
   * The text a submission shows is the display text of what it persists, so
   * the shown text never disagrees with the stored turn; a failure shows and
   * stores the request-error message.
   */
  lemma AnsweredIsDisplayOfSettled(outcome: FetchOutcome)
    ensures Answered(outcome) == DisplayText(Settled(outcome))
    ensures (outcome.FetchFailure? || outcome.data == Null) ==>
              Answered(outcome) == RequestError && Settled(outcome) == Reply("", RequestError)
  {
  }

  /** The stored form of a persisted turn, as the history query reads it back. */
  function Stored(s: SavedTurn): StoredTurn
  {
    StoredTurn(Some(s.question), Some(s.answer), Some(s.error))
  }

  /**
   * Replaying the turn a submission of `q` persists reproduces the two entries
   * that submission left in the transcript, except when the reply has neither
   * an answer nor an error: the live transcript then shows the
   * "request failed" text while the replay shows no bot entry.
   */
  lemma ReplayReproducesSubmission(uid: string, q: string, outcome: FetchOutcome)
    requires q != ""
    ensures var r := Settled(outcome);
      var replayed := TurnEntries(Stored(SavedTurn(uid, q, r.answer, r.error)));
      if r.answer != "" || r.error != "" then
        replayed == [User(q), Bot(Answered(outcome), false)]
      else
        replayed == [User(q)] && Answered(outcome) == RequestFailed
  {
  }

  class Page {
    /** The page was opened with `?guest=1`. */
    const guest: bool
    /** The identity provider and the document store were initialised (never in guest mode). */
    const configured: bool
    var currentUser: Option<Session>
    var userLabel: string
    var transcript: seq<Entry>
    var question: string
    var questionDisabled: bool
    var sendDisabled: bool
    var sendLabel: string
    /** Requests made to the answer endpoint, in order. */
    var requests: seq<Request>
    /** Chat documents written to the store, in order. */
    var saved: seq<SavedTurn>

    /** Nothing in flight: the input and the send button are enabled and no placeholder is loading. */
    predicate Ready()
      reads this
    {
      !questionDisabled && !sendDisabled && sendLabel == SendLabel && NonePending(transcript)
    }

    /**
     * Start-up: in guest mode the provider and store are never set up and the
     * user label reads "Guest"; otherwise they are set up when the fetched
     * configuration was complete.
     */
    constructor (guest: bool, configComplete: bool)
      ensures this.guest == guest && configured == (!guest && configComplete)
      ensures currentUser == None && userLabel == (if guest then "Guest" else "")
      ensures transcript == [] && question == "" && requests == [] && saved == []
      ensures Ready()
    {
      this.guest := guest;
      configured := !guest && configComplete;
      currentUser := None;
      userLabel := if guest then "Guest" else "";
      transcript := [];
      question := "";
      questionDisabled, sendDisabled := false, false;
      sendLabel := SendLabel;
      requests, saved := [], [];
    }

    method RenderUserMsg(text: string)
      modifies this`transcript
      ensures transcript == old(transcript) + [User(text)]
    {
      transcript := transcript + [User(text)];
    }

    method RenderBotMsg(text: string)
      modifies this`transcript
      ensures transcript == old(transcript) + [Bot(text, false)]
    {
      transcript := transcript + [Bot(text, false)];
    }

    /** Appends the loading placeholder and returns its position, the handle later updates go through. */
    method RenderBotLoading() returns (k: nat)
      modifies this`transcript
      ensures transcript == old(transcript) + [Bot(LoadingText, true)]
      ensures k == |old(transcript)|
    {
      k := |transcript|;
      transcript := transcript + [Bot(LoadingText, true)];
    }

    /** Removes the loading mark of the bot entry at `k`. */
    method MarkLoaded(k: nat)
      requires k < |transcript| && transcript[k].Bot?
      modifies this`transcript
      ensures transcript == old(transcript)[k := Bot(old(transcript[k].text), false)]
    {
      transcript := transcript[k := Bot(transcript[k].text, false)];
    }

    /**
     * The typewriter: clears the text of the bot entry at `k`, then appends
     * `text` one character at a time; after `i` steps the entry holds the
     * first `i` characters, and at the end exactly `text`.
     */
    method TypeText(k: nat, text: string)
      requires k < |transcript| && transcript[k].Bot?
      modifies this`transcript
      ensures transcript == old(transcript)[k := Bot(text, old(transcript[k].loading))]
    {
      var loading := transcript[k].loading;
      transcript := transcript[k := Bot("", loading)];
      var i := 0;
      while i < |text|
        invariant 0 <= i <= |text|
        invariant transcript == old(transcript)[k := Bot(text[..i], loading)]
      {
        transcript := transcript[k := Bot(transcript[k].text + [text[i]], loading)];
        i := i + 1;
        assert text[..i] == text[..i - 1] + [text[i - 1]];
      }
      assert text[..|text|] == text;
    }

    /** The store can be written and queried: not guest, set up, and someone is signed in. */
    predicate CanPersist()
      reads this
    {
      !guest && configured && currentUser.Some?
    }

    /** What `SaveChat(q, answer, error)` writes: one document with missing fields as `''`, or nothing. */
    function Persisted(q: string, answer: Option<string>, error: Option<string>): seq<SavedTurn>
      reads this
    {
      if CanPersist() then [SavedTurn(currentUser.value.uid, q, Or(answer, ""), Or(error, ""))] else []
    }

    /**
     * Writes the turn under the signed-in user's scope, with a falsy answer or
     * error written as `''` and the question as given; in guest mode, or with no
     * store or no user, it writes nothing. A failed write is swallowed.
     */
    method SaveChat(q: string, answer: Option<string>, error: Option<string>)
      modifies this`saved
      ensures saved == old(saved) + Persisted(q, answer, error)
    {
      if guest || !configured || currentUser.None? {
        return;
      }
      var uid := currentUser.value.uid;
      saved := saved + [SavedTurn(uid, q, Or(answer, ""), Or(error, ""))];
    }

    /**
     * The chat form's submit handler, for a request that ends with `outcome`.
     * A question that trims to nothing changes nothing and sends nothing.
     * Otherwise the transcript gains the trimmed question and one bot entry,
     * which ends not loading and showing the reply's text (or the request-error
     * message); exactly one request is sent while the input and button are
     * disabled and the placeholder is showing; the turn is persisted; and the
     * input is cleared and the controls restored.
     */
    method Submit(outcome: FetchOutcome)
      modifies this`transcript, this`question, this`questionDisabled, this`sendDisabled
      modifies this`sendLabel, this`requests, this`saved
      ensures var q := Trim(old(question));
        && (q == "" ==>
              && transcript == old(transcript) && requests == old(requests) && saved == old(saved)
              && question == old(question) && questionDisabled == old(questionDisabled)
              && sendDisabled == old(sendDisabled) && sendLabel == old(sendLabel))
        && (q != "" ==>
              && transcript == old(transcript) + [User(q), Bot(Answered(outcome), false)]
              && requests == old(requests) + [Request(q, true, true, SendingLabel, Bot(LoadingText, true))]
              && saved == old(saved) + Persisted(q, Some(Settled(outcome).answer), Some(Settled(outcome).error))
              && question == "" && !questionDisabled && !sendDisabled && sendLabel == SendLabel)
      ensures old(Ready()) ==> Ready()
    {
      var q := Trim(question);
      if q == "" {
        return;
      }
      Ask(q, outcome);
    }

    /** Lines of the submit handler after the empty-question check, for the trimmed question `q`. */
    method Ask(q: string, outcome: FetchOutcome)
      requires q != ""
      modifies this`transcript, this`question, this`questionDisabled, this`sendDisabled
      modifies this`sendLabel, this`requests, this`saved
      ensures transcript == old(transcript) + [User(q), Bot(Answered(outcome), false)]
      ensures requests == old(requests) + [Request(q, true, true, SendingLabel, Bot(LoadingText, true))]
      ensures saved == old(saved) + Persisted(q, Some(Settled(outcome).answer), Some(Settled(outcome).error))
      ensures question == "" && !questionDisabled && !sendDisabled && sendLabel == SendLabel
    {
      RenderUserMsg(q);
      question := "";
      sendDisabled := true;
      sendLabel := SendingLabel;
      questionDisabled := true;
      var k := RenderBotLoading();
      requests := requests + [Request(q, questionDisabled, sendDisabled, sendLabel, transcript[|transcript| - 1])];
      Settle(k, q, outcome);
      sendDisabled := false;
      sendLabel := SendLabel;
      questionDisabled := false;
    }

    /**
     * The handler's `try`/`catch` once the request has ended: the placeholder
     * at `k` stops loading and shows the reply's text through the typewriter,
     * or the request-error message directly, and the turn is saved.
     */
    method Settle(k: nat, q: string, outcome: FetchOutcome)
      requires k < |transcript| && transcript[k].Bot?
      modifies this`transcript, this`saved
      ensures transcript == old(transcript)[k := Bot(Answered(outcome), false)]
      ensures saved == old(saved) + Persisted(q, Some(Settled(outcome).answer), Some(Settled(outcome).error))
    {
      var reply := if outcome.Response? then Interpret(outcome.data) else None;
      if reply.Some? {
        MarkLoaded(k);
        TypeText(k, DisplayText(reply.value));
        SaveChat(q, Some(reply.value.answer), Some(reply.value.error));
      } else {
        MarkLoaded(k);
        transcript := transcript[k := Bot(RequestError, false)];
        SaveChat(q, Some(""), Some(RequestError));
      }
    }

    /** The body of the history loop for one stored document. */
    method RenderTurn(d: StoredTurn)
      modifies this`transcript
      ensures transcript == old(transcript) + TurnEntries(d)
    {
      if Or(d.question, "") != "" {
        RenderUserMsg(d.question.value);
      }
      var text := Or(d.answer, Or(d.error, ""));
      if text != "" {
        RenderBotMsg(text);
      }
    }

    /**
     * Replays the signed-in user's history. Without a store or a user it does
     * nothing; otherwise it clears the transcript and, when the query succeeds,
     * replays the stored turns in order; a failed query leaves it empty.
     */
    method LoadHistory(result: QueryOutcome)
      modifies this`transcript
      ensures !(configured && currentUser.Some?) ==> transcript == old(transcript)
      ensures configured && currentUser.Some? ==>
                transcript == (if result.Docs? then Replay(result.turns) else [])
    {
      if !configured || currentUser.None? {
        return;
      }
      transcript := [];
      if result.QueryFailure? {
        return;
      }
      var turns := result.turns;
      var i := 0;
      while i < |turns|
        invariant 0 <= i <= |turns|
        invariant transcript == Replay(turns[..i])
      {
        var d := turns[i];
        RenderTurn(d);
        ReplaySnoc(turns, i);
        i := i + 1;
      }
      assert turns[..|turns|] == turns;
    }

    /**
     * The provider's session observer, registered only outside guest mode
     * when the provider is set up. A signed-in user is shown by email, else
     * by id, and their history is loaded; on sign-out the user label and the
     * whole transcript are cleared.
     */
    method OnAuthStateChanged(user: Option<Session>, history: QueryOutcome)
      requires !guest && configured
      modifies this`currentUser, this`userLabel, this`transcript
      ensures currentUser == user
      ensures user.None? ==> userLabel == "" && transcript == []
      ensures user.Some? ==>
                && userLabel == Or(user.value.email, user.value.uid)
                && transcript == (if history.Docs? then Replay(history.turns) else [])
    {
      currentUser := user;
      if user.Some? {
        userLabel := Or(user.value.email, user.value.uid);
        LoadHistory(history);
      } else {
        userLabel := "";
        transcript := [];
      }
    }
  }
}
