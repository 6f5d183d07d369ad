/**
 * What the chat form does with the decoded JSON body of the answer
 * endpoint's response: an array stands for its first element (an empty
 * object when there is none), the `answer` and `error` fields are read from
 * the result, and the text shown is the answer, else the error, else a
 * generic "request failed" message.
 */
module ChatResponse {
  import opened Js

  /**
   * A decoded JSON value as far as the page looks at it. `Primitive` is a
   * number, string or boolean, with its JavaScript truthiness; `Obj` keeps
   * only the two fields the page reads.
   */
  datatype Json =
    | Null
    | Primitive(truthy: bool)
    | Obj(answer: Option<string>, error: Option<string>)
    | Arr(items: seq<Json>)

  predicate Truthy(v: Json)
  {
    match v
    case Null => false
    case Primitive(t) => t
    case _ => true
  }

  /**
   * `Array.isArray(data) ? (data[0] || {}) : data`: anything but an array is
   * kept, and an array becomes a truthy value, so the result is `null`
   * exactly when the body is.
   */
  function Normalize(data: Json): (body: Json)
    ensures !data.Arr? ==> body == data
    ensures data.Arr? ==> Truthy(body) && (body == Obj(None, None) || (data.items != [] && body == data.items[0]))
    ensures data.Arr? && data.items != [] && Truthy(data.items[0]) ==> body == data.items[0]
    ensures body == Null <==> data == Null
  {
    match data
    case Arr(items) => if items != [] && Truthy(items[0]) then items[0] else Obj(None, None)
    case _ => data
  }

  /** The two fields as the page persists them (`answer || ''`, `error || ''`). */
  datatype Reply = Reply(answer: string, error: string)

  /** Reads a field of the normalised body; on anything but an object it is `undefined`. */
  function AnswerOf(body: Json): Option<string>
  {
    if body.Obj? then body.answer else None
  }

  function ErrorOf(body: Json): Option<string>
  {
    if body.Obj? then body.error else None
  }

  /**
   * The fields of a decoded response, or `None` when reading them throws
   * (`body.answer` on `null`), which sends the handler to its error path.
   * That happens exactly for a `null` response: an array never normalises to `null`.
   */
  function Interpret(data: Json): (r: Option<Reply>)
    ensures r.None? <==> data == Null
    ensures r.Some? && data.Obj? ==> r.value == Reply(Or(data.answer, ""), Or(data.error, ""))
    ensures r.Some? && !Normalize(data).Obj? ==> r.value == Reply("", "")
  {
    var body := Normalize(data);
    if body == Null then None
    else Some(Reply(Or(AnswerOf(body), ""), Or(ErrorOf(body), "")))
  }

  const RequestFailed := "请求失败"

  /**
   * `answer || error || '请求失败'`: the answer takes precedence, the error
   * is shown only when there is no answer, and the fallback only when both
   * are empty; the text is never empty.
   */
  function DisplayText(r: Reply): (text: string)
    ensures text != ""
    ensures r.answer != "" ==> text == r.answer
    ensures r.answer == "" && r.error != "" ==> text == r.error
    ensures r.answer == "" && r.error == "" ==> text == RequestFailed
  {
    Or(Some(r.answer), Or(Some(r.error), RequestFailed))
  }

  /** An object and the same object wrapped as the first element of an array read the same. */
  lemma WrappedObjectReadsTheSame(o: Json, rest: seq<Json>)
    requires o.Obj?
    ensures Interpret(Arr([o] + rest)) == Interpret(o)
    ensures DisplayText(Interpret(Arr([o] + rest)).value) == DisplayText(Interpret(o).value)
  {
  }

  /** An empty array, or one whose first element is falsy, reads as the empty object `{}`. */
  lemma EmptyArrayReadsAsEmptyObject(items: seq<Json>)
    requires items == [] || !Truthy(items[0])
    ensures Interpret(Arr(items)) == Interpret(Obj(None, None)) == Some(Reply("", ""))
    ensures DisplayText(Interpret(Arr(items)).value) == RequestFailed
  {
  }

  /** For `{"answer":"x"}` and `[{"answer":"x"}]` alike, the text shown is "x". */
  lemma AnswerShownWrappedOrNot(x: string)
    requires x != ""
    ensures DisplayText(Interpret(Obj(Some(x), None)).value) == x
    ensures DisplayText(Interpret(Arr([Obj(Some(x), None)])).value) == x
  {
  }
}
