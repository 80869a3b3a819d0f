/**
  The question source client: the query string `buildUrl` sends, the status
  check of `fetchJSON`, and `fetchQuestions`' unwrapping of the response and
  element-wise normalisation. The transport itself is the parameter `server`,
  which maps a query to the reply it gets.
 */
module SourceClient {
  import opened Wrappers
  import opened Js
  import opened Settings
  import opened Normalize

  /**
    The query parameters the endpoint understands, in the order they are set:
    `amount`, `category`, `difficulty` and `type` in the query string.
   */
  datatype Param = Amount | Category | Difficulty | QuestionType

  /** The position at which `buildUrl` sets the parameter. */
  function Rank(p: Param): nat {
    match p
    case Amount => 0
    case Category => 1
    case Difficulty => 2
    case QuestionType => 3
  }

  /** The value a settings record gives a query parameter. */
  function SettingValue(s: Settings, p: Param): string {
    match p
    case Amount => IntToString(s.amount)
    case Category => s.category
    case Difficulty => s.difficulty
    case QuestionType => s.kind
  }

  /** The parameters the query pairs carry. */
  function KeysOf(params: seq<(Param, string)>): set<Param> {
    set i | 0 <= i < |params| :: params[i].0
  }

  /** `url.searchParams.set(name, value)` only when `value` is truthy (non-empty). */
  function IfSet(p: Param, value: string): seq<(Param, string)> {
    if value != "" then [(p, value)] else []
  }

  /**
    `buildUrl(settings)` as its ordered query pairs: `amount` always and first,
    then `category`, `difficulty` and `type` in that order, each exactly when its
    setting is non-empty, so no parameter is sent with an empty value.
   */
  function BuildQuery(s: Settings): (params: seq<(Param, string)>)
    ensures |params| >= 1 && params[0] == (Amount, IntToString(s.amount))
    ensures forall i :: 0 <= i < |params| ==> params[i].1 == SettingValue(s, params[i].0) && params[i].1 != ""
    ensures forall i, j :: 0 <= i < j < |params| ==> Rank(params[i].0) < Rank(params[j].0)
    ensures forall p :: p != Amount ==> (p in KeysOf(params) <==> SettingValue(s, p) != "")
  {
    var cat := IfSet(Category, s.category);
    var dif := IfSet(Difficulty, s.difficulty);
    var typ := IfSet(QuestionType, s.kind);
    var params := [(Amount, IntToString(s.amount))] + cat + dif + typ;
    assert s.category != "" ==> params[1].0 == Category;
    assert s.difficulty != "" ==> params[1 + |cat|].0 == Difficulty;
    assert s.kind != "" ==> params[1 + |cat| + |dif|].0 == QuestionType;
    params
  }

  /** What the transport returns: no reply at all, or a status flag and a body that may not parse. */
  datatype Reply = Unreachable | Reply(ok: bool, body: Option<JsValue>)

  /** The ways loading questions fails. */
  datatype LoadError = NetworkError | FormatError | NoQuestions

  /** `fetchJSON`: a non-2xx status throws, and so does a body that is not JSON. */
  function FetchJson(reply: Reply): (r: Result<JsValue, LoadError>)
    ensures r.Ok? <==> reply.Reply? && reply.ok && reply.body.Some?
    ensures r.Ok? ==> r.value == reply.body.value
    ensures reply.Unreachable? || (reply.Reply? && !reply.ok) ==> r == Err(NetworkError)
  {
    match reply
    case Unreachable => Err(NetworkError)
    case Reply(ok, body) =>
      if !ok then Err(NetworkError)
      else if body.None? then Err(FormatError)
      else Ok(body.value)
  }

  /**
    `Array.isArray(data) ? data : (data.results || data.questions || [])`, and the
    TypeError `.map` throws when the value picked is not an array.
   */
  function UnwrapItems(data: JsValue): (r: Result<seq<JsValue>, Exception>)
    ensures data.Arr? ==> r == Ok(data.items)
    ensures Nullish(data) ==> r.Err?
    ensures !data.Arr? && !Nullish(data) && Get(data, "results").Arr? ==> r == Ok(Get(data, "results").items)
    ensures !data.Arr? && !Nullish(data) && !Truthy(Get(data, "results")) && Get(data, "questions").Arr? ==>
      r == Ok(Get(data, "questions").items)
    ensures !data.Arr? && !Nullish(data) && !Truthy(Get(data, "results")) && !Truthy(Get(data, "questions")) ==>
      r == Ok([])
    ensures r.Err? <==> Nullish(data) || (!data.Arr? && !Pick(data, ["results", "questions"], Arr([])).Arr?)
  {
    if data.Arr? then Ok(data.items)
    else if Nullish(data) then Err(TypeError)
    else
      var picked := Pick(data, ["results", "questions"], Arr([]));
      assert !Truthy(Get(data, "results")) ==> !Truthy(Get(data, ["results", "questions"][0]));
      if picked.Arr? then Ok(picked.items) else Err(TypeError)
  }

  /**
    `items.map(normalizeQuestion)`: one question per item, in item order; the
    first item that makes `normalizeQuestion` throw makes the whole map throw.
    `rand(i)` holds the random keys drawn while normalising item `i`.
   */
  function NormalizeAll(items: seq<JsValue>, decode: string -> string, rand: nat -> nat -> real): (r: Result<seq<Question>, Exception>)
    ensures r.Ok? <==> forall i :: 0 <= i < |items| ==> NormalizeQuestion(items[i], decode, rand(i)).Ok?
    ensures r.Ok? ==> |r.value| == |items|
    ensures r.Ok? ==> forall i :: 0 <= i < |items| ==> NormalizeQuestion(items[i], decode, rand(i)) == Ok(r.value[i])
  {
    MapOrThrow(items, (i: nat, q: JsValue) => NormalizeQuestion(q, decode, rand(i)))
  }

  /**
    `fetchQuestions(settings)`: sends `BuildQuery(settings)`, unwraps the reply
    and normalises every item. A TypeError while unwrapping or normalising is a
    format error.
   */
  function FetchQuestions(s: Settings, server: seq<(Param, string)> -> Reply, decode: string -> string, rand: nat -> nat -> real): (r: Result<seq<Question>, LoadError>)
    ensures var data := FetchJson(server(BuildQuery(s)));
      r.Ok? <==>
        && data.Ok?
        && UnwrapItems(data.value).Ok?
        && NormalizeAll(UnwrapItems(data.value).value, decode, rand).Ok?
    ensures var data := FetchJson(server(BuildQuery(s)));
      r.Ok? ==> r.value == NormalizeAll(UnwrapItems(data.value).value, decode, rand).value
    ensures r.Err? ==> r.error != NoQuestions
  {
    match FetchJson(server(BuildQuery(s)))
    case Err(e) => Err(e)
    case Ok(data) =>
      match UnwrapItems(data)
      case Err(_) => Err(FormatError)
      case Ok(items) =>
        match NormalizeAll(items, decode, rand)
        case Err(_) => Err(FormatError)
        case Ok(questions) => Ok(questions)
  }

  /** A reply whose body has neither an array nor `results`/`questions` loads zero questions. */
  lemma NoArrayMeansNoQuestions(s: Settings, server: seq<(Param, string)> -> Reply, decode: string -> string, rand: nat -> nat -> real, fields: map<string, JsValue>)
    requires server(BuildQuery(s)) == Reply(true, Some(Obj(fields)))
    requires "results" !in fields && "questions" !in fields
    ensures FetchQuestions(s, server, decode, rand) == Ok([])
  {
    assert UnwrapItems(Obj(fields)) == Ok([]);
  }
}
