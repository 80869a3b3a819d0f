/**
  `normalizeQuestion`: turns one raw trivia record, in any of the tolerated
  shapes, into the question the quiz shows. Field values are taken from the
  first truthy property of a fixed alias list. The HTML entity decoder is the
  parameter `decode`; the random keys of the answer shuffle are `rand`.
 */
module Normalize {
  import opened Wrappers
  import opened Js
  import Shuffle

  /** A normalised question; `kind` is the record's `type` field. */
  datatype Question = Question(
    question: string,
    correct: string,
    answers: seq<string>,
    kind: JsValue,
    category: JsValue,
    difficulty: JsValue)

  /** The aliases of each field, most preferred first. */
  const QuestionKeys: seq<string> := ["question", "prompt", "text"]
  const CorrectKeys: seq<string> := ["correct_answer", "correct", "answer"]
  const IncorrectKeys: seq<string> := ["incorrect_answers", "incorrect", "options"]

  /** The answer pair every true/false question shows, in this order. */
  const TrueFalse: seq<string> := ["True", "False"]

  /** The value the prompt is decoded from: the first truthy alias, else `""`. */
  function QuestionSource(q: JsValue): JsValue {
    Pick(q, QuestionKeys, Str(""))
  }

  /** The value the correct answer is decoded from: the first truthy alias, else `""`. */
  function CorrectSource(q: JsValue): JsValue {
    Pick(q, CorrectKeys, Str(""))
  }

  /** The value the incorrect answers are mapped over: the first truthy alias, else `[]`. */
  function IncorrectSource(q: JsValue): JsValue
    requires !Nullish(q)
  {
    Pick(q, IncorrectKeys, Arr([]))
  }

  /**
    The page's `decode(v)`: assigning `v` to `innerHTML` converts it with
    `String(v)`, which may throw, and the entity decoder `decode` then reads
    that string.
   */
  function DecodeValue(v: JsValue, decode: string -> string): (r: Result<string, Exception>)
    ensures r.Ok? <==> Printable(v)
    ensures r.Ok? ==> r.value == decode(ToString(v).value)
    ensures r.Err? ==> r.error == TypeError
  {
    match ToString(v)
    case Ok(s) => Ok(decode(s))
    case Err(e) => Err(e)
  }

  /**
    `(q.incorrect_answers || q.incorrect || q.options || []).map(x => decode(String(x)))`:
    throws when the value picked is not an array (a string or an object, say),
    or when one of its items cannot be converted to a string.
   */
  function Incorrect(q: JsValue, decode: string -> string): (r: Result<seq<string>, Exception>)
    requires !Nullish(q)
    ensures r.Ok? <==> IncorrectSource(q).Arr? && forall i :: 0 <= i < |IncorrectSource(q).items| ==> Printable(IncorrectSource(q).items[i])
    ensures r.Ok? ==> |r.value| == |IncorrectSource(q).items|
    ensures r.Ok? ==> forall i :: 0 <= i < |r.value| ==>
      r.value[i] == decode(ToString(IncorrectSource(q).items[i]).value)
  {
    var source := IncorrectSource(q);
    if source.Arr? then
      MapOrThrow(source.items, (i: nat, x: JsValue) => DecodeValue(x, decode))
    else
      Err(TypeError)
  }

  /**
    `q.type === "boolean" || (q.options && q.options.length === 2)`. Besides a
    two-element array, a two-character string and an object whose own `length`
    is 2 pass the `options` test; a number or a boolean never does.
   */
  predicate IsTrueFalse(q: JsValue)
    ensures q.Obj? ==> (IsTrueFalse(q) <==>
      var options := Get(q, "options");
      || Get(q, "type") == Str("boolean")
      || (options.Arr? && |options.items| == 2)
      || (options.Str? && |options.s| == 2)
      || (options.Obj? && "length" in options.fields && options.fields["length"] == Num(2)))
  {
    Get(q, "type") == Str("boolean")
    || (Truthy(Get(q, "options")) && Get(Get(q, "options"), "length") == Num(2))
  }

  /**
    `normalizeQuestion(q)`. It throws a TypeError exactly when `q` is null or
    undefined, when the prompt or the correct answer it picks cannot be
    converted to a string, or when the incorrect answers throw.
   */
  function NormalizeQuestion(q: JsValue, decode: string -> string, rand: nat -> real): (r: Result<Question, Exception>)
    ensures r.Err? <==>
      Nullish(q) || !Printable(QuestionSource(q)) || !Printable(CorrectSource(q)) || Incorrect(q, decode).Err?
    ensures r.Ok? ==> r.value.question == decode(ToString(QuestionSource(q)).value)
    ensures r.Ok? ==> r.value.correct == decode(ToString(CorrectSource(q)).value)
    ensures r.Ok? ==> IsTrueFalse(q) ==> r.value.answers == TrueFalse
    ensures r.Ok? ==> !IsTrueFalse(q) ==>
      var incorrect := Incorrect(q, decode).value;
      && |r.value.answers| == 1 + |incorrect|
      && multiset(r.value.answers) == multiset([r.value.correct] + incorrect)
      && r.value.correct in r.value.answers
    ensures r.Ok? && Truthy(Get(q, "type")) ==> r.value.kind == Get(q, "type")
    ensures r.Ok? && !Truthy(Get(q, "type")) ==>
      r.value.kind == Str(if |r.value.answers| == 2 then "boolean" else "multiple")
    ensures r.Ok? ==> r.value.category == (if Truthy(Get(q, "category")) then Get(q, "category") else Str(""))
    ensures r.Ok? ==> r.value.difficulty == (if Truthy(Get(q, "difficulty")) then Get(q, "difficulty") else Str(""))
  {
    if Nullish(q) then Err(TypeError)
    else
      match DecodeValue(QuestionSource(q), decode)
      case Err(e) => Err(e)
      case Ok(question) =>
      match DecodeValue(CorrectSource(q), decode)
      case Err(e) => Err(e)
      case Ok(correct) =>
      match Incorrect(q, decode)
      case Err(e) => Err(e)
      case Ok(incorrect) => Ok(Assemble(q, question, correct, incorrect, rand))
  }

  /**
    The question object `normalizeQuestion` returns once the text fields and
    the incorrect answers are decoded: "True"/"False" for a true/false record,
    otherwise the shuffled correct and incorrect answers; the kind is the
    record's truthy `type`, else "boolean" for two answers and "multiple"
    otherwise.
   */
  function Assemble(q: JsValue, question: string, correct: string, incorrect: seq<string>, rand: nat -> real): (r: Question)
    ensures r.question == question && r.correct == correct
    ensures IsTrueFalse(q) ==> r.answers == TrueFalse
    ensures !IsTrueFalse(q) ==>
      && |r.answers| == 1 + |incorrect|
      && multiset(r.answers) == multiset([correct] + incorrect)
      && correct in r.answers
    ensures Truthy(Get(q, "type")) ==> r.kind == Get(q, "type")
    ensures !Truthy(Get(q, "type")) ==> r.kind == Str(if |r.answers| == 2 then "boolean" else "multiple")
    ensures r.category == (if Truthy(Get(q, "category")) then Get(q, "category") else Str(""))
    ensures r.difficulty == (if Truthy(Get(q, "difficulty")) then Get(q, "difficulty") else Str(""))
  {
    var all := if IsTrueFalse(q) then TrueFalse else Shuffle.Shuffle([correct] + incorrect, rand);
    assert !IsTrueFalse(q) ==> correct in all by {
      if !IsTrueFalse(q) {
        Shuffle.ShuffleKeepsElements([correct] + incorrect, rand, correct);
      }
    }
    Question(
      question,
      correct,
      all,
      Pick(q, ["type"], Str(if |all| == 2 then "boolean" else "multiple")),
      Pick(q, ["category"], Str("")),
      Pick(q, ["difficulty"], Str("")))
  }

  /**
    The prompt and the correct answer are the decoded value of the first truthy
    alias; an empty string falls through to the next alias, and with no truthy
    alias the field is `decode("")`.
   */
  lemma TextFieldsFollowAliases(q: JsValue, decode: string -> string, rand: nat -> real, i: nat)
    requires NormalizeQuestion(q, decode, rand).Ok?
    requires i < 3
    ensures var r := NormalizeQuestion(q, decode, rand).value;
      && (Truthy(Get(q, QuestionKeys[i])) && FalsyBefore(q, QuestionKeys, i) ==>
            r.question == decode(ToString(Get(q, QuestionKeys[i])).value))
      && (FalsyBefore(q, QuestionKeys, 3) ==> r.question == decode(""))
      && (Truthy(Get(q, CorrectKeys[i])) && FalsyBefore(q, CorrectKeys, i) ==>
            r.correct == decode(ToString(Get(q, CorrectKeys[i])).value))
      && (FalsyBefore(q, CorrectKeys, 3) ==> r.correct == decode(""))
  {
  }

  /**
    The incorrect answers come from the first truthy alias among
    `incorrect_answers`, `incorrect`, `options`; an empty array is truthy, so it
    is used as it is and does not fall through.
   */
  lemma EmptyArrayDoesNotFallThrough(q: JsValue, decode: string -> string)
    requires Get(q, "incorrect_answers") == Arr([])
    ensures Incorrect(q, decode) == Ok([])
  {
    assert Truthy(Get(q, IncorrectKeys[0]));
    assert FalsyBefore(q, IncorrectKeys, 0);
  }

  /** A record with none of the aliases still normalises, to decoded empty strings. */
  lemma RecordWithoutAliases(q: JsValue, decode: string -> string, rand: nat -> real)
    requires q.Obj?
    requires FalsyBefore(q, QuestionKeys, 3) && FalsyBefore(q, CorrectKeys, 3) && FalsyBefore(q, IncorrectKeys, 3)
    requires !Truthy(Get(q, "type"))
    ensures var r := NormalizeQuestion(q, decode, rand);
      && r.Ok?
      && r.value.question == decode("")
      && r.value.correct == decode("")
      && r.value.answers == [decode("")]
      && r.value.kind == Str("multiple")
  {
    NoAliasesNoIncorrect(q, decode);
    assert QuestionSource(q) == Str("") && CorrectSource(q) == Str("");
    var r := NormalizeQuestion(q, decode, rand);
    assert r.value == Assemble(q, decode(""), decode(""), [], rand);
    OneAnswer(q, decode(""), decode(""), rand);
  }

  /** Without a `type`, a record that is not true/false and has no incorrect answers shows only its correct answer and is labelled "multiple". */
  lemma OneAnswer(q: JsValue, question: string, correct: string, rand: nat -> real)
    requires !Truthy(Get(q, "type")) && !IsTrueFalse(q)
    ensures var r := Assemble(q, question, correct, [], rand);
      r.answers == [correct] && r.kind == Str("multiple")
  {
    var r := Assemble(q, question, correct, [], rand);
    assert r.answers[0] in multiset([correct]);
  }

  /** Without incorrect-answer aliases there are no incorrect answers and the record is not true/false. */
  lemma NoAliasesNoIncorrect(q: JsValue, decode: string -> string)
    requires !Nullish(q)
    requires FalsyBefore(q, IncorrectKeys, 3)
    requires !Truthy(Get(q, "type"))
    ensures Incorrect(q, decode) == Ok([]) && !IsTrueFalse(q)
  {
    assert IncorrectSource(q) == Arr([]);
    assert !Truthy(Get(q, IncorrectKeys[2]));
  }

  /**
    With no `type`, a record with exactly one incorrect answer (and no two-element
    `options`) is labelled "boolean", although its answers are its own two
    strings in shuffled order rather than "True" and "False".
   */
  lemma SingleDistractorLabelledBoolean(q: JsValue, decode: string -> string, rand: nat -> real, d: JsValue)
    requires !Nullish(q) && !Truthy(Get(q, "type")) && !Truthy(Get(q, "options"))
    requires Get(q, "incorrect_answers") == Arr([d])
    ensures var r := NormalizeQuestion(q, decode, rand);
      && (r.Ok? <==> Printable(QuestionSource(q)) && Printable(CorrectSource(q)) && Printable(d))
      && (r.Ok? ==> r.value.kind == Str("boolean"))
      && (r.Ok? ==> multiset(r.value.answers) == multiset{r.value.correct, decode(ToString(d).value)})
  {
    SingleIncorrectAnswer(q, decode, d);
    var r := NormalizeQuestion(q, decode, rand);
    assert r.Ok? <==> Printable(QuestionSource(q)) && Printable(CorrectSource(q)) && Printable(d);
    if r.Ok? {
      var other := decode(ToString(d).value);
      assert r.value == Assemble(q, r.value.question, r.value.correct, [other], rand);
      TwoAnswers(q, r.value.question, r.value.correct, other, rand);
    }
  }

  /** Without a `type`, a record that is not true/false and has one incorrect answer shows two answers and is labelled "boolean". */
  lemma TwoAnswers(q: JsValue, question: string, correct: string, other: string, rand: nat -> real)
    requires !Truthy(Get(q, "type")) && !IsTrueFalse(q)
    ensures var r := Assemble(q, question, correct, [other], rand);
      && r.kind == Str("boolean")
      && multiset(r.answers) == multiset{correct, other}
  {
    assert [correct] + [other] == [correct, other];
  }

  /**
    An incorrect answer that is an object with its own `toString` field, such
    as `{"toString": "B"}`, makes the whole record throw.
   */
  lemma UnconvertibleAnswerThrows(q: JsValue, decode: string -> string, rand: nat -> real, fields: map<string, JsValue>)
    requires !Nullish(q)
    requires Get(q, "incorrect_answers") == Arr([Obj(fields)]) && "toString" in fields
    ensures NormalizeQuestion(q, decode, rand).Err?
  {
    SingleIncorrectAnswer(q, decode, Obj(fields));
  }

  /** A one-element `incorrect_answers` array gives one decoded incorrect answer, or throws when it cannot be converted. */
  lemma SingleIncorrectAnswer(q: JsValue, decode: string -> string, d: JsValue)
    requires Get(q, "incorrect_answers") == Arr([d])
    ensures Incorrect(q, decode).Ok? <==> Printable(d)
    ensures Printable(d) ==> Incorrect(q, decode) == Ok([decode(ToString(d).value)])
  {
    assert IncorrectSource(q) == Arr([d]) by {
      assert Truthy(Get(q, IncorrectKeys[0]));
      assert FalsyBefore(q, IncorrectKeys, 0);
    }
    var r := Incorrect(q, decode);
    if Printable(d) {
      assert r.Ok? && |r.value| == 1 && r.value[0] == decode(ToString(d).value);
      assert r.value == [decode(ToString(d).value)];
    }
  }

  /**
    A record whose `options` holds two values gets the answers "True" and
    "False", whatever its correct answer is: for `{answer: "Paris", options:
    ["London", "Rome"]}`, say, no shown answer matches the correct one.
   */
  lemma OptionsPairReplacesAnswers(q: JsValue, decode: string -> string, rand: nat -> real, c: string, a: JsValue, b: JsValue)
    requires q.Obj? && !Truthy(Get(q, "type"))
    requires !Truthy(Get(q, "correct_answer")) && !Truthy(Get(q, "correct")) && Get(q, "answer") == Str(c) && c != ""
    requires !Truthy(Get(q, "incorrect_answers")) && !Truthy(Get(q, "incorrect"))
    requires Get(q, "options") == Arr([a, b])
    requires decode(c) !in TrueFalse
    ensures var r := NormalizeQuestion(q, decode, rand);
      && (r.Ok? <==> Printable(QuestionSource(q)) && Printable(a) && Printable(b))
      && (r.Ok? ==> r.value.correct == decode(c))
      && (r.Ok? ==> r.value.answers == TrueFalse)
      && (r.Ok? ==> r.value.correct !in r.value.answers)
      && (r.Ok? ==> r.value.kind == Str("boolean"))
  {
    AnswerWithOptionsPair(q, c, a, b);
    IncorrectPair(q, decode, a, b);
    var r := NormalizeQuestion(q, decode, rand);
    if r.Ok? {
      TrueFalseWithoutType(q, decode, rand);
    }
  }

  /** Mapping a two-item incorrect-answer array throws exactly when one of the two items cannot be converted. */
  lemma IncorrectPair(q: JsValue, decode: string -> string, a: JsValue, b: JsValue)
    requires !Nullish(q) && IncorrectSource(q) == Arr([a, b])
    ensures Incorrect(q, decode).Ok? <==> Printable(a) && Printable(b)
  {
    assert IncorrectSource(q).items[0] == a && IncorrectSource(q).items[1] == b;
  }

  /** Which aliases such a record's fields come from. */
  lemma AnswerWithOptionsPair(q: JsValue, c: string, a: JsValue, b: JsValue)
    requires q.Obj? && !Truthy(Get(q, "type"))
    requires !Truthy(Get(q, "correct_answer")) && !Truthy(Get(q, "correct")) && Get(q, "answer") == Str(c) && c != ""
    requires !Truthy(Get(q, "incorrect_answers")) && !Truthy(Get(q, "incorrect"))
    requires Get(q, "options") == Arr([a, b])
    ensures IncorrectSource(q) == Arr([a, b]) && IsTrueFalse(q)
    ensures CorrectSource(q) == Str(c)
  {
    assert Truthy(Get(q, IncorrectKeys[2])) && FalsyBefore(q, IncorrectKeys, 2);
    assert Truthy(Get(q, CorrectKeys[2])) && FalsyBefore(q, CorrectKeys, 2);
  }

  /** A true/false record without a `type` shows "True" and "False" and is labelled "boolean". */
  lemma TrueFalseWithoutType(q: JsValue, decode: string -> string, rand: nat -> real)
    requires !Nullish(q) && IsTrueFalse(q) && !Truthy(Get(q, "type"))
    requires NormalizeQuestion(q, decode, rand).Ok?
    ensures var r := NormalizeQuestion(q, decode, rand);
      r.value.answers == TrueFalse && r.value.kind == Str("boolean")
  {
  }
}
