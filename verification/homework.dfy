/** The decision logic of `homework.py`: the configuration check, the shape
    check of the API answer and the formatting of a homework's status into
    the notification text, together with a decoder that recovers the
    homework name and status code from a notification. */
module Homework {
  import opened Results
  import opened Exceptions
  import opened Json

  /** `HOMEWORK_VERDICTS`: status code to verdict sentence. */
  const HomeworkVerdicts: seq<(string, string)> := [
    ("approved", "Работа проверена: ревьюеру всё понравилось. Ура!"),
    ("reviewing", "Работа взята на проверку ревьюером."),
    ("rejected", "Работа проверена: у ревьюера есть замечания.")
  ]

  // ---------------------------------------------------------------------
  // Configuration check

  /** Python truthiness of what `os.getenv` returns: `None` and `''` are false. */
  predicate Truthy(token: Option<string>)
    ensures token == None ==> !Truthy(token)
    ensures token == Some("") ==> !Truthy(token)
    ensures token.Some? && |token.value| > 0 ==> Truthy(token)
  {
    token.Some? && token.value != ""
  }

  /** Python's `all` over a sequence of optional strings. */
  function All(tokens: seq<Option<string>>): (r: bool)
    ensures r <==> forall i :: 0 <= i < |tokens| ==> Truthy(tokens[i])
  {
    if |tokens| == 0 then true
    else Truthy(tokens[0]) && All(tokens[1..])
  }

  /** `check_tokens`: the three secrets must all be set and non-empty. */
  function CheckTokens(practicumToken: Option<string>, telegramToken: Option<string>,
                       telegramChatId: Option<string>): (ok: bool)
    ensures ok <==>
      && practicumToken.Some? && |practicumToken.value| > 0
      && telegramToken.Some? && |telegramToken.value| > 0
      && telegramChatId.Some? && |telegramChatId.value| > 0
  {
    var tokens := [practicumToken, telegramToken, telegramChatId];
    assert Truthy(tokens[0]) == Truthy(practicumToken);
    assert Truthy(tokens[1]) == Truthy(telegramToken);
    assert Truthy(tokens[2]) == Truthy(telegramChatId);
    All(tokens)
  }

  // ---------------------------------------------------------------------
  // Response validator

  /** `check_response`: the answer must be a dict whose `homeworks` is a
      list; that list is returned as it is, even when it is empty. */
  function CheckResponse(response: Json): (r: Result<seq<Json>, PyError>)
    ensures !response.Object? ==> r == Failure(TypeError(NotADict))
    ensures response.Object? && Get(response, "homeworks") == Null ==>
      r == Failure(KeyError("homeworks"))
    ensures response.Object? && Get(response, "homeworks") != Null && !Get(response, "homeworks").List? ==>
      r == Failure(TypeError(NotAList))
    ensures r.Success? <==> response.Object? && Get(response, "homeworks").List?
    ensures r.Success? ==> Get(response, "homeworks") == List(r.value)
  {
    if !response.Object? then Failure(TypeError(NotADict))
    else if Get(response, "homeworks") == Null then Failure(KeyError("homeworks"))
    else
      var homeworks := Get(response, "homeworks");
      if !homeworks.List? then Failure(TypeError(NotAList))
      else Success(homeworks.items)
  }

  // ---------------------------------------------------------------------
  // Status formatter

  /** The text of a notification up to the homework name. */
  const Head: string := "Изменился статус проверки работы \""

  /** The text of a notification after the homework name. */
  function Tail(verdict: string): string {
    "\". " + verdict
  }

  /** The f-string of `parse_status`. */
  function Message(name: string, verdict: string): (m: string)
    ensures |m| == |Head| + |name| + |Tail(verdict)|
    ensures m[..|Head|] == Head
    ensures m[|Head|..|Head| + |name|] == name
    ensures m[|Head| + |name|..] == Tail(verdict)
  {
    Head + name + Tail(verdict)
  }

  /** `parse_status`: a dict with a name and a known status becomes its
      notification; the name is checked before the status. */
  function ParseStatus(homework: Json): (r: Result<string, PyError>)
    ensures !homework.Object? ==> r == Failure(AttributeError)
    ensures homework.Object? && Get(homework, "homework_name") == Null ==>
      r == Failure(KeyError("homework_name"))
    ensures homework.Object? && Get(homework, "homework_name") != Null && Get(homework, "status") == Null ==>
      r == Failure(KeyError("status"))
    ensures homework.Object? && Get(homework, "homework_name") != Null &&
            (Get(homework, "status").List? || Get(homework, "status").Object?) ==>
      r == Failure(TypeError(Unhashable))
    ensures r == Failure(ValueError) <==>
      && homework.Object? && Get(homework, "homework_name") != Null
      && var status := Get(homework, "status");
         (status.Bool? || status.Int? || (status.Str? && Lookup(HomeworkVerdicts, status.s).None?))
    ensures r.Success? <==>
      && homework.Object? && Get(homework, "homework_name") != Null && Get(homework, "status").Str?
      && Lookup(HomeworkVerdicts, Get(homework, "status").s).Some?
    ensures r.Success? ==>
      && homework.Object? && Get(homework, "homework_name") != Null && Get(homework, "status").Str?
      && var verdict := Lookup(HomeworkVerdicts, Get(homework, "status").s);
         verdict.Some? && r.value == Message(PyStr(Get(homework, "homework_name")), verdict.value)
  {
    if !homework.Object? then Failure(AttributeError)
    else
      var name := Get(homework, "homework_name");
      var status := Get(homework, "status");
      if name == Null then Failure(KeyError("homework_name"))
      else if status == Null then Failure(KeyError("status"))
      else if status.List? || status.Object? then Failure(TypeError(Unhashable))
      else if !status.Str? then Failure(ValueError)
      else match Lookup(HomeworkVerdicts, status.s)
        case None => Failure(ValueError)
        case Some(verdict) => Success(Message(PyStr(name), verdict))
  }

  // ---------------------------------------------------------------------
  // Decoding a notification

  predicate EndsWith(m: string, suffix: string) {
    |suffix| <= |m| && m[|m| - |suffix|..] == suffix
  }

  /** The homework name, when `m` is a notification carrying `verdict`. */
  function NameFor(m: string, verdict: string): Option<string> {
    if |Head| + |Tail(verdict)| <= |m| && m[..|Head|] == Head && EndsWith(m, Tail(verdict))
    then Some(m[|Head|..|m| - |Tail(verdict)|])
    else None
  }

  /** The name and status code of the first table entry whose verdict `m`
      carries. */
  function DecodeWith(m: string, table: seq<(string, string)>): Option<(string, string)> {
    if |table| == 0 then None
    else match NameFor(m, table[0].1)
      case Some(name) => Some((name, table[0].0))
      case None => DecodeWith(m, table[1..])
  }

  /** Recovers the homework name and the status code from a notification. */
  function DecodeMessage(m: string): Option<(string, string)> {
    DecodeWith(m, HomeworkVerdicts)
  }

  // ---------------------------------------------------------------------
  // Properties of the formatter

  /** The three status codes are the only keys of the table. */
  lemma {:induction false} KnownStatusCodes(code: string)
    ensures Lookup(HomeworkVerdicts, code).Some? <==>
      code == "approved" || code == "reviewing" || code == "rejected"
  {
    var t := HomeworkVerdicts;
    assert t[0].0 == "approved" && t[1].0 == "reviewing" && t[2].0 == "rejected";
  }

  /** A notification gives back the name it was built from. */
  lemma {:induction false} NameForOwnVerdict(name: string, verdict: string)
    ensures NameFor(Message(name, verdict), verdict) == Some(name)
  {
    var m := Message(name, verdict);
    assert m[|m| - |Tail(verdict)|..] == Tail(verdict);
  }

  /** A string ending in both suffixes agrees with them on its last two
      characters. */
  lemma {:induction false} SharedSuffixEnds(m: string, s1: string, s2: string)
    requires |s1| >= 2 && |s2| >= 2
    requires EndsWith(m, s1) && EndsWith(m, s2)
    ensures s1[|s1| - 1] == s2[|s2| - 1] && s1[|s1| - 2] == s2[|s2| - 2]
  {
    assert m[|m| - 1] == m[|m| - |s1|..][|s1| - 1] == s1[|s1| - 1];
    assert m[|m| - 1] == m[|m| - |s2|..][|s2| - 1] == s2[|s2| - 1];
    assert m[|m| - 2] == m[|m| - |s1|..][|s1| - 2] == s1[|s1| - 2];
    assert m[|m| - 2] == m[|m| - |s2|..][|s2| - 2] == s2[|s2| - 2];
  }

  /** A notification carrying one verdict of the table does not carry another. */
  lemma {:induction false} NoOtherVerdict(name: string, i: nat, j: nat)
    requires i < |HomeworkVerdicts| && j < |HomeworkVerdicts| && i != j
    ensures NameFor(Message(name, HomeworkVerdicts[i].1), HomeworkVerdicts[j].1) == None
  {
    var m := Message(name, HomeworkVerdicts[i].1);
    var ti, tj := Tail(HomeworkVerdicts[i].1), Tail(HomeworkVerdicts[j].1);
    assert EndsWith(m, ti);
    if EndsWith(m, tj) {
      SharedSuffixEnds(m, ti, tj);
      assert false;
    }
  }

  /** Decoding a notification recovers the name and the status code. */
  lemma {:induction false} MessageRoundTrip(name: string, code: string)
    requires Lookup(HomeworkVerdicts, code).Some?
    ensures DecodeMessage(Message(name, Lookup(HomeworkVerdicts, code).value)) == Some((name, code))
  {
    var t := HomeworkVerdicts;
    KnownStatusCodes(code);
    var k := if code == "approved" then 0 else if code == "reviewing" then 1 else 2;
    assert t[k].0 == code && Lookup(t, code).value == t[k].1;
    var m := Message(name, t[k].1);
    NameForOwnVerdict(name, t[k].1);
    if k == 0 {
      assert DecodeWith(m, t) == Some((name, t[0].0));
    } else {
      NoOtherVerdict(name, k, 0);
      assert DecodeWith(m, t) == DecodeWith(m, t[1..]);
      assert t[1..][0] == t[1];
      if k == 1 {
        assert DecodeWith(m, t[1..]) == Some((name, t[1].0));
      } else {
        NoOtherVerdict(name, k, 1);
        assert DecodeWith(m, t[1..]) == DecodeWith(m, t[1..][1..]);
        assert t[1..][1..][0] == t[2];
      }
    }
  }

  /** Notifications for known statuses are distinct unless both the name
      and the status agree; in particular the same name with two different
      statuses gives two different notifications. */
  lemma {:induction false} MessageInjective(name1: string, code1: string, name2: string, code2: string)
    requires Lookup(HomeworkVerdicts, code1).Some? && Lookup(HomeworkVerdicts, code2).Some?
    ensures Message(name1, Lookup(HomeworkVerdicts, code1).value) == Message(name2, Lookup(HomeworkVerdicts, code2).value)
      ==> name1 == name2 && code1 == code2
  {
    MessageRoundTrip(name1, code1);
    MessageRoundTrip(name2, code2);
  }

  /** A notification determines the rendered homework name and the status:
      two homeworks produce the same notification only if they agree on both. */
  lemma {:induction false} ParseStatusInjective(h1: Json, h2: Json)
    ensures ParseStatus(h1).Success? && ParseStatus(h2).Success? && ParseStatus(h1).value == ParseStatus(h2).value ==>
      PyStr(Get(h1, "homework_name")) == PyStr(Get(h2, "homework_name")) && Get(h1, "status") == Get(h2, "status")
  {
    if ParseStatus(h1).Success? && ParseStatus(h2).Success? {
      var s1, s2 := Get(h1, "status").s, Get(h2, "status").s;
      MessageRoundTrip(PyStr(Get(h1, "homework_name")), s1);
      MessageRoundTrip(PyStr(Get(h2, "homework_name")), s2);
    }
  }

  /** Whatever else the answer holds, a `homeworks` list bound last is
      returned unchanged, the empty list included. */
  lemma {:induction false} CheckResponseReturnsList(fields: seq<(string, Json)>, homeworks: seq<Json>)
    ensures CheckResponse(Object(fields + [("homeworks", List(homeworks))])) == Success(homeworks)
  {
    LookupLastBindingWins(fields, "homeworks", List(homeworks));
  }

  /** A record with a name and a known status string becomes the notification
      built from that name and exactly that status's verdict, whatever other
      fields precede them. */
  lemma {:induction false} ParseStatusOfRecord(fields: seq<(string, Json)>, name: string, code: string)
    requires Lookup(HomeworkVerdicts, code).Some?
    ensures ParseStatus(Object(fields + [("homework_name", Str(name)), ("status", Str(code))]))
         == Success(Message(name, Lookup(HomeworkVerdicts, code).value))
  {
    var withName := fields + [("homework_name", Str(name))];
    assert fields + [("homework_name", Str(name)), ("status", Str(code))] == withName + [("status", Str(code))];
    LookupLastBindingWins(withName, "status", Str(code));
    LookupLastBindingWins(fields, "homework_name", Str(name));
    LookupOtherKey(withName, "status", Str(code), "homework_name");
  }
}
