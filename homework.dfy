/**
 * The checking and translation logic of homework.py: the start-up token
 * check, the structural check of the status endpoint's answer, and the
 * translation of a homework's review status into a notification text.
 * Every Python exception becomes a `Fail`/`Failure` carrying an `Error`.
 */
module HomeworkBot {
  import opened Wrappers
  import opened CustomTypes
  import opened CustomExceptions
  import opened PyFormat

  /** `HOMEWORK_VERDICTS`: review status code to the verdict shown to the student. */
  const HomeworkVerdicts: map<string, string> := map[
    "approved" := "Работа проверена: ревьюеру всё понравилось. Ура!",
    "reviewing" := "Работа взята на проверку ревьюером.",
    "rejected" := "Работа проверена: у ревьюера есть замечания."
  ]

  /* ---------------------------------------------------------------------- */
  /* check_tokens                                                            */
  /* ---------------------------------------------------------------------- */

  /**
   * What sending a token's probe request produced: the transport raised a
   * `RequestException`, or a response came back with a status code.
   */
  datatype Probe = RequestFailed | Responded(statusCode: int)

  /** One entry of the token list: the token's value, its name and its probe's outcome. */
  datatype TokenCheck = TokenCheck(token: Option<string>, name: string, probe: Probe)

  const PracticumTokenName: string := "PRACTICUM_TOKEN"
  const TelegramTokenName: string := "TELEGRAM_TOKEN"

  /**
   * One iteration of the token loop: an absent token is a `TypeError`, a
   * failed probe an `APIError`, a non-200 reply a `ValueError`; the probe
   * of an absent token is never sent.
   */
  function CheckToken(check: TokenCheck): (r: Outcome<Error>)
    ensures r.Pass? <==> check.token.Some? && check.probe == Responded(200)
    ensures check.token.None? ==>
      r == Fail(TypeError("Token " + check.name + " is not defined."))
    ensures check.token.Some? && check.probe.RequestFailed? ==>
      r == Fail(APIError("Endpoint error when checking token " + check.name + " validity."))
    ensures check.token.Some? && check.probe.Responded? && check.probe.statusCode != 200 ==>
      r == Fail(ValueError("Token " + check.name + " is not valid."))
  {
    if check.token.None? then
      Fail(TypeError("Token " + check.name + " is not defined."))
    else
      match check.probe
      case RequestFailed =>
        Fail(APIError("Endpoint error when checking token " + check.name + " validity."))
      case Responded(code) =>
        if code != 200 then Fail(ValueError("Token " + check.name + " is not valid."))
        else Pass
  }

  /** The token loop: checks the entries in list order and raises the first failure. */
  function CheckEachToken(checks: seq<TokenCheck>): (r: Outcome<Error>)
    ensures r.Pass? <==> forall k :: 0 <= k < |checks| ==> CheckToken(checks[k]).Pass?
  {
    if checks == [] then Pass
    else
      match CheckToken(checks[0])
      case Fail(e) => Fail(e)
      case Pass => CheckEachToken(checks[1..])
  }

  /** The token loop raises exactly the error of the first entry that fails. */
  lemma {:induction false} CheckEachTokenStopsAtFirstFailure(checks: seq<TokenCheck>, i: nat)
    requires i < |checks|
    requires forall k :: 0 <= k < i ==> CheckToken(checks[k]).Pass?
    requires CheckToken(checks[i]).Fail?
    ensures CheckEachToken(checks) == CheckToken(checks[i])
  {
    if i > 0 {
      assert CheckToken(checks[0]).Pass?;
      assert checks[1..][i - 1] == checks[i];
      forall k | 0 <= k < i - 1
        ensures CheckToken(checks[1..][k]).Pass?
      {
        assert checks[1..][k] == checks[k + 1];
      }
      CheckEachTokenStopsAtFirstFailure(checks[1..], i - 1);
    }
  }

  /** The two tokens `check_tokens` walks through, in its order. */
  function TokenChecks(practicumToken: Option<string>, telegramToken: Option<string>,
                       practicumProbe: Probe, telegramProbe: Probe): (checks: seq<TokenCheck>)
    ensures |checks| == 2
    ensures checks[0].name == PracticumTokenName && checks[1].name == TelegramTokenName
    ensures checks[0].token == practicumToken && checks[0].probe == practicumProbe
    ensures checks[1].token == telegramToken && checks[1].probe == telegramProbe
  {
    [TokenCheck(practicumToken, PracticumTokenName, practicumProbe),
     TokenCheck(telegramToken, TelegramTokenName, telegramProbe)]
  }

  /**
   * `check_tokens`, with each token's value and the outcome of its probe
   * given as inputs. It passes only when both tokens are set and both
   * probes answer 200.
   */
  function CheckTokens(practicumToken: Option<string>, telegramToken: Option<string>,
                       practicumProbe: Probe, telegramProbe: Probe): (r: Outcome<Error>)
    ensures r.Pass? <==>
      practicumToken.Some? && telegramToken.Some? &&
      practicumProbe == Responded(200) && telegramProbe == Responded(200)
  {
    var checks := TokenChecks(practicumToken, telegramToken, practicumProbe, telegramProbe);
    assert CheckEachToken(checks).Pass? <==> CheckToken(checks[0]).Pass? && CheckToken(checks[1]).Pass? by {
      assert forall k :: 0 <= k < |checks| ==> checks[k] == checks[0] || checks[k] == checks[1];
    }
    CheckEachToken(checks)
  }

  /**
   * The practicum token is checked first: whenever it fails, its error is
   * raised, whatever the telegram token and its probe are.
   */
  lemma PracticumTokenCheckedFirst(practicumToken: Option<string>, telegramToken: Option<string>,
                                   practicumProbe: Probe, telegramProbe: Probe)
    ensures practicumToken.None? ==>
      CheckTokens(practicumToken, telegramToken, practicumProbe, telegramProbe)
        == Fail(TypeError("Token " + PracticumTokenName + " is not defined."))
    ensures practicumToken.Some? && practicumProbe.RequestFailed? ==>
      CheckTokens(practicumToken, telegramToken, practicumProbe, telegramProbe)
        == Fail(APIError("Endpoint error when checking token " + PracticumTokenName + " validity."))
    ensures practicumToken.Some? && practicumProbe.Responded? && practicumProbe.statusCode != 200 ==>
      CheckTokens(practicumToken, telegramToken, practicumProbe, telegramProbe)
        == Fail(ValueError("Token " + PracticumTokenName + " is not valid."))
  {
  }

  /**
   * Once the practicum token has passed, the telegram token decides the
   * outcome, with the same three failures named after it.
   */
  lemma TelegramTokenCheckedSecond(practicumToken: Option<string>, telegramToken: Option<string>,
                                   practicumProbe: Probe, telegramProbe: Probe)
    requires practicumToken.Some? && practicumProbe == Responded(200)
    ensures telegramToken.None? ==>
      CheckTokens(practicumToken, telegramToken, practicumProbe, telegramProbe)
        == Fail(TypeError("Token " + TelegramTokenName + " is not defined."))
    ensures telegramToken.Some? && telegramProbe.RequestFailed? ==>
      CheckTokens(practicumToken, telegramToken, practicumProbe, telegramProbe)
        == Fail(APIError("Endpoint error when checking token " + TelegramTokenName + " validity."))
    ensures telegramToken.Some? && telegramProbe.Responded? && telegramProbe.statusCode != 200 ==>
      CheckTokens(practicumToken, telegramToken, practicumProbe, telegramProbe)
        == Fail(ValueError("Token " + TelegramTokenName + " is not valid."))
  {
    var checks := TokenChecks(practicumToken, telegramToken, practicumProbe, telegramProbe);
    if CheckToken(checks[1]).Fail? {
      CheckEachTokenStopsAtFirstFailure(checks, 1);
    }
  }

  /* ---------------------------------------------------------------------- */
  /* check_response                                                          */
  /* ---------------------------------------------------------------------- */

  const HomeworksKey: string := "homeworks"

  /** The keys every homework record must carry, in the order they are checked. */
  const HomeworkKeys: seq<string> :=
    ["id", "status", "homework_name", "reviewer_comment", "date_updated", "lesson_name"]

  /**
   * The text of the `KeyError` raised for a missing key: the key, where it
   * was missing, and the original `KeyError` shown as the key's `repr`.
   */
  function NoKeyMessage(key: string, place: string): (message: string)
    ensures message == "No key " + key + " in " + place + ": '" + key + "'"
  {
    var head := "No key " + key + " in " + place;
    assert ": " + "'" == ": '";
    assert head + ": " + PyRepr(Some(StrField(key))) == head + (": " + "'") + key + "'";
    head + ": " + PyRepr(Some(StrField(key)))
  }

  /** The record carries every one of `keys`. */
  predicate HasKeys(homework: Homework, keys: seq<string>)
  {
    forall k :: 0 <= k < |keys| ==> keys[k] in homework
  }

  /** The inner key loop: the position of the first of `keys` the record lacks. */
  function FirstMissingKey(homework: Homework, keys: seq<string>): (r: Option<nat>)
    ensures r.None? <==> HasKeys(homework, keys)
    ensures r.Some? ==>
      r.value < |keys| && keys[r.value] !in homework &&
      forall k :: 0 <= k < r.value ==> keys[k] in homework
  {
    if keys == [] then None
    else if keys[0] !in homework then Some(0)
    else
      match FirstMissingKey(homework, keys[1..])
      case None => None
      case Some(j) => Some(j + 1)
  }

  /**
   * The outer record loop: records in list order, each checked against
   * `keys` in order; the first absent key raises a `KeyError` naming it.
   */
  function CheckHomeworks(homeworks: seq<Homework>, keys: seq<string>): (r: Outcome<Error>)
    ensures r.Pass? <==> forall i :: 0 <= i < |homeworks| ==> HasKeys(homeworks[i], keys)
  {
    if homeworks == [] then Pass
    else
      match FirstMissingKey(homeworks[0], keys)
      case Some(j) => Fail(KeyError(NoKeyMessage(keys[j], "homework")))
      case None =>
        var rest := CheckHomeworks(homeworks[1..], keys);
        assert rest.Pass? ==> forall i :: 0 <= i < |homeworks| ==> HasKeys(homeworks[i], keys) by {
          if rest.Pass? {
            forall i | 0 <= i < |homeworks| ensures HasKeys(homeworks[i], keys) {
              if i > 0 { assert homeworks[i] == homeworks[1..][i - 1]; }
            }
          }
        }
        rest
  }

  /**
   * `check_response`: the answer must hold a `homeworks` list whose every
   * record carries the six required keys. Nothing else in the answer is
   * looked at. A `homeworks` bound to an int makes the `for` loop raise.
   */
  function CheckResponse(response: JSONAnswer): (r: Outcome<Error>)
    ensures r.Pass? <==>
      HomeworksKey in response && response[HomeworksKey].HomeworkList? &&
      forall i :: 0 <= i < |response[HomeworksKey].homeworks| ==>
        HasKeys(response[HomeworksKey].homeworks[i], HomeworkKeys)
    ensures HomeworksKey in response && response[HomeworksKey].IntValue? ==>
      r == Fail(TypeError("'int' object is not iterable"))
  {
    if HomeworksKey !in response then
      Fail(KeyError(NoKeyMessage(HomeworksKey, "response")))
    else
      match response[HomeworksKey]
      case IntValue(_) => Fail(TypeError("'int' object is not iterable"))
      case HomeworkList(homeworks) => CheckHomeworks(homeworks, HomeworkKeys)
  }

  /** Without a `homeworks` entry the answer is rejected before any record is read. */
  lemma CheckResponseMissingHomeworks(response: JSONAnswer)
    requires HomeworksKey !in response
    ensures CheckResponse(response) == Fail(KeyError("No key homeworks in response: 'homeworks'"))
  {
    assert "No key " + "homeworks" == "No key homeworks";
    assert "No key homeworks" + " in " == "No key homeworks in ";
    assert "No key homeworks in " + "response" == "No key homeworks in response";
    assert "No key homeworks in response" + ": '" == "No key homeworks in response: '";
    assert "No key homeworks in response: '" + "homeworks" == "No key homeworks in response: 'homeworks";
    assert "No key homeworks in response: 'homeworks" + "'" == "No key homeworks in response: 'homeworks'";
  }

  /** The key reported for a record is the first of `keys` it lacks, whatever else it lacks. */
  lemma FirstMissingKeyIsFirst(homework: Homework, keys: seq<string>, j: nat)
    requires j < |keys| && keys[j] !in homework
    requires forall k :: 0 <= k < j ==> keys[k] in homework
    ensures FirstMissingKey(homework, keys) == Some(j)
  {
  }

  /**
   * The record loop raises for the first incomplete record, naming the
   * first key that record lacks.
   */
  lemma {:induction false} CheckHomeworksNamesFirstMissingKey(homeworks: seq<Homework>, keys: seq<string>, i: nat, j: nat)
    requires i < |homeworks|
    requires forall p :: 0 <= p < i ==> HasKeys(homeworks[p], keys)
    requires j < |keys| && keys[j] !in homeworks[i]
    requires forall k :: 0 <= k < j ==> keys[k] in homeworks[i]
    ensures CheckHomeworks(homeworks, keys) == Fail(KeyError(NoKeyMessage(keys[j], "homework")))
  {
    if i == 0 {
      FirstMissingKeyIsFirst(homeworks[0], keys, j);
    } else {
      assert HasKeys(homeworks[0], keys);
      assert homeworks[1..][i - 1] == homeworks[i];
      forall p | 0 <= p < i - 1
        ensures HasKeys(homeworks[1..][p], keys)
      {
        assert homeworks[1..][p] == homeworks[p + 1];
      }
      CheckHomeworksNamesFirstMissingKey(homeworks[1..], keys, i - 1, j);
    }
  }

  /**
   * `check_response` on a homework list reports the first missing key of
   * the first incomplete record: records in list order, keys in the order
   * id, status, homework_name, reviewer_comment, date_updated, lesson_name.
   */
  lemma CheckResponseNamesFirstMissingKey(response: JSONAnswer, homeworks: seq<Homework>, i: nat, j: nat)
    requires HomeworksKey in response && response[HomeworksKey] == HomeworkList(homeworks)
    requires i < |homeworks|
    requires forall p :: 0 <= p < i ==> HasKeys(homeworks[p], HomeworkKeys)
    requires j < |HomeworkKeys| && HomeworkKeys[j] !in homeworks[i]
    requires forall k :: 0 <= k < j ==> HomeworkKeys[k] in homeworks[i]
    ensures CheckResponse(response) == Fail(KeyError(NoKeyMessage(HomeworkKeys[j], "homework")))
  {
    CheckHomeworksNamesFirstMissingKey(homeworks, HomeworkKeys, i, j);
  }

  /** An empty homework list always passes. */
  lemma CheckResponseAcceptsEmptyList(response: JSONAnswer)
    requires HomeworksKey in response && response[HomeworksKey] == HomeworkList([])
    ensures CheckResponse(response) == Pass
  {
  }

  /**
   * Only the `homeworks` entry matters: two answers that agree on it get the
   * same verdict, whatever `current_date` or any other key holds.
   */
  lemma CheckResponseReadsOnlyHomeworks(response1: JSONAnswer, response2: JSONAnswer)
    requires (HomeworksKey in response1) == (HomeworksKey in response2)
    requires HomeworksKey in response1 ==> response1[HomeworksKey] == response2[HomeworksKey]
    ensures CheckResponse(response1) == CheckResponse(response2)
  {
  }

  /* ---------------------------------------------------------------------- */
  /* parse_status                                                            */
  /* ---------------------------------------------------------------------- */

  /** `homework.get(key)`. */
  function Get(homework: Homework, key: string): (r: Option<Field>)
    ensures r.Some? <==> key in homework
    ensures r.Some? ==> r.value == homework[key]
  {
    if key in homework then Some(homework[key]) else None
  }

  /** `status` is a key of `HOMEWORK_VERDICTS`: a string, and one of the three codes. */
  predicate IsVerdictCode(status: Option<Field>): (b: bool)
    ensures b <==>
      status == Some(StrField("approved")) ||
      status == Some(StrField("reviewing")) ||
      status == Some(StrField("rejected"))
  {
    status.Some? && status.value.StrField? && status.value.s in HomeworkVerdicts
  }

  const StatusChangedPrefix: string := "Изменился статус проверки работы \""

  /**
   * `parse_status`: the notification for a record's status. Only the
   * verdict lookup can fail; the name is read with `get`, so a missing name
   * is written as "None".
   */
  function ParseStatus(homework: Homework): (r: Result<string, Error>)
    ensures r.Success? <==> IsVerdictCode(Get(homework, "status"))
    ensures r.Failure? ==>
      r.error == KeyError("No key " + PyStr(Get(homework, "status")) + " in verdicts: " + PyRepr(Get(homework, "status")))
  {
    var homeworkName := Get(homework, "homework_name");
    var status := Get(homework, "status");
    if IsVerdictCode(status) then
      var verdict := HomeworkVerdicts[status.value.s];
      Success(StatusChangedPrefix + PyStr(homeworkName) + "\". " + verdict)
    else
      Failure(KeyError("No key " + PyStr(status) + " in verdicts: " + PyRepr(status)))
  }

  /**
   * For each of the three known codes the notification is exactly the
   * template filled with the record's name and the code's verdict.
   */
  lemma ParseStatusKnownCode(homework: Homework, name: string, code: string)
    requires Get(homework, "homework_name") == Some(StrField(name))
    requires Get(homework, "status") == Some(StrField(code))
    ensures code == "approved" ==>
      ParseStatus(homework) == Success("Изменился статус проверки работы \"" + name + "\". " +
        "Работа проверена: ревьюеру всё понравилось. Ура!")
    ensures code == "reviewing" ==>
      ParseStatus(homework) == Success("Изменился статус проверки работы \"" + name + "\". " +
        "Работа взята на проверку ревьюером.")
    ensures code == "rejected" ==>
      ParseStatus(homework) == Success("Изменился статус проверки работы \"" + name + "\". " +
        "Работа проверена: у ревьюера есть замечания.")
  {
  }

  /** Every code outside the table raises a `KeyError` naming that code. */
  lemma ParseStatusUnknownCode(homework: Homework, code: string)
    requires Get(homework, "status") == Some(StrField(code))
    requires code != "approved" && code != "reviewing" && code != "rejected"
    ensures ParseStatus(homework) == Failure(KeyError("No key " + code + " in verdicts: '" + code + "'"))
  {
    var head := "No key " + code;
    assert " in verdicts: " + "'" == " in verdicts: '";
    assert head + " in verdicts: " + ("'" + code + "'") == head + (" in verdicts: " + "'") + code + "'";
  }

  /** A record without a status raises, because `None` is not a key of the table. */
  lemma ParseStatusMissingStatus(homework: Homework)
    requires "status" !in homework
    ensures ParseStatus(homework) == Failure(KeyError("No key None in verdicts: None"))
  {
    assert "No key " + "None" + " in verdicts: " + "None" == "No key None in verdicts: None";
  }

  /**
   * A missing name does not raise: whether `parse_status` succeeds depends on
   * the status alone, and a record without a name is announced as "None".
   */
  lemma ParseStatusFailsOnlyOnVerdict(homework: Homework, name: Field)
    requires "homework_name" !in homework
    ensures ParseStatus(homework["homework_name" := name]).Success? == ParseStatus(homework).Success?
    ensures ParseStatus(homework).Success? ==>
      ParseStatus(homework).value ==
        "Изменился статус проверки работы \"" + "None" + "\". " + HomeworkVerdicts[homework["status"].s]
  {
  }

  /**
   * The notification identifies the status: two records with the same name
   * and different known codes produce different texts.
   */
  lemma ParseStatusDistinguishesCodes(homework1: Homework, homework2: Homework)
    requires Get(homework1, "homework_name") == Get(homework2, "homework_name")
    requires IsVerdictCode(Get(homework1, "status")) && IsVerdictCode(Get(homework2, "status"))
    requires Get(homework1, "status") != Get(homework2, "status")
    ensures ParseStatus(homework1).value != ParseStatus(homework2).value
  {
  }

  /** The translation of a record quoted as an example of the bot's output. */
  lemma ParseStatusApprovedExample()
    ensures ParseStatus(map["homework_name" := StrField("diplom"), "status" := StrField("approved")]) ==
      Success("Изменился статус проверки работы \"" + "diplom" + "\". " +
        "Работа проверена: ревьюеру всё понравилось. Ура!")
  {
  }

  /** An unknown code in an otherwise complete-looking record. */
  lemma ParseStatusPendingExample()
    ensures ParseStatus(map["homework_name" := StrField("diplom"), "status" := StrField("pending")]) ==
      Failure(KeyError("No key pending in verdicts: 'pending'"))
  {
    ParseStatusUnknownCode(map["homework_name" := StrField("diplom"), "status" := StrField("pending")], "pending");
    assert "No key " + "pending" == "No key pending";
    assert "No key pending" + " in verdicts: '" == "No key pending in verdicts: '";
    assert "No key pending in verdicts: '" + "pending" == "No key pending in verdicts: 'pending";
    assert "No key pending in verdicts: 'pending" + "'" == "No key pending in verdicts: 'pending'";
  }
}
