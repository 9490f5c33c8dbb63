/** The JSON shapes of the homework-status API, as declared in custom_types.py. */
module CustomTypes {

  /** A value stored in a homework record: `Union[int, str]`. */
  datatype Field = IntField(i: int) | StrField(s: string)

  /** `Homework`: a dictionary from field name to an int or a string. */
  type Homework = map<string, Field>

  /** A value in the API answer: `Union[int, list[Homework]]`. */
  datatype AnswerValue = IntValue(n: int) | HomeworkList(homeworks: seq<Homework>)

  /** `JSONAnswer`: the decoded body of the status endpoint's reply. */
  type JSONAnswer = map<string, AnswerValue>
}
