/** The request bodies as parsed JSON, and the two zod schemas that validate
    them (`ideaSchema` and `mvpSchema`), producing either the validated field
    or the message of the first validation issue. */
module Schemas {
  import opened Wrappers

  /** A value produced by `JSON.parse`. */
  datatype Json =
    | JNull
    | JBool(b: bool)
    | JNumber(n: real)
    | JString(s: string)
    | JArray(items: seq<Json>)
    | JObject(fields: map<string, Json>)

  const TopicRequired := "Topic is required"
  const TopicTooLong := "Topic too long"
  const ProjectIdNotInteger := "Project ID must be an integer"

  /** The type name zod reports for a value; `None` is an absent field. */
  function TypeName(v: Option<Json>): string
  {
    match v
    case None => "undefined"
    case Some(JNull) => "null"
    case Some(JBool(_)) => "boolean"
    case Some(JNumber(_)) => "number"
    case Some(JString(_)) => "string"
    case Some(JArray(_)) => "array"
    case Some(JObject(_)) => "object"
  }

  /** zod's default message for a value of the wrong type. */
  function InvalidType(expected: string, received: Option<Json>): (m: string)
    ensures received.None? <==> m == "Required"
    ensures received.Some? ==> m == "Expected " + expected + ", received " + TypeName(received)
  {
    if received.None? then "Required"
    else "Expected " + expected + ", received " + TypeName(received)
  }

  function Field(fields: map<string, Json>, key: string): Option<Json>
  {
    if key in fields then Some(fields[key]) else None
  }

  /** The topic length `ideaSchema` admits: 1 to 100 characters. */
  predicate ValidTopic(topic: string)
  {
    1 <= |topic| <= 100
  }

  predicate IsInteger(n: real)
  {
    n.Floor as real == n
  }

  /** `ideaSchema.safeParse(body)`: the topic, or the first issue's message. */
  function ParseIdeaBody(body: Json): (r: Result<string, string>)
    ensures r.Success? <==>
              body.JObject? && "topic" in body.fields && body.fields["topic"].JString?
              && ValidTopic(body.fields["topic"].s)
    ensures r.Success? ==> r.value == body.fields["topic"].s
    ensures body.JObject? && "topic" in body.fields && body.fields["topic"].JString? ==>
              (|body.fields["topic"].s| == 0 ==> r == Failure(TopicRequired)) &&
              (|body.fields["topic"].s| > 100 ==> r == Failure(TopicTooLong))
    ensures body.JObject? && "topic" !in body.fields ==> r == Failure("Required")
    ensures (body.JObject? && "topic" in body.fields && !body.fields["topic"].JString?) ==>
              r == Failure(InvalidType("string", Some(body.fields["topic"])))
    ensures !body.JObject? ==> r == Failure(InvalidType("object", Some(body)))
  {
    match body
    case JObject(fields) =>
      (match Field(fields, "topic")
       case Some(JString(topic)) =>
         if |topic| < 1 then Failure(TopicRequired)
         else if |topic| > 100 then Failure(TopicTooLong)
         else Success(topic)
       case other => Failure(InvalidType("string", other)))
    case _ => Failure(InvalidType("object", Some(body)))
  }

  /** `mvpSchema.safeParse(body)`: the project id, or the first issue's message. */
  function ParseMvpBody(body: Json): (r: Result<int, string>)
    ensures r.Success? <==>
              body.JObject? && "projectId" in body.fields && body.fields["projectId"].JNumber?
              && IsInteger(body.fields["projectId"].n)
    ensures r.Success? ==> r.value as real == body.fields["projectId"].n
    ensures (body.JObject? && "projectId" in body.fields && body.fields["projectId"].JNumber?
             && !IsInteger(body.fields["projectId"].n)) ==> r == Failure(ProjectIdNotInteger)
    ensures body.JObject? && "projectId" !in body.fields ==> r == Failure("Required")
    ensures (body.JObject? && "projectId" in body.fields && !body.fields["projectId"].JNumber?) ==>
              r == Failure(InvalidType("number", Some(body.fields["projectId"])))
    ensures !body.JObject? ==> r == Failure(InvalidType("object", Some(body)))
  {
    match body
    case JObject(fields) =>
      (match Field(fields, "projectId")
       case Some(JNumber(n)) =>
         if IsInteger(n) then Success(n.Floor) else Failure(ProjectIdNotInteger)
       case other => Failure(InvalidType("number", other)))
    case _ => Failure(InvalidType("object", Some(body)))
  }
}
