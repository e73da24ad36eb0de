/** The Express error handler of last resort (`errorHandler`). */
module ErrorHandler {
  import opened Wrappers
  import Json
  import opened Http
  import opened ResponseUtil

  /** What the handler reads from a thrown error. */
  datatype Thrown = Thrown(status: Option<int>, message: string, stack: string)

  /** The reply to an unhandled error: `err.status || 500`, a fixed error name, and the message and stack
      only outside production. */
  function HandleError(err: Thrown, nodeEnv: Option<string>): (r: Reply)
    ensures r.status == (if err.status.Some? && err.status.value != 0 then err.status.value else 500)
    ensures r.body.Obj?
    ensures Json.Field(r.body, "error") == Some(Json.Str("Internal server error"))
    ensures IsProduction(nodeEnv) ==> Json.Field(r.body, "message") == Some(Json.Str("An unexpected error occurred"))
    ensures !IsProduction(nodeEnv) ==> Json.Field(r.body, "message") == Some(Json.Str(err.message))
    ensures "stack" in r.body.fields <==> !IsProduction(nodeEnv)
    ensures IsProduction(nodeEnv) ==> r.body.fields.Keys == {"error", "message"}
  {
    var message := if IsProduction(nodeEnv) then "An unexpected error occurred" else err.message;
    var base := map["error" := Json.Str("Internal server error"), "message" := Json.Str(message)];
    var body := if !IsProduction(nodeEnv) then base["stack" := Json.Str(err.stack)] else base;
    var status := if err.status.Some? && err.status.value != 0 then err.status.value else 500;
    Reply(status, Json.Obj(body))
  }

  /** In production nothing the error carries reaches the client except its status. */
  lemma ProductionRedacts(e1: Thrown, e2: Thrown)
    requires e1.status == e2.status
    ensures HandleError(e1, Some("production")) == HandleError(e2, Some("production"))
  {
  }
}
