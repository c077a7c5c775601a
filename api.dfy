/**
  What the two `/api/analyze` handlers exchange with Express and with the
  `Portfolio` model: the reply sent, the outcome of `Portfolio.findOne`, and the
  projection of a found document into the response body.
*/
module Api {
  import opened Js
  import opened PortfolioSchema

  /**
    `NoReply` is a request the handler never answers: it is still awaiting a
    worker that has not reported `close` or `error`.
  */
  datatype Reply = NoReply | Reply(status: int, body: Value)

  /** The outcome of an awaited `Portfolio.findOne`; `DbError` is a rejected promise. */
  datatype DbReply = Found(doc: Portfolio) | NotFound | DbError(message: string)

  const TextRequired: string := "Text input is required"
  const InternalError: string := "Internal server error"

  /** `{ error: message }` */
  function ErrorBody(message: string): Value
  {
    Obj(map["error" := Str(message)])
  }

  function AllocationValue(a: Allocation): Value
  {
    Obj(map["stocks" := Num(a.stocks), "bonds" := Num(a.bonds), "cash" := Num(a.cash), "crypto" := Num(a.crypto)])
  }

  /** `{ description, asset_allocation, visualisation_color }` of a found document. */
  function Project(doc: Portfolio): (r: Value)
    ensures r.Obj? && r.fields.Keys == {"description", "asset_allocation", "visualisation_color"}
    ensures r.fields["description"] == Str(doc.description)
    ensures r.fields["asset_allocation"] == AllocationValue(doc.asset_allocation)
    ensures doc.visualisation_color.Some? ==> r.fields["visualisation_color"] == Str(doc.visualisation_color.value)
    ensures doc.visualisation_color.None? ==> r.fields["visualisation_color"] == Null
  {
    Obj(map[
      "description" := Str(doc.description),
      "asset_allocation" := AllocationValue(doc.asset_allocation),
      "visualisation_color" := if doc.visualisation_color.Some? then Str(doc.visualisation_color.value) else Null])
  }

  /** `const { text } = req.body;` followed by `!text || typeof text !== 'string'`. */
  predicate TextAccepted(text: Value)
  {
    Truthy(text) && text.Str?
  }
}
