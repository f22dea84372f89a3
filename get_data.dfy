/** `createReturnData`: the `{ success: true, data, pagination? }` envelope of
    every successful answer. */
module GetData {
  import opened Wrappers
  import opened Json
  import opened Pagination

  /** `{ success: true, data, ...(pagination && { pagination }) }`. */
  function CreateReturnData(data: Json, pagination: Option<Pagination>): (j: Json)
    ensures ObjectKeys(j) == ["success", "data"] + (if pagination.Some? then ["pagination"] else [])
    ensures Field(j, "success") == Some(JBool(true)) && Field(j, "data") == Some(data)
    ensures Field(j, "pagination") == if pagination.Some? then Some(PaginationJson(pagination.value)) else None
  {
    match pagination
    case None =>
      var fields := [("success", JBool(true)), ("data", data)];
      GetAt(fields, 1);
      GetSpec(fields, "pagination");
      JObj(fields)
    case Some(p) =>
      var fields := [("success", JBool(true)), ("data", data), ("pagination", PaginationJson(p))];
      GetAt(fields, 1);
      GetAt(fields, 2);
      JObj(fields)
  }
}
