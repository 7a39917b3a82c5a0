/** The `/status/:imageId` route: a read-only lookup in the status store. */
module StatusRoute {
  import opened Types

  const ImageIdRequired := "imageId is required"

  /** What the handler sends back. */
  datatype StatusResponse =
    | BadRequest(details: seq<string>)  // 400, `{error: "Validation error", details}`
    | NotFound                          // 404, `{error: "Image not found"}`
    | Found(record: StatusUpdate)       // the stored record, sent as it is

  /** The messages the parameter schema reports: `imageId` is a required string,
      so an absent or empty one fails. */
  function ImageIdErrors(imageId: Option<string>): (errs: seq<string>)
    ensures errs == [] <==> imageId.Some? && imageId.value != ""
    ensures errs != [] ==> errs == [ImageIdRequired]
  {
    if imageId.Some? && imageId.value != "" then [] else [ImageIdRequired]
  }

  /** GET /status/:imageId over the store's records. */
  function GetImageStatus(imageId: Option<string>, store: map<string, StatusUpdate>): (r: StatusResponse)
    ensures r.BadRequest? <==> ImageIdErrors(imageId) != []
    ensures r.BadRequest? ==> r.details == [ImageIdRequired]
    ensures r.NotFound? <==> ImageIdErrors(imageId) == [] && imageId.value !in store
    ensures r.Found? <==> ImageIdErrors(imageId) == [] && imageId.value in store
    ensures r.Found? ==> r.record == store[imageId.value]
  {
    var errs := ImageIdErrors(imageId);
    if errs != [] then BadRequest(errs)
    else if imageId.value !in store then NotFound
    else Found(store[imageId.value])
  }
}
