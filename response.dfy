/** Validation and unpacking of the decoded answer (`_handle_api_call`). */
module Response {
  import opened Wrappers
  import opened Json
  import opened Errors

  /** The member the service sets when it rejects a request. */
  const ErrorMessageKey: string := "Error Message"

  /** Fails on an empty answer and on an answer carrying "Error Message";
      otherwise looks up the data entry, then the meta-data entry, and returns
      both untouched. A lookup of a missing entry fails with KeyError. */
  function HandleApiCall(response: JsonObject, dataKey: string, metaDataKey: string := "Meta Data")
    : (r: Result<(Json, Json), Error>)
    ensures response == map[] ==> r == Failure(NoReturnMessage)
    ensures ErrorMessageKey in response ==> r == Failure(ApiErrorMessage(response[ErrorMessageKey]))
    ensures r.Success? <==>
      response != map[] && ErrorMessageKey !in response && dataKey in response && metaDataKey in response
    ensures r.Success? ==> r.value == (response[dataKey], response[metaDataKey])
    ensures response != map[] && ErrorMessageKey !in response && dataKey !in response ==>
      r == Failure(KeyNotFound(dataKey))
    ensures response != map[] && ErrorMessageKey !in response && dataKey in response && metaDataKey !in response ==>
      r == Failure(KeyNotFound(metaDataKey))
  {
    if ErrorMessageKey in response || |response| == 0 then
      if |response| != 0 then Failure(ApiErrorMessage(response[ErrorMessageKey]))
      else Failure(NoReturnMessage)
    else if dataKey !in response then Failure(KeyNotFound(dataKey))
    else if metaDataKey !in response then Failure(KeyNotFound(metaDataKey))
    else Success((response[dataKey], response[metaDataKey]))
  }

  /** Unpacking gives back what an answer was built from: put a data entry and
      a meta-data entry into any answer without "Error Message", and exactly
      those two values come back, whatever else the answer holds. */
  lemma UnpackReturnsStoredEntries(rest: JsonObject, dataKey: string, metaDataKey: string, data: Json, metaData: Json)
    requires ErrorMessageKey !in rest && dataKey != ErrorMessageKey && metaDataKey != ErrorMessageKey
    requires dataKey != metaDataKey
    ensures HandleApiCall(rest[dataKey := data][metaDataKey := metaData], dataKey, metaDataKey)
         == Success((data, metaData))
  {
    var response := rest[dataKey := data][metaDataKey := metaData];
    assert metaDataKey in response;
  }

  /** An answer carrying "Error Message" never yields data, whatever other
      entries it has. */
  lemma ErrorMessageWins(rest: JsonObject, message: Json, dataKey: string, metaDataKey: string)
    ensures HandleApiCall(rest[ErrorMessageKey := message], dataKey, metaDataKey)
         == Failure(ApiErrorMessage(message))
  {
  }

  /** The answer {"Error Message": "bad symbol"} fails with that message; the
      empty answer fails with no message; an answer with only "Meta Data"
      fails on the data key. */
  lemma ResponseExamples(dataKey: string)
    requires dataKey != "Meta Data"
    ensures HandleApiCall(map["Error Message" := JString("bad symbol")], dataKey)
         == Failure(ApiErrorMessage(JString("bad symbol")))
    ensures HandleApiCall(map[], dataKey) == Failure(NoReturnMessage)
    ensures dataKey != ErrorMessageKey ==>
      HandleApiCall(map["Meta Data" := JObject(map[])], dataKey) == Failure(KeyNotFound(dataKey))
  {
    assert "Meta Data" != ErrorMessageKey;
  }
}
