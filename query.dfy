/**
 * The request description that the app hands to its fetching client
 * (react-fetching-library's `Action`): which backend (`clientIdentifier`),
 * which endpoint and method, and the optional body, headers and query
 * parameters.
 */
module Query {
  import opened Js
  import opened Wrappers

  datatype Action = Action(
    httpMethod: string,
    endpoint: string,
    clientIdentifier: string,
    body: Option<Value>,
    headers: Option<map<string, string>>,
    params: Option<Object>)
}
