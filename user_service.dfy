/** `UserService.get_user_info` (communicator/services/user_service.py): the SSO header fallback. */
module UserService {
  import opened Wrappers
  import opened Text
  import opened Errors
  import opened Models

  /** Request headers in arrival order; the lookup ignores ASCII case, as the web framework's does. */
  type Headers = seq<(string, string)>

  /** `headers.get(name)`: the first header whose name matches, or None. */
  function Get(headers: Headers, name: string): (r: Option<string>)
    ensures r.Some? <==> exists k :: 0 <= k < |headers| && Lower(headers[k].0) == Lower(name)
    ensures r.Some? ==> exists k :: 0 <= k < |headers| && Lower(headers[k].0) == Lower(name) && headers[k].1 == r.value
  {
    if headers == [] then None
    else if Lower(headers[0].0) == Lower(name) then Some(headers[0].1)
    else
      var r := Get(headers[1..], name);
      assert forall k :: 0 <= k < |headers[1..]| ==> headers[1..][k] == headers[k + 1];
      r
  }

  predicate Truthy(v: Option<string>) {
    v.Some? && v.value != ""
  }

  const MissingUidDetail := "'Uid' nor 'X-Remote-Uid' were present in the headers: "

  /**
   * `get_user_info()`: uid from "Uid", falling back to "X-Remote-Uid" when that is falsy;
   * display name always "Cn". `rendered` is the framework's text for all the headers,
   * which the error's detail quotes.
   */
  function GetUserInfo(headers: Headers, rendered: string): (r: Result<User, CommError>)
    ensures Truthy(Get(headers, "Uid")) ==> r == Success(User(Get(headers, "Uid").value, Get(headers, "Cn")))
    ensures !Truthy(Get(headers, "Uid")) && Truthy(Get(headers, "X-Remote-Uid")) ==>
      r == Success(User(Get(headers, "X-Remote-Uid").value, Get(headers, "Cn")))
    ensures r.Failure? <==> !Truthy(Get(headers, "Uid")) && !Truthy(Get(headers, "X-Remote-Uid"))
    ensures r.Failure? ==> r.error == CommError(Numeric(1100), "invalid_sso_credentials", MissingUidDetail + rendered)
    ensures r.Success? ==> r.value.uid != "" && r.value.displayName == Get(headers, "Cn")
  {
    var uid := Get(headers, "Uid");
    var cn := Get(headers, "Cn");
    var uid' := if !Truthy(uid) then Get(headers, "X-Remote-Uid") else uid;
    if !Truthy(uid') then
      Failure(CommError(Numeric(1100), "invalid_sso_credentials", MissingUidDetail + rendered))
    else
      Success(User(uid'.value, cn))
  }

  /** The lookup is case-insensitive: a header sent as "uid" is found as "Uid". */
  lemma GetIgnoresCase(name: string, value: string, rest: Headers)
    ensures Get([(Lower(name), value)] + rest, name) == Some(value)
  {
    LowerIdempotent(name);
  }

  lemma LowerIdempotent(s: string)
    ensures Lower(Lower(s)) == Lower(s)
  {
  }
}
