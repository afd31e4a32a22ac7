/**
 * The API-key middleware. Requests to admin, schema and health paths pass
 * through with no organization; any other request carrying an `X-API-Key`
 * header must name an active organization, which is attached to the request,
 * or it is answered with 401. The organization table is an in-memory
 * sequence; the downstream handler is represented by the `Downstream`
 * response.
 */
module ApiKeyAuth {
  import opened Text

  /** An organization row, as far as the lookup reads it. */
  datatype Organization = Organization(id: string, apiKey: string, isActive: bool)

  /** Path prefixes that skip authentication. */
  const ExemptPrefixes: seq<string> := ["/admin/", "/api/schema/", "/health/", "/api/v1/chat/health/"]

  /** `any(path.startswith(p) for p in prefixes)`. */
  function AnyPrefix(path: string, prefixes: seq<string>): (b: bool)
    ensures b <==> exists i :: 0 <= i < |prefixes| && StartsWith(path, prefixes[i])
  {
    if prefixes == [] then false
    else
      assert forall i :: 1 <= i < |prefixes| ==> prefixes[i] == prefixes[1..][i - 1];
      StartsWith(path, prefixes[0]) || AnyPrefix(path, prefixes[1..])
  }

  /** `_is_exempt`. */
  predicate IsExempt(path: string) {
    AnyPrefix(path, ExemptPrefixes)
  }

  /** Exemption is by prefix with the trailing slash: the health paths and
      anything under them are exempt, while the bare `/admin` and the chat
      endpoint itself are not. */
  lemma ExemptExamples()
    ensures IsExempt("/admin/")
    ensures IsExempt("/health/db")
    ensures IsExempt("/api/v1/chat/health/")
    ensures !IsExempt("/admin")
    ensures !IsExempt("/api/v1/chat/")
    ensures !IsExempt("/api/v1/documents/")
  {
    assert StartsWith("/admin/", ExemptPrefixes[0]);
    assert StartsWith("/health/db", ExemptPrefixes[2]);
    assert StartsWith("/api/v1/chat/health/", ExemptPrefixes[3]);
    DiffersAt("/admin", ExemptPrefixes[0], 6);
    DiffersAt("/admin", ExemptPrefixes[1], 2);
    DiffersAt("/admin", ExemptPrefixes[2], 1);
    DiffersAt("/admin", ExemptPrefixes[3], 2);
    DiffersAt("/api/v1/chat/", ExemptPrefixes[0], 2);
    DiffersAt("/api/v1/chat/", ExemptPrefixes[1], 5);
    DiffersAt("/api/v1/chat/", ExemptPrefixes[2], 1);
    DiffersAt("/api/v1/documents/", ExemptPrefixes[0], 2);
    DiffersAt("/api/v1/documents/", ExemptPrefixes[1], 5);
    DiffersAt("/api/v1/documents/", ExemptPrefixes[2], 1);
    DiffersAt("/api/v1/documents/", ExemptPrefixes[3], 8);
  }

  /** A path whose character at `i` differs from the prefix's, or that ends
      before `i`, does not start with the prefix. */
  lemma DiffersAt(path: string, prefix: string, i: nat)
    requires i < |prefix|
    requires i >= |path| || path[i] != prefix[i]
    ensures !StartsWith(path, prefix)
  {
    if |prefix| <= |path| {
      assert path[..|prefix|][i] != prefix[i];
    }
  }

  /** `Organization.objects.get(api_key=key, is_active=True)`: the matching
      active organization, or none. */
  function ActiveByKey(orgs: seq<Organization>, key: string): (r: Option<Organization>)
    ensures r.Some? ==> r.value in orgs && r.value.apiKey == key && r.value.isActive
    ensures r.None? <==> forall o :: o in orgs ==> !(o.apiKey == key && o.isActive)
  {
    if orgs == [] then None
    else if orgs[0].apiKey == key && orgs[0].isActive then Some(orgs[0])
    else ActiveByKey(orgs[1..], key)
  }

  /** API keys are unique across organizations. */
  predicate UniqueKeys(orgs: seq<Organization>) {
    forall i, j :: 0 <= i < |orgs| && 0 <= j < |orgs| && orgs[i].apiKey == orgs[j].apiKey ==> orgs[i] == orgs[j]
  }

  /** With unique keys the lookup finds the one active organization holding
      the key. */
  lemma {:induction false} ActiveByKeyUnique(orgs: seq<Organization>, key: string, o: Organization)
    requires UniqueKeys(orgs)
    requires o in orgs && o.apiKey == key && o.isActive
    ensures ActiveByKey(orgs, key) == Some(o)
  {
    var r := ActiveByKey(orgs, key);
    var i :| 0 <= i < |orgs| && orgs[i] == o;
    var j :| 0 <= j < |orgs| && orgs[j] == r.value;
  }

  /** What the middleware decides: pass the request on with this
      organization attached, or answer with an error body and status. */
  datatype Decision = Forward(organization: Option<Organization>) | Reject(status: int, error: string)

  const InvalidApiKey: string := "Invalid API key"

  /** The decision for a path and the `X-API-Key` header (absent or not). */
  function Authenticate(path: string, apiKey: Option<string>, orgs: seq<Organization>): (d: Decision)
    ensures IsExempt(path) ==> d == Forward(None)
    ensures !IsExempt(path) && apiKey.Some? && apiKey.value != "" ==>
      match ActiveByKey(orgs, apiKey.value)
        case Some(o) => d == Forward(Some(o)) && o.apiKey == apiKey.value && o.isActive
        case None => d == Reject(401, InvalidApiKey)
    ensures !IsExempt(path) && (apiKey.None? || apiKey.value == "") ==> d == Forward(None)
    ensures d.Reject? <==> !IsExempt(path) && apiKey.Some? && apiKey.value != ""
                            && forall o :: o in orgs ==> !(o.apiKey == apiKey.value && o.isActive)
    ensures d.Forward? && d.organization.Some? ==> d.organization.value in orgs && d.organization.value.isActive
  {
    if IsExempt(path) then Forward(None)
    else if apiKey.Some? && apiKey.value != "" then
      match ActiveByKey(orgs, apiKey.value)
        case Some(o) => Forward(Some(o))
        case None => Reject(401, InvalidApiKey)
    else Forward(None)
  }

  /** The request as the middleware sees it: the path, the key header if
      present, and the organization attribute it sets. */
  class Request {
    const path: string
    const apiKey: Option<string>
    var organization: Option<Organization>

    constructor(path: string, apiKey: Option<string>)
      ensures this.path == path && this.apiKey == apiKey && organization == None
    {
      this.path := path;
      this.apiKey := apiKey;
      organization := None;
    }
  }

  /** The response: whatever the downstream handler returns, or a JSON error. */
  datatype Response = Downstream | JsonError(status: int, error: string)

  /** `__call__`: a forwarded request carries the decided organization and
      reaches downstream; a rejected one is answered with 401 and keeps its
      organization attribute as it was. */
  method Call(request: Request, orgs: seq<Organization>) returns (response: Response)
    modifies request
    ensures var d := Authenticate(request.path, request.apiKey, orgs);
      match d
        case Forward(org) => response == Downstream && request.organization == org
        case Reject(status, error) =>
          response == JsonError(status, error) && request.organization == old(request.organization)
  {
    if IsExempt(request.path) {
      request.organization := None;
      return Downstream;
    }
    var apiKey := request.apiKey;
    if apiKey.Some? && apiKey.value != "" {
      var found := ActiveByKey(orgs, apiKey.value);
      if found.None? {
        return JsonError(401, InvalidApiKey);
      }
      request.organization := found;
    } else {
      request.organization := None;
    }
    response := Downstream;
  }
}
