/** The four lifecycle handlers of the dashboard resource. Each prepares
    its arguments and hands one request to the provider's HTTP helper
    (`resourceCreate`, `resourceRead`, `resourceUpdate`, `resourceDelete`),
    which is outside this model: the handlers record the requests they
    hand over, and the helper's answer is a parameter. */
module Lifecycle {
  import opened Wrappers
  import opened Json
  import opened DashboardModel
  import opened PayloadSpec
  import Translator

  const DashboardApiUrl: string := "https://api.signalfx.com/v2/dashboard"

  /** `fmt.Sprintf("%s/%s", DASHBOARD_API_URL, d.Id())`. */
  function ResourceUrl(id: string): (url: string)
    ensures |url| == |DashboardApiUrl| + 1 + |id|
    ensures url[..|DashboardApiUrl|] == DashboardApiUrl
    ensures url[|DashboardApiUrl|] == '/'
    ensures url[|DashboardApiUrl| + 1..] == id
  {
    DashboardApiUrl + "/" + id
  }

  /** The resource id a per-resource URL addresses, if it is one. */
  function ResourceId(url: string): Option<string> {
    var n := |DashboardApiUrl|;
    if |url| > n && url[..n] == DashboardApiUrl && url[n] == '/' then Some(url[n + 1..]) else None
  }

  lemma ResourceIdOfUrl(id: string)
    ensures ResourceId(ResourceUrl(id)) == Some(id)
  {
  }

  /** Distinct resources are addressed by distinct URLs, and no
      per-resource URL is the collection URL that Create posts to. */
  lemma ResourceUrlDistinct(a: string, b: string)
    ensures ResourceUrl(a) == ResourceUrl(b) ==> a == b
    ensures ResourceUrl(a) != DashboardApiUrl
  {
  }

  datatype Verb = Create | Read | Update | Delete

  /** One call of the HTTP helper: what it is asked to do, where, with
      which token and which payload. */
  datatype Request = Request(verb: Verb, url: string, token: string, payload: Option<Value>)

  /** `fmt.Errorf("Failed creating json payload: %s", err.Error())`. */
  function PayloadError(cause: string): string {
    "Failed creating json payload: " + cause
  }

  /** The handlers, bound to the provider's configured API token. */
  class Handlers {
    const token: string
    /** Every request handed to the HTTP helper, oldest first. */
    var sent: seq<Request>

    constructor (token: string)
      ensures this.token == token && sent == []
    {
      this.token := token;
      sent := [];
    }

    /** `dashboardCreate`: a payload failure is reported before anything
        is sent; otherwise the payload is posted to the collection URL and
        the helper's answer is returned as it is. */
    method DashboardCreate(d: Dashboard, marshalError: Option<string>, reply: Option<string>)
      returns (err: Option<string>)
      modifies this
      ensures marshalError.Some? ==> err == Some(PayloadError(marshalError.value)) && sent == old(sent)
      ensures marshalError.None? ==>
        && sent == old(sent) + [Request(Create, DashboardApiUrl, token, Some(JObject(Payload(d))))]
        && err == reply
    {
      var payload := Translator.GetPayloadDashboard(d, marshalError);
      if payload.Failure? {
        return Some(PayloadError(payload.error));
      }
      sent := sent + [Request(Create, DashboardApiUrl, token, Some(payload.value))];
      err := reply;
    }

    /** `dashboardRead`: fetches the resource at its own URL. */
    method DashboardRead(id: string, reply: Option<string>) returns (err: Option<string>)
      modifies this
      ensures sent == old(sent) + [Request(Read, ResourceUrl(id), token, None)]
      ensures err == reply
    {
      var url := ResourceUrl(id);
      sent := sent + [Request(Read, url, token, None)];
      err := reply;
    }

    /** `dashboardUpdate`: like Create, but sent to the resource's own URL. */
    method DashboardUpdate(d: Dashboard, id: string, marshalError: Option<string>, reply: Option<string>)
      returns (err: Option<string>)
      modifies this
      ensures marshalError.Some? ==> err == Some(PayloadError(marshalError.value)) && sent == old(sent)
      ensures marshalError.None? ==>
        && sent == old(sent) + [Request(Update, ResourceUrl(id), token, Some(JObject(Payload(d))))]
        && err == reply
    {
      var payload := Translator.GetPayloadDashboard(d, marshalError);
      if payload.Failure? {
        return Some(PayloadError(payload.error));
      }
      var url := ResourceUrl(id);
      sent := sent + [Request(Update, url, token, Some(payload.value))];
      err := reply;
    }

    /** `dashboardDelete`: deletes the resource at its own URL. */
    method DashboardDelete(id: string, reply: Option<string>) returns (err: Option<string>)
      modifies this
      ensures sent == old(sent) + [Request(Delete, ResourceUrl(id), token, None)]
      ensures err == reply
    {
      var url := ResourceUrl(id);
      sent := sent + [Request(Delete, url, token, None)];
      err := reply;
    }
  }
}
