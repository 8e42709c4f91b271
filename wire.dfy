/** What the scrapers receive from outside: one entry of the endpoint's result
    array after JSON extraction, the shape of a response, and a client that
    answers requests from a fixed script. */
module Wire {
  import opened Common

  /** One element of `searchResult.searchMerchants`, with each leaf already read
      the way the scrapers read it (`asText`, `asDouble`, `asInt`, `has`, and
      `toString` for the cuisine). A missing leaf has already become "" or 0. */
  datatype Entry = Entry(
    id: string,
    name: string,
    cuisine: string,
    rating: real,
    estimatedDeliveryTime: int,
    distanceInKm: real,
    hasPromoKey: bool,
    promoDescription: string,
    photoHref: string,
    latitude: real,
    longitude: real,
    closingSoonText: string,
    priceDisplay: string)

  /** The node at `searchResult.searchMerchants` of a successful response. */
  datatype Body = NotArray | Results(entries: seq<Entry>)

  /** What one `client.makeRequest` call gives a scraper. */
  datatype Reply =
    | Raised              // the call threw (for example "Max retries exceeded"), or `readTree` threw on the body
    | Refused             // it returned null or an unsuccessful response
    | Delivered(body: Body)

  /** A client whose answers are fixed in advance, one per request, in order.
      Once the script is used up it answers as with a null response. */
  class ScriptedClient<Req> {
    var pending: seq<Reply>
    var sent: seq<Req>

    constructor (script: seq<Reply>)
      ensures pending == script && sent == []
    {
      pending := script;
      sent := [];
    }

    /** Records the request and answers with the next scripted reply. */
    method MakeRequest(request: Req) returns (reply: Reply)
      modifies this
      ensures sent == old(sent) + [request]
      ensures old(pending) == [] ==> reply == Refused && pending == []
      ensures old(pending) != [] ==> reply == old(pending)[0] && pending == old(pending)[1..]
    {
      sent := sent + [request];
      if pending == [] {
        reply := Refused;
      } else {
        reply := pending[0];
        pending := pending[1..];
      }
    }
  }
}
