/**
 * The per-channel endpoint memo.
 *
 * Connecting needs a negotiated endpoint URL per channel class, `public` or
 * `private`. The first caller starts a negotiation and memoises its pending
 * result under the class at once, so later callers join it instead of
 * negotiating again. A failed negotiation deletes the memo entry, so the
 * next caller starts afresh; a `token is expired` error frame clears the
 * entry of the class the failing connection belongs to.
 *
 * The memo entry is a future; here it is a ticket (standing for the future
 * object's identity) and, once the negotiation succeeded, its URL.
 */
module Negotiation {
  import opened Wrappers
  import Strings

  /** The two channel classes. */
  datatype ConnectId = Public | Private

  /** A memoised negotiation: which one it is, and its URL once it has succeeded. */
  datatype Future = Future(ticket: nat, url: Option<string>)

  type Memo = map<ConnectId, Future>

  /** The response of the endpoint-negotiation call; its transport is not modelled. */
  datatype BulletResponse =
    | Bullet(endpoint: string, encodedToken: string, pingInterval: Option<int>)
    | Failed(reason: string)

  /** What a caller of `negotiate` does next. */
  datatype Step =
    | Joined(future: Future)  // a negotiation is memoised: await it, no new call
    | Started(ticket: nat)    // no memo: a new negotiation was started and memoised under `ticket`

  /** The channel class of a request. */
  function ConnectIdOf(privateChannel: bool): ConnectId {
    if privateChannel then Private else Public
  }

  /** The name of a channel class, as it appears in URLs and the memo. */
  function Name(c: ConnectId): string {
    match c
    case Public => "public"
    case Private => "private"
  }

  /** The URL query marking a private connection. */
  const PrivateMarker := "connectId=private"

  /**
   * The negotiated URL: the endpoint, then the token, the channel flag and
   * the channel class as a query; a private URL ends in the private marker,
   * a public one in the public class.
   */
  function NegotiatedUrl(endpoint: string, encodedToken: string, privateChannel: bool): (r: string)
    ensures |endpoint| < |r| && r[..|endpoint|] == endpoint && r[|endpoint|] == '?'
    ensures privateChannel ==> |r| >= |PrivateMarker| && r[|r| - |PrivateMarker|..] == PrivateMarker
    ensures !privateChannel ==> |r| >= |"connectId=public"| && r[|r| - |"connectId=public"|..] == "connectId=public"
  {
    var query := "?token=" + encodedToken + "&privateChannel=" + (if privateChannel then "true" else "false") + "&";
    var classQuery := "connectId=" + Name(ConnectIdOf(privateChannel));
    assert (endpoint + query + classQuery)[..|endpoint|] == endpoint;
    endpoint + query + classQuery
  }

  /** `negotiate`: join the memoised negotiation of the class, or start and memoise one under `ticket`. */
  function OnNegotiate(memo: Memo, privateChannel: bool, ticket: nat): (r: (Memo, Step))
    ensures ConnectIdOf(privateChannel) in r.0
    ensures r.1.Joined? <==> ConnectIdOf(privateChannel) in memo
    ensures r.1.Joined? ==> r.0 == memo && r.1.future == memo[ConnectIdOf(privateChannel)]
    ensures r.1.Started? ==> r.1.ticket == ticket && r.0[ConnectIdOf(privateChannel)] == Future(ticket, None)
    ensures forall c :: c != ConnectIdOf(privateChannel) ==> (c in r.0 <==> c in memo) && (c in r.0 ==> r.0[c] == memo[c])
  {
    var c := ConnectIdOf(privateChannel);
    if c in memo then (memo, Joined(memo[c]))
    else (memo[c := Future(ticket, None)], Started(ticket))
  }

  /**
   * The negotiation `ticket` of the class completes with `response`: the
   * memo afterwards and the URL. On success the future resolves, and the
   * memo shows its URL while it still holds that future. On failure the
   * class's memo entry is deleted, whichever future it holds.
   */
  function OnNegotiated(memo: Memo, privateChannel: bool, ticket: nat, response: BulletResponse): (r: (Memo, Option<string>))
    ensures r.1.None? <==> response.Failed?
    ensures response.Failed? ==> ConnectIdOf(privateChannel) !in r.0
    ensures response.Bullet? ==> (ConnectIdOf(privateChannel) in r.0 <==> ConnectIdOf(privateChannel) in memo)
    ensures response.Bullet? && ConnectIdOf(privateChannel) in memo && memo[ConnectIdOf(privateChannel)].ticket == ticket ==>
      r.0[ConnectIdOf(privateChannel)] == Future(ticket, r.1)
    ensures forall c :: c != ConnectIdOf(privateChannel) ==> (c in r.0 <==> c in memo) && (c in r.0 ==> r.0[c] == memo[c])
  {
    var c := ConnectIdOf(privateChannel);
    match response
    case Bullet(endpoint, token, _) =>
      var url := NegotiatedUrl(endpoint, token, privateChannel);
      (if c in memo && memo[c].ticket == ticket then memo[c := Future(ticket, Some(url))] else memo, Some(url))
    case Failed(_) => (memo - {c}, None)
  }

  /** The error text that invalidates a memoised endpoint. */
  const TokenExpired := "token is expired"

  /** The channel class a connection belongs to, judged from its URL: private exactly when the private marker occurs in it. */
  function ClassOfUrl(url: string): (r: ConnectId)
    ensures r == Private <==> exists i :: Strings.OccursAt(url, PrivateMarker, i)
  {
    if Strings.IndexOf(url, PrivateMarker) >= 0 then Private else Public
  }

  /**
   * An error frame with text `data` arriving on the connection at `url`:
   * `token is expired` removes the memo entry of the connection's class and
   * no other; any other error text leaves the memo as it is.
   */
  function OnErrorMessage(memo: Memo, url: string, data: string): (m: Memo)
    ensures data == TokenExpired ==> ClassOfUrl(url) !in m
    ensures forall c :: c != ClassOfUrl(url) || data != TokenExpired ==>
      (c in m <==> c in memo) && (c in m ==> m[c] == memo[c])
  {
    if data == TokenExpired then memo - {ClassOfUrl(url)} else memo
  }

  /**
   * Two `negotiate` calls for one class before the first completes make one
   * negotiation: the second joins the first's pending future. The other
   * class's entry is untouched.
   */
  lemma SecondCallJoinsPending(memo: Memo, privateChannel: bool, t1: nat, t2: nat)
    requires ConnectIdOf(privateChannel) !in memo
    ensures var (m1, s1) := OnNegotiate(memo, privateChannel, t1);
      var (m2, s2) := OnNegotiate(m1, privateChannel, t2);
      && s1 == Started(t1) && s2 == Joined(Future(t1, None)) && m2 == m1
      && (forall c :: c != ConnectIdOf(privateChannel) ==> (c in m2 <==> c in memo) && (c in m2 ==> m2[c] == memo[c]))
  {
  }

  /**
   * A negotiation that completes successfully is joined afterwards with its
   * URL; one that fails leaves no entry, so the next call starts a new one.
   */
  lemma CompletionThenNextCall(memo: Memo, privateChannel: bool, t1: nat, t2: nat, response: BulletResponse)
    requires ConnectIdOf(privateChannel) !in memo
    ensures var (m1, _) := OnNegotiate(memo, privateChannel, t1);
      var (m2, url) := OnNegotiated(m1, privateChannel, t1, response);
      var (_, s3) := OnNegotiate(m2, privateChannel, t2);
      && (response.Bullet? ==> url.Some? && s3 == Joined(Future(t1, url)))
      && (response.Failed? ==> url.None? && s3 == Started(t2))
  {
  }

  /** A URL negotiated for the private class is recognised as private. */
  lemma PrivateUrlIsPrivate(endpoint: string, encodedToken: string)
    ensures ClassOfUrl(NegotiatedUrl(endpoint, encodedToken, true)) == Private
  {
    var prefix := endpoint + "?token=" + encodedToken + "&privateChannel=true&";
    assert NegotiatedUrl(endpoint, encodedToken, true) == prefix + PrivateMarker;
    Strings.EndsWithIsFound(prefix, PrivateMarker);
  }
}
