/**
 * The health probe of `is_server_running`: three HTTP GETs against status
 * URLs derived from the endpoint, tried in a fixed order, then a raw TCP
 * connect. The network is an oracle: a `ProbeRound` says what each GET
 * would return for a given URL and what the TCP connect gives.
 */
module Probe {
  import Decimal

  /** What one `requests.get(url, timeout=3)` gives back. */
  datatype HttpOutcome =
    | Response(status: int)  // the server answered with this status code
    | RequestFailed          // a `RequestException`: refused, timed out, malformed
    | Unexpected             // any other exception; it reaches the outer handler

  /** What `connect_ex((host, port))` on a fresh socket gives back. */
  datatype TcpOutcome =
    | ConnectEx(code: int)   // the error code; 0 means the port accepted
    | SocketRaised           // creating, configuring or connecting the socket raised

  /** The world as one call of the probe sees it. */
  datatype ProbeRound = ProbeRound(get: string -> HttpOutcome, connect: TcpOutcome)

  predicate IsSuccess(o: HttpOutcome) {
    o.Response? && 200 <= o.status < 300
  }

  /** An answer that sends the probe on to the next URL: a non-2xx status
      (404 included) or a request error. */
  predicate MovesOn(o: HttpOutcome) {
    o.RequestFailed? || (o.Response? && !(200 <= o.status < 300))
  }

  /** `http://host:port`, the manager's `server_url`. */
  function ServerUrl(host: string, port: int): string {
    "http://" + host + ":" + Decimal.FromInt(port)
  }

  /** The endpoints tried, in this order. */
  function HealthUrls(host: string, port: int): (urls: seq<string>)
    ensures |urls| == 3
  {
    var base := ServerUrl(host, port);
    [base + "/wd/hub/status", base + "/status", base + "/wd/hub/sessions"]
  }

  /** The answers the GET oracle gives for `urls`, in order. */
  function Answers(get: string -> HttpOutcome, urls: seq<string>): seq<HttpOutcome>
  {
    seq(|urls|, i requires 0 <= i < |urls| => get(urls[i]))
  }

  /** The fallback chain as a fold over the answers: the first 2xx decides
      "running", an unexpected exception decides "not running", and when
      every answer moves on the TCP connect decides. */
  function ProbeChain(answers: seq<HttpOutcome>, connect: TcpOutcome): bool
  {
    if answers == [] then connect == ConnectEx(0)
    else match answers[0]
      case Response(status) => if 200 <= status < 300 then true else ProbeChain(answers[1..], connect)
      case RequestFailed => ProbeChain(answers[1..], connect)
      case Unexpected => false
  }

  /** What `is_server_running` reports for `host:port` in round `r`. */
  function Detects(host: string, port: int, r: ProbeRound): bool {
    ProbeChain(Answers(r.get, HealthUrls(host, port)), r.connect)
  }

  /** Answer `i` is a 2xx and every earlier answer moved on. */
  predicate FirstSuccessAt(answers: seq<HttpOutcome>, i: int) {
    0 <= i < |answers| && IsSuccess(answers[i]) && forall j :: 0 <= j < i ==> MovesOn(answers[j])
  }

  predicate AllMoveOn(answers: seq<HttpOutcome>) {
    forall j :: 0 <= j < |answers| ==> MovesOn(answers[j])
  }

  /** Answer `i` is the first one that does not move on. */
  predicate DecidesAt(answers: seq<HttpOutcome>, i: int) {
    0 <= i < |answers| && !MovesOn(answers[i]) && forall j :: 0 <= j < i ==> MovesOn(answers[j])
  }

  /** The chain reports running exactly when, in order, some URL answers
      2xx before anything else stops the chain, or when every URL moves on
      and the TCP connect returns 0. */
  lemma {:induction false} ProbeChainMeaning(answers: seq<HttpOutcome>, connect: TcpOutcome)
    ensures ProbeChain(answers, connect) <==>
      (exists i :: FirstSuccessAt(answers, i)) || (AllMoveOn(answers) && connect == ConnectEx(0))
  {
    if answers != [] {
      var tail := answers[1..];
      if IsSuccess(answers[0]) {
        assert FirstSuccessAt(answers, 0);
      } else if MovesOn(answers[0]) {
        ProbeChainMeaning(tail, connect);
        if exists i :: FirstSuccessAt(tail, i) {
          var i :| FirstSuccessAt(tail, i);
          assert FirstSuccessAt(answers, i + 1);
        }
        if exists i :: FirstSuccessAt(answers, i) {
          var i :| FirstSuccessAt(answers, i);
          assert FirstSuccessAt(tail, i - 1);
        }
        assert AllMoveOn(answers) <==> AllMoveOn(tail) by {
          if AllMoveOn(tail) {
            forall j | 0 <= j < |answers| ensures MovesOn(answers[j]) {
              if j > 0 { assert answers[j] == tail[j - 1]; }
            }
          }
        }
      } else {
        assert answers[0].Unexpected?;
        assert !AllMoveOn(answers);
        assert !exists i :: FirstSuccessAt(answers, i) by {
          forall i | 0 <= i < |answers| ensures !FirstSuccessAt(answers, i) {
            if i > 0 { assert !MovesOn(answers[0]); }
          }
        }
      }
    }
  }

  /** Probing stops at the first answer that does not move on: what the
      later URLs and the TCP connect would give is never consulted, and the
      verdict is "running" exactly when that answer is a 2xx. */
  lemma {:induction false} ProbeStopsAtDecidingAnswer(
    answers: seq<HttpOutcome>, i: int, later: seq<HttpOutcome>, connect: TcpOutcome)
    requires DecidesAt(answers, i)
    ensures ProbeChain(answers[..i + 1] + later, connect) == IsSuccess(answers[i])
    decreases i
  {
    var asked := answers[..i + 1] + later;
    if i > 0 {
      assert MovesOn(answers[0]);
      assert asked[0] == answers[0];
      assert asked[1..] == answers[1..][..i] + later;
      assert DecidesAt(answers[1..], i - 1) by {
        forall j | 0 <= j < i - 1 ensures MovesOn(answers[1..][j]) {
          assert MovesOn(answers[j + 1]);
        }
      }
      ProbeStopsAtDecidingAnswer(answers[1..], i - 1, later, connect);
    } else {
      assert asked[0] == answers[0];
    }
  }

  /** A server whose status paths answer 404 but whose session listing
      answers 2xx is detected: a 404 is not taken as "down". */
  lemma SessionsEndpointSuffices(host: string, port: int, r: ProbeRound)
    requires r.get(HealthUrls(host, port)[0]) == Response(404)
    requires r.get(HealthUrls(host, port)[1]) == Response(404)
    requires IsSuccess(r.get(HealthUrls(host, port)[2]))
    ensures Detects(host, port, r)
  {
  }
}
